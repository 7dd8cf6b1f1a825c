/** Why analyzer and gate can disagree: two documents of one id and different lengths can both be returned, and keeping
    one hit per document may drop the supporting one (qc/rag.py, qc/direct_analyzer.py). */
module RetentionExample {
  import opened Common
  import opened Rules
  import opened Reports
  import opened Sorting
  import opened Gate
  import opened Extractor
  import opened Analyzer
  import opened RankFusion
  import opened ChunkIds
  import opened Knowledge
  import opened KnowledgeSearch
  import opened IndexedCalls

  // ---------------------------------------------------------------- what the code lets through

  /** Text that survives stripping. */
  predicate Written(text: string) {
    exists c :: c in text && !Blank(c)
  }

  /** A turn the transcript model accepts. */
  predicate AcceptedTurn(t: Turn) {
    Written(t.turnId) && Written(t.speaker) && Written(t.text) && 0.0 <= t.start <= t.end
  }

  /** The call is one the service can be asked about, with events the extractor can give, over the rule file that
      both the analyzer and the index were built from. */
  ghost predicate Receivable(entries: seq<RuleEntry>, call: Call) {
    && call.transcript != [] && UniqueTurns(call.transcript)
    && (forall t | t in call.transcript :: AcceptedTurn(t))
    && (forall i, j | 0 <= i < j < |call.transcript| :: call.transcript[i].start <= call.transcript[j].start)
    && WellExtracted(call.events, call.transcript)
    && (forall e | e in call.events :: Written(e.statement) && 0.0 <= e.confidence <= 1.0)
    && |call.rules| == |entries| && (forall e | 0 <= e < |entries| :: call.rules[e] == entries[e].rule)
    && AskedOf(Chunked(Loaded([], entries)), DEFAULT_CONFIG, call)
    && forall i: nat | i < |call.events| :: call.search(i).Success?
  }

  // ---------------------------------------------------------------- the rule file

  const ID := "R006"
  const SOURCE := "POLICY-REPAYMENT-003"
  const LONG_TEXT: string := seq(MAX_CHARS + 1, _ => '核')
  const SHORT_TEXT := "否认债务须登记"
  const ON_DISPUTE := Rule(ID, "还款争议", [RepaymentDispute], 20, 0, None, SOURCE)
  const ON_DENIAL := Rule(ID, "还款争议", [DebtDenial], 20, 0, None, SOURCE)

  /** One rule in two entries, with a long text for disputes and a short one for denials. */
  const ENTRIES := [RuleEntry(ON_DISPUTE, LONG_TEXT), RuleEntry(ON_DENIAL, SHORT_TEXT)]

  function Indexed(etype: EventType, text: string): Document {
    Document(ID, "RULE", text, Some("published"), Of(etype), Starts(0), Open, [ID])
  }

  lemma TheDocuments()
    ensures Loaded([], ENTRIES) == [Indexed(RepaymentDispute, LONG_TEXT), Indexed(DebtDenial, SHORT_TEXT)]
  {
    var first, second := ENTRIES[0], ENTRIES[1];
    assert ENTRIES[..1] == [first] && ENTRIES[..1][..0] == [] && ENTRIES[..2] == ENTRIES;
    assert AllFilings([first]) == AllFilings([]) + Filings(first) == [Filing(first, RepaymentDispute)];
    assert AllFilings(ENTRIES) == AllFilings([first]) + Filings(second);
    assert SOURCE[0] != ID[0];
    assert RulesFrom([first], ID) == [];
    assert RulesFrom(ENTRIES, ID) == [];
  }

  lemma TheParts()
    ensures PartsOf(Indexed(RepaymentDispute, LONG_TEXT)) == [LONG_TEXT[..MAX_CHARS], LONG_TEXT[MAX_CHARS..]]
    ensures PartsOf(Indexed(DebtDenial, SHORT_TEXT)) == [SHORT_TEXT]
  {
    assert Stripped(LONG_TEXT) == LONG_TEXT;
    assert Cut(LONG_TEXT[MAX_CHARS..]) == [LONG_TEXT[MAX_CHARS..]];
    assert Cut(LONG_TEXT) == [LONG_TEXT[..MAX_CHARS]] + Cut(LONG_TEXT[MAX_CHARS..]);
    assert Stripped(SHORT_TEXT) == SHORT_TEXT;
  }

  const FIRST := Chunk(ChunkId(ID, 0), Indexed(RepaymentDispute, LONG_TEXT[..MAX_CHARS]))
  const SECOND := Chunk(ChunkId(ID, 1), Indexed(RepaymentDispute, LONG_TEXT[MAX_CHARS..]))
  const LATER := Chunk(ChunkId(ID, 0), Indexed(DebtDenial, SHORT_TEXT))

  lemma TheChunks()
    ensures Chunked(Loaded([], ENTRIES)) == [FIRST, SECOND, LATER]
  {
    hide PartsOf, ChunkId, Loaded;
    TheDocuments();
    TheParts();
    var dispute, denial := Indexed(RepaymentDispute, LONG_TEXT), Indexed(DebtDenial, SHORT_TEXT);
    assert ChunksOf(dispute) == [FIRST, SECOND] && ChunksOf(denial) == [LATER];
    assert [dispute, denial][..1] == [dispute] && [dispute][..0] == [];
    assert Chunked([dispute]) == Chunked([]) + ChunksOf(dispute);
  }

  // ---------------------------------------------------------------- the search

  const CHUNKS := [FIRST, SECOND, LATER]
  const QUERY := Query(RepaymentDispute, 0, "", 5)
  const SCORING := Scoring(InMemory(Similarity), Similarity, Some([0.9, 0.6]))

  function Similarity(n: nat): real {
    if n == 0 then 0.9 else 0.8
  }

  const LISTED := [Ranked(ChunkId(ID, 0), 0.9), Ranked(ChunkId(ID, 1), 0.8)]

  lemma TheIdsOfChunks()
    ensures ChunkId(ID, 0) != ChunkId(ID, 1)
  {
    if ChunkId(ID, 0) == ChunkId(ID, 1) {
      ChunkIdsDiffer(ID, 0, ID, 1);
    }
  }

  lemma TheListing()
    ensures Listing(CHUNKS, QUERY, Similarity, 20) == LISTED
  {
    hide ChunkId;
    assert CHUNKS[..2] == [FIRST, SECOND] && CHUNKS[..2][..1] == [FIRST] && CHUNKS[..1][..0] == [];
    assert EligibleAmong([FIRST], QUERY) == [0];
    assert EligibleAmong([FIRST, SECOND], QUERY) == [0, 1];
    assert EligibleAmong(CHUNKS, QUERY) == [0, 1];
    var less := (i: nat, j: nat) => Precedes(CHUNKS, Similarity, i, j);
    var both: seq<nat>, one: seq<nat> := [0, 1], [1];
    assert both[1..] == one && one[1..] == [];
    assert Sort(one, less) == one;
    assert Sort(both, less) == both;
  }

  lemma TheShares()
    ensures Contribution(LISTED, 60, ChunkId(ID, 0)) == 1.0 / 61.0
    ensures Contribution(LISTED, 60, ChunkId(ID, 1)) == 1.0 / 62.0
  {
    TheIdsOfChunks();
    hide ChunkId;
    var one := LISTED[..1];
    assert one == [LISTED[0]] && one[..0] == [];
    assert Share(60, 1) == 1.0 / 61.0 && Share(60, 2) == 1.0 / 62.0;
    hide Share;
    assert Contribution(one, 60, ChunkId(ID, 0)) == Contribution([], 60, ChunkId(ID, 0)) + Share(60, 1);
    assert Contribution(one, 60, ChunkId(ID, 1)) == Contribution([], 60, ChunkId(ID, 1)) + 0.0;
  }

  function Rows(): seq<Row> {
    [RowOf(LISTED, LISTED, 60, ChunkId(ID, 0)), RowOf(LISTED, LISTED, 60, ChunkId(ID, 1))]
  }

  lemma TheRanking()
    ensures IsRanking(Rows(), LISTED, LISTED, 60) && Sliced(Rows(), 20) == Rows()
  {
    TheIdsOfChunks();
    TheShares();
    hide ChunkId, Contribution;
    assert LISTED[0].key == ChunkId(ID, 0) && LISTED[1].key == ChunkId(ID, 1);
    assert Listed(LISTED, LISTED, ChunkId(ID, 0)) && Listed(LISTED, LISTED, ChunkId(ID, 1));
    hide RankIn;
    assert Rows()[0] in Rows() && Rows()[1] in Rows();
  }

  lemma TheResolution()
    ensures Resolve(CHUNKS, ChunkId(ID, 0)) == Some(LATER) && Resolve(CHUNKS, ChunkId(ID, 1)) == Some(SECOND)
  {
    TheIdsOfChunks();
    hide ChunkId;
    assert CHUNKS[..2] == [FIRST, SECOND];
  }

  /** The hit of a part of the rule's text. */
  function Filed(etype: EventType, score: real): Hit {
    Hit(ID, score, Metadata(Some("published"), Some(etype), Some(0), Open, [ID], []))
  }

  const FOUND := [Filed(DebtDenial, 0.9), Filed(RepaymentDispute, 0.6)]

  lemma TheHits()
    ensures AllResolve(CHUNKS, Rows())
    ensures Reported(Chosen(CHUNKS, Rows(), SCORING.rerank, 5)) == Success(FOUND)
  {
    TheResolution();
    hide ChunkId, Resolve, RowOf;
    assert forall row | row in Rows() :: row == Rows()[0] || row == Rows()[1];
    KeysOfRows();
    var first, second := Scored(LATER, 0.9, 0.9), Scored(SECOND, 0.6, 0.6);
    assert Candidates(CHUNKS, Rows(), SCORING.rerank) == [first, second];
    assert Sort([first, second], Ranks) == [first, second] by {
      assert [first, second][1..] == [second] && [second][1..] == [];
      assert Sort([second], Ranks) == [second];
    }
    assert Chosen(CHUNKS, Rows(), SCORING.rerank, 5) == [first, second];
    assert AsHits([first, second]) == FOUND;
  }

  lemma KeysOfRows()
    ensures Rows()[0].key == ChunkId(ID, 0) && Rows()[1].key == ChunkId(ID, 1)
  {
  }

  /** The index answers the search for the dispute with the denial's filing first. */
  lemma TheAnswer()
    ensures IsAnswer(CHUNKS, DEFAULT_CONFIG, QUERY, SCORING, Success(FOUND))
  {
    TheListing();
    TheRanking();
    TheHits();
    hide Listing, IsRanking, Reported, Chosen, AllResolve, Rows, Sliced;
    assert DenseList(CHUNKS, DEFAULT_CONFIG, QUERY, SCORING.dense) == LISTED;
  }

  // ---------------------------------------------------------------- the call

  const DISPUTE_ID := "EVT-00000000000000000000000000000000"
  const PAID := Turn("T1", "客户", "我已经还完了", 0.0, 1.0)
  const DISPUTE := Event(DISPUTE_ID, RepaymentDispute, "客户主张已还款", ["T1"], 1.0, false)

  /** A dispute the agent did not register. */
  function Disputed(): Call {
    Call([PAID], 0, Audit(Some(false), []), [DISPUTE], n => Success(FOUND), [ON_DISPUTE, ON_DENIAL], 0.5,
         (terms, text) => false)
  }

  function Analysis(): Report {
    Report("CALL", 80, [DISPUTE], [Violation(Some(DISPUTE_ID), ID, "还款争议", 20, ["T1"], [ID])],
           [Filed(DebtDenial, 0.9)], Some(Audit(Some(false), [])), NotChecked, AutoViolation, [])
  }

  lemma TheEventIsWellExtracted()
    ensures WellExtracted(Disputed().events, Disputed().transcript) && UniqueTurns(Disputed().transcript)
  {
    assert |DISPUTE_ID| == 36 && DISPUTE_ID[..4] == "EVT-";
    assert Disputed().transcript[0] == PAID;
    assert TurnExists(Disputed().transcript, "T1");
  }

  lemma FirstIsWritten(text: string)
    requires text != "" && !Blank(text[0])
    ensures Written(text)
  {
    assert text[0] in text;
  }

  lemma TheTextsAreWritten()
    ensures AcceptedTurn(PAID) && Written(DISPUTE.statement)
  {
    hide Written;
    FirstIsWritten("T1");
    FirstIsWritten("客户");
    FirstIsWritten(PAID.text);
    FirstIsWritten(DISPUTE.statement);
  }

  lemma TheSearchIsAnswered()
    ensures AskedOf(CHUNKS, DEFAULT_CONFIG, Disputed())
  {
    TheAnswer();
    hide IsAnswer;
    assert Disputed().search(0) == Success(FOUND);
    assert IsAnswer(CHUNKS, DEFAULT_CONFIG, Query(Disputed().events[0].etype, Disputed().at, "", 5), SCORING,
                    Success(Disputed().search(0).value));
  }

  lemma TheCallIsReceivable()
    ensures Receivable(ENTRIES, Disputed())
  {
    hide WellExtracted, UniqueTurns, AcceptedTurn, Written, AskedOf, Chunked, Loaded;
    TheEventIsWellExtracted();
    TheTextsAreWritten();
    TheChunks();
    TheSearchIsAnswered();
  }

  // ---------------------------------------------------------------- the analysis

  lemma TheSupport()
    ensures Supporting(FOUND, [], RepaymentDispute, ON_DISPUTE, 0, 0.5) == [Filed(RepaymentDispute, 0.6)]
    ensures DocumentIds([Filed(RepaymentDispute, 0.6)]) == [ID]
  {
    assert FOUND[..1] == [FOUND[0]] && FOUND[..1][..0] == [];
    assert Supporting([FOUND[0]], [], RepaymentDispute, ON_DISPUTE, 0, 0.5) == [];
  }

  lemma TheEvidenceIsTheTurn()
    ensures Breach(Disputed(), DISPUTE) && forall id :: Evidence(Disputed(), DISPUTE, id) <==> id == "T1"
  {
  }

  lemma TheDisputeIsPunished()
    ensures VerdictOn(Disputed(), 0) == Punished(20, [ID])
    ensures IsPunishment(Disputed(), 0, Analysis().violations[0])
  {
    TheEvidenceIsTheTurn();
    TheSupport();
    hide Breach, Evidence, Supporting, DocumentIds;
    assert Analyzer.HitsOf(Disputed(), 0) == FOUND;
    assert GetRule(Disputed().rules, ID) == Some(ON_DISPUTE);
  }

  lemma NothingRaises()
    ensures forall i: nat | i < |Disputed().events| :: !Raises(Disputed(), i)
  {
    TheDisputeIsPunished();
    hide VerdictOn, IsPunishment;
    assert PAID in Disputed().transcript;
  }

  lemma TheBestHit()
    ensures AllHits(Disputed(), 1) == FOUND && Best(FOUND, ID) == Some(Filed(DebtDenial, 0.9))
    ensures forall d | Best(FOUND, d).Some? :: d == ID
  {
    assert AllHits(Disputed(), 1) == AllHits(Disputed(), 0) + Analyzer.HitsOf(Disputed(), 0) == FOUND;
    assert FOUND[..1] == [FOUND[0]];
    assert Best(FOUND, ID) == Some(Filed(DebtDenial, 0.9));
    hide Best;
  }

  lemma TheKeptHit()
    ensures AllHits(Disputed(), 1) == FOUND && Best(FOUND, ID) == Some(Filed(DebtDenial, 0.9))
    ensures Retains(AllHits(Disputed(), 1), [Filed(DebtDenial, 0.9)])
  {
    hide Best, AllHits;
    TheBestHit();
  }

  lemma TheDisputeIsAll()
    ensures PunishedOf(Disputed(), 1) == [0] && PendingOf(Disputed(), 1) == []
    ensures ArePunishments(Disputed(), 1, Analysis().violations)
  {
    hide VerdictOn, IsPunishment;
    TheDisputeIsPunished();
    assert PunishedOf(Disputed(), 1) == PunishedOf(Disputed(), 0) + [0] == [0];
    assert PendingOf(Disputed(), 1) == PendingOf(Disputed(), 0) == [];
  }

  lemma TheScoreIsEighty()
    requires Dedup(Analysis().violations, EventOrder([DISPUTE])) == Analysis().violations
    ensures Score(Analysis().violations, Disputed().rules, 0, [DISPUTE]) == Success(80)
  {
    assert EventById([DISPUTE])[DISPUTE_ID] == DISPUTE by {
      assert [DISPUTE][0] == DISPUTE;
    }
    assert PenaltyOf(Analysis().violations[0], Disputed().rules, 0, [DISPUTE]) == Success(20);
    hide Dedup, PenaltyOf, EventOrder;
    assert Analysis().violations[..0] == [];
    assert TotalPenalty(Analysis().violations, Disputed().rules, 0, [DISPUTE]) == Success(20);
  }

  lemma TheReportIsAnalyzed()
    ensures Analyzed(Disputed(), Analysis())
  {
    hide PunishedOf, PendingOf, ArePunishments, Retains, Dedup, Score, WellExtracted, UniqueTurns, AllHits;
    TheEventIsWellExtracted();
    TheDisputeIsAll();
    TheKeptHit();
    PunishmentsMergeToThemselves(Disputed(), Analysis().violations);
    TheScoreIsEighty();
  }

  lemma TheCallIsClean()
    ensures CleanCall(Disputed())
  {
    hide VerdictOn;
    TheDisputeIsPunished();
  }

  lemma TheSupportIsLost()
    ensures !RetentionKeepsSupport(Disputed())
  {
    hide VerdictOn, AllHits, Best;
    TheDisputeIsPunished();
    TheKeptHit();
    assert ID in VerdictOn(Disputed(), 0).documents;
    assert !KeepsSupportOf(Disputed(), 0);
  }

  /** A rule file, an index built from it with the default settings, and a call over it: clean, analyzed without an
      exception, and refused by the gate, because the retained hit of the cited document is of the other entry. */
  lemma CleanAnalysisMayFail() returns (entries: seq<RuleEntry>, call: Call, report: Report)
    ensures Receivable(entries, call) && forall i: nat | i < |call.events| :: !Raises(call, i)
    ensures Analyzed(call, report) && CleanCall(call)
    ensures !Passes(Case(report, call.transcript, call.at, call.minimum, call.rules))
  {
    entries, call, report := ENTRIES, Disputed(), Analysis();
    TheCallIsReceivable();
    TheEventIsWellExtracted();
    NothingRaises();
    TheReportIsAnalyzed();
    TheCallIsClean();
    TheSupportIsLost();
    hide *;
    AnalyzerGateAgreement(call, report);
  }
}
