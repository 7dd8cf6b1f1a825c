/** What a built index holds (qc/rag.py), read off the policies, the cases and the rule file: which documents are loaded
    in which order, how their text is cut, and how the parts are named. */
module IndexLaws {
  import opened Common
  import opened Rules
  import opened Reports
  import opened ChunkIds
  import opened Knowledge

  // ---------------------------------------------------------------- loading

  /** `ids` are the rules that name the document as their source, in the order of the rule file. */
  ghost predicate SourcedBy(entries: seq<RuleEntry>, documentId: string, ids: seq<string>, at: seq<nat>) {
    && |at| == |ids| && (forall i, j | 0 <= i < j < |at| :: at[i] < at[j])
    && (forall i | 0 <= i < |at| :: at[i] < |entries| && ids[i] == entries[at[i]].rule.ruleId)
    && (forall e: nat | e < |entries| :: e in at <==> entries[e].rule.sourceDocumentId == documentId)
  }

  /** The document relates to the rules it is the source of; one that is nobody's source keeps what it was given. */
  ghost predicate Relates(entries: seq<RuleEntry>, documentId: string, given: seq<string>, related: seq<string>) {
    if exists e :: e in entries && e.rule.sourceDocumentId == documentId
    then exists at :: SourcedBy(entries, documentId, related, at)
    else related == given
  }

  /** A policy or a case, published unless it says otherwise. */
  ghost predicate IsLoaded(entries: seq<RuleEntry>, d: Document, loaded: Document) {
    && loaded.documentId == d.documentId && loaded.category == d.category && loaded.content == d.content
    && loaded.topic == d.topic && loaded.from == d.from && loaded.until == d.until
    && (d.status == None ==> loaded.status == Some("published")) && (d.status != None ==> loaded.status == d.status)
    && Relates(entries, d.documentId, d.relatedRuleIds, loaded.relatedRuleIds)
  }

  /** A rule, filed under one of its event types. */
  ghost predicate IsFiled(entries: seq<RuleEntry>, entry: RuleEntry, etype: EventType, d: Document) {
    var rule := entry.rule;
    && d.documentId == rule.ruleId && d.category == "RULE" && d.content == entry.text && d.status == Some("published")
    && d.topic == Of(etype) && d.from == Starts(rule.effectiveFrom)
    && (rule.effectiveTo == None ==> d.until == Open)
    && (rule.effectiveTo != None ==> d.until == Ends(rule.effectiveTo.value))
    && Relates(entries, rule.ruleId, [rule.ruleId], d.relatedRuleIds)
  }

  /** How many event types the first `e` rules list. */
  ghost function TypesBefore(entries: seq<RuleEntry>, e: nat): nat
    requires e <= |entries|
  {
    if e == 0 then 0 else TypesBefore(entries, e - 1) + |entries[e - 1].rule.eventTypes|
  }

  ghost predicate Loads(given: seq<Document>, entries: seq<RuleEntry>, documents: seq<Document>) {
    && |documents| == |given| + TypesBefore(entries, |entries|)
    && (forall i | 0 <= i < |given| :: IsLoaded(entries, given[i], documents[i]))
    && forall e: nat, k: nat | e < |entries| && k < |entries[e].rule.eventTypes| ::
         FiledAt(given, entries, documents, e, k)
  }

  /** The k-th event type of the e-th rule comes after all that is listed before it. */
  ghost predicate FiledAt(given: seq<Document>, entries: seq<RuleEntry>, documents: seq<Document>, e: nat, k: nat)
    requires e < |entries| && k < |entries[e].rule.eventTypes|
  {
    var p := |given| + TypesBefore(entries, e) + k;
    p < |documents| && IsFiled(entries, entries[e], entries[e].rule.eventTypes[k], documents[p])
  }

  lemma {:induction false} RulesFromSourced(entries: seq<RuleEntry>, documentId: string) returns (at: seq<nat>)
    ensures SourcedBy(entries, documentId, RulesFrom(entries, documentId), at)
    ensures RulesFrom(entries, documentId) != [] <==> exists e :: e in entries && e.rule.sourceDocumentId == documentId
  {
    hide SourcedBy;
    if entries == [] {
      at := [];
      NothingSourced(documentId);
    } else {
      var init, last := entries[..|entries| - 1], entries[|entries| - 1];
      assert entries == init + [last];
      at := RulesFromSourced(init, documentId);
      SourcedOneMore(init, last, documentId, RulesFrom(init, documentId), at);
      if last.rule.sourceDocumentId == documentId {
        at := at + [|init|];
      } else {
        assert RulesFrom(entries, documentId) == RulesFrom(init, documentId);
      }
    }
  }

  lemma NothingSourced(documentId: string)
    ensures SourcedBy([], documentId, [], [])
  {
  }

  lemma SourcedOneMore(init: seq<RuleEntry>, last: RuleEntry, documentId: string, ids: seq<string>, at: seq<nat>)
    requires SourcedBy(init, documentId, ids, at)
    ensures if last.rule.sourceDocumentId == documentId
            then SourcedBy(init + [last], documentId, ids + [last.rule.ruleId], at + [|init|])
            else SourcedBy(init + [last], documentId, ids, at)
  {
    assert |init| !in at;
  }

  lemma CompletedRelates(d: Document, entries: seq<RuleEntry>)
    ensures Relates(entries, d.documentId, d.relatedRuleIds, Completed(d, entries).relatedRuleIds)
  {
    hide RulesFrom, SourcedBy;
    var at := RulesFromSourced(entries, d.documentId);
  }

  lemma {:induction false} FilingsCounted(entries: seq<RuleEntry>, e: nat)
    requires e <= |entries|
    ensures |AllFilings(entries[..e])| == TypesBefore(entries, e)
  {
    if e > 0 {
      FilingsCounted(entries, e - 1);
      assert entries[..e][..e - 1] == entries[..e - 1];
    }
  }

  /** What loading gives, document by document. */
  lemma LoadedLoads(given: seq<Document>, entries: seq<RuleEntry>)
    ensures Loads(given, entries, Loaded(given, entries))
  {
    hide Relates, AllFilings, TypesBefore, RulesFrom;
    var documents := Loaded(given, entries);
    FilingsCounted(entries, |entries|);
    assert entries[..|entries|] == entries;
    forall i | 0 <= i < |given|
      ensures IsLoaded(entries, given[i], documents[i])
    {
      CompletedRelates(given[i], entries);
    }
    forall e: nat, k: nat | e < |entries| && k < |entries[e].rule.eventTypes|
      ensures FiledAt(given, entries, documents, e, k)
    {
      FilingAt(given, entries, e, k);
      FilingsCounted(entries, e);
      CompletedRelates(Filing(entries[e], entries[e].rule.eventTypes[k]), entries);
    }
  }

  // ---------------------------------------------------------------- cutting

  /** The characters Python takes for white space. */
  ghost predicate IsSpace(c: char) {
    var n := c as int;
    || 9 <= n <= 13 || 28 <= n <= 32 || 0x2000 <= n <= 0x200a
    || n in {0x85, 0xa0, 0x1680, 0x2028, 0x2029, 0x202f, 0x205f, 0x3000}
  }

  /** `core` is the text without the white space around it. */
  ghost predicate Trims(text: string, core: string, front: string, back: string) {
    && text == front + core + back && (forall c | c in front + back :: IsSpace(c))
    && (core != [] ==> !IsSpace(core[0]) && !IsSpace(core[|core| - 1]))
  }

  lemma BlankIsSpace(c: char)
    ensures Blank(c) <==> IsSpace(c)
  {
  }

  lemma TrimsFurther(c: char, rest: string, core: string, front: string, back: string)
    requires Trims(rest, core, front, back) && IsSpace(c)
    ensures Trims([c] + rest, core, [c] + front, back) && Trims(rest + [c], core, front, back + [c])
  {
    hide IsSpace;
    assert [c] + rest == ([c] + front) + core + back && rest + [c] == front + core + (back + [c]);
    forall x | x in ([c] + front) + back || x in front + (back + [c])
      ensures IsSpace(x)
    {
      assert x == c || x in front + back;
    }
  }

  lemma {:induction false} StrippedTrims(text: string) returns (front: string, back: string)
    ensures Trims(text, Stripped(text), front, back)
  {
    hide Blank, IsSpace, Trims;
    if text == [] {
      front, back := [], [];
      NothingTrimmed(text);
    } else {
      var first, last := text[0], text[|text| - 1];
      BlankIsSpace(first);
      BlankIsSpace(last);
      if Blank(first) {
        front, back := StrippedTrims(text[1..]);
        TrimsFurther(first, text[1..], Stripped(text), front, back);
        assert text == [first] + text[1..];
        front := [first] + front;
      } else if Blank(last) {
        front, back := StrippedTrims(text[..|text| - 1]);
        TrimsFurther(last, text[..|text| - 1], Stripped(text), front, back);
        assert text == text[..|text| - 1] + [last];
        back := back + [last];
      } else {
        front, back := [], [];
        NothingTrimmed(text);
      }
    }
  }

  lemma NothingTrimmed(text: string)
    requires text != [] ==> !IsSpace(text[0]) && !IsSpace(text[|text| - 1])
    ensures Trims(text, text, [], [])
  {
    assert text == [] + text + [];
  }

  ghost function Joined(parts: seq<string>): string {
    if parts == [] then [] else parts[0] + Joined(parts[1..])
  }

  /** The parts make up the text; all but the last have 800 characters, the last at most as many, and at least one
      unless the text is empty. */
  ghost predicate Cuts(text: string, parts: seq<string>) {
    && parts != [] && Joined(parts) == text && (forall n | 0 <= n < |parts| - 1 :: |parts[n]| == 800)
    && |parts[|parts| - 1]| <= 800 && (text != [] ==> parts[|parts| - 1] != [])
  }

  lemma {:induction false} CutCuts(text: string)
    ensures Cuts(text, Cut(text))
  {
    if |text| <= 800 {
      assert Joined([text][1..]) == [];
    } else {
      CutCuts(text[800..]);
      var parts := Cut(text);
      assert parts[1..] == Cut(text[800..]);
      assert text == text[..800] + text[800..];
    }
  }

  // ---------------------------------------------------------------- naming

  /** The number of a part, with at least four digits. */
  ghost predicate Numbers(digits: string, n: nat) {
    && AllDigits(digits) && Value(digits) == n && |digits| >= 4 && (|digits| > 4 ==> digits[0] != '0')
  }

  lemma {:induction false} DecimalStarts(n: nat)
    ensures Decimal(n) != [] && (n > 0 ==> Decimal(n)[0] != '0')
    decreases n
  {
    if n >= 10 {
      DecimalStarts(n / 10);
    } else if n > 0 {
      DigitValue(n);
    }
  }

  lemma PaddedNumbers(n: nat)
    ensures Numbers(Padded(n), n)
  {
    hide Decimal, Value, AllDigits;
    PaddedReads(n);
    DecimalStarts(n);
    if n == 0 {
      assert Padded(0) == Zeros(3) + Decimal(0) by { ZeroIsShort(); }
      ZeroIsShort();
    }
  }

  lemma ZeroIsShort()
    ensures |Decimal(0)| == 1
  {
  }

  /** A document and what is indexed of it. */
  ghost predicate Parts(d: Document, chunks: seq<Chunk>, core: string, parts: seq<string>) {
    && (exists front, back :: Trims(d.content, core, front, back)) && Cuts(core, parts) && |chunks| == |parts|
    && forall n: nat | n < |parts| ::
         && chunks[n].of == d.(content := parts[n])
         && exists digits :: Numbers(digits, n) && chunks[n].chunkId == d.documentId + "#c" + digits
  }

  /** The parts of the document, cut from its trimmed text and numbered in order. */
  lemma ChunksAreParts(d: Document) returns (core: string, parts: seq<string>)
    ensures Parts(d, ChunksOf(d), core, parts)
  {
    hide Trims, Cuts, Numbers, Padded, Cut, Stripped;
    core, parts := Stripped(d.content), PartsOf(d);
    var front, back := StrippedTrims(d.content);
    CutCuts(core);
    forall n: nat | n < |parts|
      ensures exists digits :: Numbers(digits, n) && ChunksOf(d)[n].chunkId == d.documentId + "#c" + digits
    {
      PaddedNumbers(n);
    }
  }

  /** Documents are indexed one after the other. */
  lemma ChunkedInOrder(documents: seq<Document>, d: Document)
    ensures Chunked([]) == [] && Chunked(documents + [d]) == Chunked(documents) + ChunksOf(d)
  {
    assert (documents + [d])[..|documents|] == documents;
  }
}
