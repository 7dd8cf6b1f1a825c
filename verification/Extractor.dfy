/** Event extraction (qc/event_extractor.py): canonical event ids and duplicate removal. */
module Extractor {
  import opened Common
  import opened Rules
  import opened Reports
  import opened Gate

  datatype Candidate = Candidate(etype: EventType, statement: string, turnIds: seq<string>, confidence: real,
                                 ambiguous: bool)

  /** The canonical form that is hashed into an event id. */
  datatype Canonical = Canonical(callId: string, etype: EventType, turnIds: seq<string>, texts: seq<string>)

  /** The transcript rule of an accepted analysis request. */
  ghost predicate UniqueTurns(transcript: seq<Turn>) {
    forall i, j | 0 <= i < j < |transcript| :: transcript[i].turnId != transcript[j].turnId
  }

  /** The 32 upper-case hexadecimal digits taken from the hash. */
  ghost predicate HexDigest(digest: Canonical -> string) {
    forall c :: |digest(c)| == 32 && forall i | 0 <= i < 32 :: HexDigit(digest(c)[i])
  }

  /** The turns of `ids`, each once, in transcript order. */
  function OrderedTurns(ids: seq<string>, transcript: seq<Turn>): (r: seq<Turn>)
    ensures forall t :: t in r <==> t in transcript && t.turnId in ids
  {
    if transcript == [] then []
    else (if transcript[0].turnId in ids then [transcript[0]] else []) + OrderedTurns(ids, transcript[1..])
  }

  function TurnIds(turns: seq<Turn>): (ids: seq<string>)
    ensures |ids| == |turns| && forall i | 0 <= i < |turns| :: ids[i] == turns[i].turnId
  {
    seq(|turns|, i requires 0 <= i < |turns| => turns[i].turnId)
  }

  function Texts(turns: seq<Turn>): seq<string> {
    seq(|turns|, i requires 0 <= i < |turns| => turns[i].text)
  }

  function MakeEventId(callId: string, etype: EventType, ids: seq<string>, transcript: seq<Turn>,
                       digest: Canonical -> string): string {
    var turns := OrderedTurns(ids, transcript);
    "EVT-" + digest(Canonical(callId, etype, TurnIds(turns), Texts(turns)))
  }

  /** Listing the same turns in another order, or more than once, gives the same event id. */
  lemma {:induction false} OrderedTurnsIgnoreListing(ids: seq<string>, other: seq<string>, transcript: seq<Turn>)
    requires forall id :: id in ids <==> id in other
    ensures OrderedTurns(ids, transcript) == OrderedTurns(other, transcript)
  {
    if transcript != [] {
      OrderedTurnsIgnoreListing(ids, other, transcript[1..]);
    }
  }

  lemma EventIdIgnoresListing(callId: string, etype: EventType, ids: seq<string>, other: seq<string>,
                              transcript: seq<Turn>, digest: Canonical -> string)
    requires forall id :: id in ids <==> id in other
    ensures MakeEventId(callId, etype, ids, transcript, digest) == MakeEventId(callId, etype, other, transcript, digest)
  {
    OrderedTurnsIgnoreListing(ids, other, transcript);
  }

  predicate WellFormed(c: Candidate, transcript: seq<Turn>) {
    c.turnIds != [] && forall id | id in c.turnIds :: TurnExists(transcript, id)
  }

  function EventFrom(callId: string, c: Candidate, transcript: seq<Turn>, digest: Canonical -> string): Event {
    Event(MakeEventId(callId, c.etype, c.turnIds, transcript, digest), c.etype, c.statement,
          TurnIds(OrderedTurns(c.turnIds, transcript)), c.confidence, c.ambiguous)
  }

  /** What the rest of the analysis may rely on. */
  ghost predicate WellExtracted(events: seq<Event>, transcript: seq<Turn>) {
    && (forall i, j | 0 <= i < j < |events| :: events[i].eventId != events[j].eventId)
    && (forall e | e in events :: CanonicalEventId(e.eventId) && e.turnIds != [])
    && (forall e, id | e in events && id in e.turnIds :: TurnExists(transcript, id))
  }

  lemma CandidateGivesSoundEvent(callId: string, c: Candidate, transcript: seq<Turn>, digest: Canonical -> string)
    requires HexDigest(digest) && WellFormed(c, transcript)
    ensures var e := EventFrom(callId, c, transcript, digest);
            CanonicalEventId(e.eventId) && e.turnIds != [] && forall id | id in e.turnIds :: TurnExists(transcript, id)
  {
    var e := EventFrom(callId, c, transcript, digest);
    var turns := OrderedTurns(c.turnIds, transcript);
    var hex := digest(Canonical(callId, c.etype, TurnIds(turns), Texts(turns)));
    assert e.eventId == "EVT-" + hex;
    assert e.eventId[..4] == "EVT-";
    assert forall i | 4 <= i < 36 :: e.eventId[i] == hex[i - 4];
    assert TurnExists(transcript, c.turnIds[0]);
    var t :| t in transcript && t.turnId == c.turnIds[0];
    assert t in turns;
    forall id | id in e.turnIds
      ensures TurnExists(transcript, id)
    {
      var k :| 0 <= k < |e.turnIds| && e.turnIds[k] == id;
      assert turns[k] in turns;
    }
  }

  ghost predicate IsCandidate(e: Event, callId: string, transcript: seq<Turn>, candidates: seq<Candidate>,
                              digest: Canonical -> string) {
    exists c :: c in candidates && e == EventFrom(callId, c, transcript, digest)
  }

  /** An event with the candidate's id survives, at least as confident as the candidate. */
  ghost predicate Covered(c: Candidate, callId: string, transcript: seq<Turn>, digest: Canonical -> string,
                          events: seq<Event>) {
    exists e ::
      e in events && e.eventId == EventFrom(callId, c, transcript, digest).eventId && e.confidence >= c.confidence
  }

  /** The events the candidates make, one for each. */
  function Made(callId: string, transcript: seq<Turn>, candidates: seq<Candidate>, digest: Canonical -> string)
    : (r: seq<Event>)
    ensures |r| == |candidates|
  {
    seq(|candidates|, k requires 0 <= k < |candidates| => EventFrom(callId, candidates[k], transcript, digest))
  }

  /** Of the events that share an id the most confident one is chosen, the first of them where they tie. */
  ghost predicate IsBest(made: seq<Event>, n: nat, k: nat) {
    k < n <= |made| && forall j | 0 <= j < n && made[j].eventId == made[k].eventId ::
      made[j].confidence < made[k].confidence || (made[j].confidence == made[k].confidence && k <= j)
  }

  ghost predicate ComesFirst(made: seq<Event>, id: string, other: string) {
    exists p :: 0 <= p < |made| && made[p].eventId == id && forall q | 0 <= q <= p :: made[q].eventId != other
  }

  ghost predicate HasId(events: seq<Event>, id: string) {
    exists e :: e in events && e.eventId == id
  }

  /** `events` are the best events of each id, in the order in which the ids come up; `at` says where they were made. */
  ghost predicate ChosenFrom(made: seq<Event>, events: seq<Event>, at: seq<nat>) {
    && |at| == |events|
    && (forall i | 0 <= i < |at| :: IsBest(made, |made|, at[i]) && events[i] == made[at[i]])
    && (forall k | 0 <= k < |made| :: HasId(events, made[k].eventId))
    && (forall i, j | 0 <= i < j < |events| :: ComesFirst(made, events[i].eventId, events[j].eventId))
  }

  /** The dictionary after the first `n` events: where each id's event was made. */
  ghost predicate Choosing(made: seq<Event>, n: nat, inserted: seq<string>, at: map<string, int>) {
    && n <= |made| && (forall id :: id in inserted <==> id in at)
    && (forall id | id in at :: 0 <= at[id] && IsBest(made, n, at[id]) && made[at[id]].eventId == id)
    && (forall k | 0 <= k < n :: made[k].eventId in at)
    && (forall i, j | 0 <= i < j < |inserted| :: ComesFirst(made, inserted[i], inserted[j]))
  }

  lemma ChooseOne(made: seq<Event>, n: nat, inserted: seq<string>, at: map<string, int>)
    requires n < |made| && Choosing(made, n, inserted, at)
    ensures var e := made[n];
            var isNew := e.eventId !in at;
            Choosing(made, n + 1, if isNew then inserted + [e.eventId] else inserted,
                     if isNew || e.confidence > made[at[e.eventId]].confidence then at[e.eventId := n] else at)
  {
    hide ComesFirst, IsBest;
    var e := made[n];
    var isNew := e.eventId !in at;
    BestAreMade(made, n, inserted, at);
    var at' := if isNew || e.confidence > made[at[e.eventId]].confidence then at[e.eventId := n] else at;
    if isNew {
      NewComesLast(made, n, inserted, at);
    }
    forall id | id in at'
      ensures 0 <= at'[id] && IsBest(made, n + 1, at'[id]) && made[at'[id]].eventId == id
    {
      StaysBest(made, n, id, at, at');
    }
  }

  lemma BestAreMade(made: seq<Event>, n: nat, inserted: seq<string>, at: map<string, int>)
    requires Choosing(made, n, inserted, at)
    ensures forall id | id in at :: 0 <= at[id] < n
  {
  }

  lemma NewComesLast(made: seq<Event>, n: nat, inserted: seq<string>, at: map<string, int>)
    requires n < |made| && Choosing(made, n, inserted, at) && made[n].eventId !in at
    ensures forall i | 0 <= i < |inserted| :: ComesFirst(made, inserted[i], made[n].eventId)
  {
    forall i | 0 <= i < |inserted|
      ensures ComesFirst(made, inserted[i], made[n].eventId)
    {
      assert inserted[i] in inserted;
      var p := at[inserted[i]];
      assert made[p].eventId == inserted[i] && forall q | 0 <= q <= p :: made[q].eventId in at;
    }
  }

  lemma StaysBest(made: seq<Event>, n: nat, id: string, at: map<string, int>, at': map<string, int>)
    requires n < |made| && (forall k | 0 <= k < n :: made[k].eventId in at)
    requires forall id | id in at :: 0 <= at[id] && IsBest(made, n, at[id]) && made[at[id]].eventId == id
    requires forall id | id in at :: at[id] < n
    requires var e := made[n];
             at' == if e.eventId !in at || e.confidence > made[at[e.eventId]].confidence then at[e.eventId := n] else at
    requires id in at'
    ensures 0 <= at'[id] && IsBest(made, n + 1, at'[id]) && made[at'[id]].eventId == id
  {
  }

  lemma AllChosen(made: seq<Event>, inserted: seq<string>, at: map<string, int>, events: seq<Event>)
    returns (positions: seq<nat>)
    requires Choosing(made, |made|, inserted, at) && |events| == |inserted|
    requires forall i | 0 <= i < |inserted| ::
               inserted[i] in at && 0 <= at[inserted[i]] < |made| && events[i] == made[at[inserted[i]]]
    ensures ChosenFrom(made, events, positions)
  {
    hide ComesFirst, IsBest;
    positions := seq(|inserted|, i requires 0 <= i < |inserted| => at[inserted[i]]);
    forall i | 0 <= i < |inserted|
      ensures positions[i] < |made| && IsBest(made, |made|, positions[i])
      ensures events[i] == made[positions[i]] && events[i].eventId == inserted[i]
    {
      assert inserted[i] in at;
    }
    forall i, j | 0 <= i < j < |events|
      ensures ComesFirst(made, events[i].eventId, events[j].eventId)
    {
      assert events[i] == made[positions[i]] && events[j] == made[positions[j]];
      assert ComesFirst(made, inserted[i], inserted[j]);
    }
    forall k | 0 <= k < |made|
      ensures HasId(events, made[k].eventId)
    {
      assert made[k].eventId in inserted;
      var i :| 0 <= i < |inserted| && inserted[i] == made[k].eventId;
      assert events[i] in events && events[i] == made[positions[i]];
    }
  }

  /** Where in the transcript the turns of a candidate stand, in order. */
  ghost predicate StandAt(transcript: seq<Turn>, ids: seq<string>, at: seq<nat>) {
    && (forall i, j | 0 <= i < j < |at| :: at[i] < at[j])
    && (forall k: nat :: k in at <==> k < |transcript| && transcript[k].turnId in ids)
  }

  ghost predicate AreTurnsAt(turns: seq<Turn>, transcript: seq<Turn>, at: seq<nat>) {
    |turns| == |at| && forall i | 0 <= i < |at| :: at[i] < |transcript| && turns[i] == transcript[at[i]]
  }

  lemma {:induction false} OrderedTurnsStandAt(ids: seq<string>, transcript: seq<Turn>) returns (at: seq<nat>)
    ensures StandAt(transcript, ids, at) && AreTurnsAt(OrderedTurns(ids, transcript), transcript, at)
  {
    hide StandAt, AreTurnsAt;
    if transcript == [] {
      at := [];
      NoTurnStands(ids);
    } else {
      var rest := OrderedTurnsStandAt(ids, transcript[1..]);
      var shifted := seq(|rest|, i requires 0 <= i < |rest| => rest[i] + 1);
      at := (if transcript[0].turnId in ids then [0] else []) + shifted;
      ShiftedStandAt(ids, transcript, rest, shifted);
      ShiftedTurns(OrderedTurns(ids, transcript[1..]), transcript, rest, shifted);
    }
  }

  lemma NoTurnStands(ids: seq<string>)
    ensures StandAt([], ids, []) && AreTurnsAt([], [], [])
  {
  }

  lemma ShiftedTurns(turns: seq<Turn>, transcript: seq<Turn>, rest: seq<nat>, shifted: seq<nat>)
    requires transcript != [] && AreTurnsAt(turns, transcript[1..], rest)
    requires |shifted| == |rest| && forall i | 0 <= i < |rest| :: shifted[i] == rest[i] + 1
    ensures AreTurnsAt([] + turns, transcript, [] + shifted)
    ensures AreTurnsAt([transcript[0]] + turns, transcript, [0] + shifted)
  {
  }

  lemma ShiftedStandAt(ids: seq<string>, transcript: seq<Turn>, rest: seq<nat>, shifted: seq<nat>)
    requires transcript != [] && StandAt(transcript[1..], ids, rest)
    requires |shifted| == |rest| && forall i | 0 <= i < |rest| :: shifted[i] == rest[i] + 1
    ensures StandAt(transcript, ids, (if transcript[0].turnId in ids then [0] else []) + shifted)
  {
    forall k: nat
      ensures k in shifted <==> 0 < k < |transcript| && transcript[k].turnId in ids
    {
      if 0 < k < |transcript| {
        assert transcript[1..][k - 1] == transcript[k];
        if k - 1 in rest {
          var i :| 0 <= i < |rest| && rest[i] == k - 1;
          assert shifted[i] == k;
        }
      }
      if k in shifted {
        var i :| 0 <= i < |shifted| && shifted[i] == k;
        assert rest[i] in rest;
      }
    }
  }

  /** The event of a candidate, field by field: its turns are those it cites, once each and in transcript order, and
      its id is the digest of the call, the type, those turns and what was said in them. */
  lemma EventSays(callId: string, c: Candidate, transcript: seq<Turn>, digest: Canonical -> string)
    returns (at: seq<nat>)
    ensures StandAt(transcript, c.turnIds, at)
    ensures var e := EventFrom(callId, c, transcript, digest);
            && e.etype == c.etype && e.statement == c.statement && e.confidence == c.confidence
            && e.ambiguous == c.ambiguous && |e.turnIds| == |at|
            && (forall i | 0 <= i < |at| :: at[i] < |transcript| && e.turnIds[i] == transcript[at[i]].turnId)
            && exists texts: seq<string> ::
                 && |texts| == |at| && (forall i | 0 <= i < |at| :: texts[i] == transcript[at[i]].text)
                 && e.eventId == "EVT-" + digest(Canonical(callId, c.etype, e.turnIds, texts))
  {
    at := OrderedTurnsStandAt(c.turnIds, transcript);
    var turns := OrderedTurns(c.turnIds, transcript);
    assert |Texts(turns)| == |at| && forall i | 0 <= i < |at| :: Texts(turns)[i] == transcript[at[i]].text;
  }

  /** Candidates with a bad reference are refused as a whole; otherwise each event id is kept once,
      with the most confident candidate. */
  method Extract(callId: string, transcript: seq<Turn>, candidates: seq<Candidate>, digest: Canonical -> string)
    returns (r: Result<seq<Event>, AnalysisError>, ghost at: seq<nat>)
    requires HexDigest(digest)
    ensures r.Success? <==> forall c | c in candidates :: WellFormed(c, transcript)
    ensures r.Success? ==> WellExtracted(r.value, transcript)
    ensures r.Success? ==> forall e | e in r.value :: IsCandidate(e, callId, transcript, candidates, digest)
    ensures r.Success? ==> forall c | c in candidates :: Covered(c, callId, transcript, digest, r.value)
    ensures r.Success? ==> ChosenFrom(Made(callId, transcript, candidates, digest), r.value, at)
    ensures r.Failure? ==> r.error.code == "EVENT_UNKNOWN_TURN" && r.error.stage == EventExtraction && at == []
  {
    hide WellFormed, EventFrom, IsCandidate, Covered, Collected, HexDigest, WellExtracted, Choosing, ChosenFrom;
    at := [];
    if exists c :: c in candidates && !WellFormed(c, transcript) {
      return Failure(AnalysisError("EVENT_UNKNOWN_TURN", EventExtraction, "event candidate cites a missing turn",
                                   false)), [];
    }
    NothingCollected(callId, transcript, candidates, digest);
    var deduplicated: map<string, Event> := map[];
    var inserted: seq<string> := [];
    ghost var made := Made(callId, transcript, candidates, digest);
    ghost var where: map<string, int> := map[];
    NothingChosen(made);
    for i := 0 to |candidates|
      invariant Collected(callId, transcript, candidates, i, digest, inserted, deduplicated)
      invariant Choosing(made, i, inserted, where) && where.Keys == deduplicated.Keys
      invariant forall id | id in where :: 0 <= where[id] < |made| && deduplicated[id] == made[where[id]]
    {
      var event := EventFrom(callId, candidates[i], transcript, digest);
      CollectOne(callId, transcript, candidates, i, digest, inserted, deduplicated);
      ChooseOne(made, i, inserted, where);
      if event.eventId !in deduplicated {
        inserted := inserted + [event.eventId];
        deduplicated, where := deduplicated[event.eventId := event], where[event.eventId := i];
      } else if event.confidence > deduplicated[event.eventId].confidence {
        deduplicated, where := deduplicated[event.eventId := event], where[event.eventId := i];
      }
    }
    InsertedAreKeys(callId, transcript, candidates, digest, inserted, deduplicated);
    var events := seq(|inserted|, i requires 0 <= i < |inserted| => deduplicated[inserted[i]]);
    CollectedAreWellExtracted(callId, transcript, candidates, digest, inserted, deduplicated, events);
    at := AllChosen(made, inserted, where, events);
    r := Success(events);
  }

  lemma NothingChosen(made: seq<Event>)
    ensures Choosing(made, 0, [], map[])
  {
  }

  /** The insertion-ordered dictionary after the first `n` candidates. */
  ghost predicate Collected(callId: string, transcript: seq<Turn>, candidates: seq<Candidate>, n: nat,
                            digest: Canonical -> string, inserted: seq<string>, deduplicated: map<string, Event>)
    requires n <= |candidates|
  {
    && (forall a, b | 0 <= a < b < |inserted| :: inserted[a] != inserted[b])
    && (forall id :: id in inserted <==> id in deduplicated)
    && (forall id | id in deduplicated :: deduplicated[id].eventId == id)
    && (forall id | id in deduplicated ::
          IsCandidate(deduplicated[id], callId, transcript, candidates, digest))
    && (forall k | 0 <= k < n :: Kept(EventFrom(callId, candidates[k], transcript, digest), deduplicated))
  }

  ghost predicate Kept(e: Event, deduplicated: map<string, Event>) {
    e.eventId in deduplicated && deduplicated[e.eventId].confidence >= e.confidence
  }

  lemma NothingCollected(callId: string, transcript: seq<Turn>, candidates: seq<Candidate>, digest: Canonical -> string)
    ensures Collected(callId, transcript, candidates, 0, digest, [], map[])
  {
  }

  lemma InsertedAreKeys(callId: string, transcript: seq<Turn>, candidates: seq<Candidate>, digest: Canonical -> string,
                        inserted: seq<string>, deduplicated: map<string, Event>)
    requires Collected(callId, transcript, candidates, |candidates|, digest, inserted, deduplicated)
    ensures forall i | 0 <= i < |inserted| :: inserted[i] in deduplicated
  {
  }

  lemma CollectOne(callId: string, transcript: seq<Turn>, candidates: seq<Candidate>, n: nat,
                   digest: Canonical -> string, inserted: seq<string>, deduplicated: map<string, Event>)
    requires n < |candidates| && Collected(callId, transcript, candidates, n, digest, inserted, deduplicated)
    ensures var e := EventFrom(callId, candidates[n], transcript, digest);
            var isNew := e.eventId !in deduplicated;
            var better := isNew || e.confidence > deduplicated[e.eventId].confidence;
            Collected(callId, transcript, candidates, n + 1, digest,
              if isNew then inserted + [e.eventId] else inserted,
              if better then deduplicated[e.eventId := e] else deduplicated)
  {
    hide EventFrom, IsCandidate;
    var e := EventFrom(callId, candidates[n], transcript, digest);
    assert IsCandidate(e, callId, transcript, candidates, digest) by {
      CandidateIsCandidate(callId, transcript, candidates, n, digest);
    }
  }

  lemma CandidateIsCandidate(callId: string, transcript: seq<Turn>, candidates: seq<Candidate>, n: nat,
                             digest: Canonical -> string)
    requires n < |candidates|
    ensures IsCandidate(EventFrom(callId, candidates[n], transcript, digest), callId, transcript, candidates, digest)
  {
    assert candidates[n] in candidates;
  }

  lemma CollectedAreWellExtracted(callId: string, transcript: seq<Turn>, candidates: seq<Candidate>,
                                  digest: Canonical -> string, inserted: seq<string>, deduplicated: map<string, Event>,
                                  events: seq<Event>)
    requires HexDigest(digest) && forall c | c in candidates :: WellFormed(c, transcript)
    requires Collected(callId, transcript, candidates, |candidates|, digest, inserted, deduplicated)
    requires |events| == |inserted| && forall i | 0 <= i < |inserted| ::
               inserted[i] in deduplicated && events[i] == deduplicated[inserted[i]]
    ensures WellExtracted(events, transcript)
    ensures forall e | e in events :: IsCandidate(e, callId, transcript, candidates, digest)
    ensures forall c | c in candidates :: Covered(c, callId, transcript, digest, events)
  {
    hide WellFormed, EventFrom, CanonicalEventId, TurnExists, HexDigest, IsCandidate;
    forall e | e in events
      ensures CanonicalEventId(e.eventId) && e.turnIds != [] && forall id | id in e.turnIds ::
                TurnExists(transcript, id)
      ensures IsCandidate(e, callId, transcript, candidates, digest)
    {
      var k :| 0 <= k < |events| && events[k] == e;
      SoundCandidate(callId, transcript, candidates, digest, deduplicated[inserted[k]]);
    }
    forall c | c in candidates
      ensures Covered(c, callId, transcript, digest, events)
    {
      var k :| 0 <= k < |candidates| && candidates[k] == c;
      EventKeepsConfidence(callId, c, transcript, digest);
      var e := EventFrom(callId, candidates[k], transcript, digest);
      assert Kept(e, deduplicated);
      var j :| 0 <= j < |inserted| && inserted[j] == e.eventId;
      assert events[j] in events;
    }
  }

  lemma SoundCandidate(callId: string, transcript: seq<Turn>, candidates: seq<Candidate>, digest: Canonical -> string,
                       e: Event)
    requires HexDigest(digest) && (forall c | c in candidates :: WellFormed(c, transcript))
    requires IsCandidate(e, callId, transcript, candidates, digest)
    ensures CanonicalEventId(e.eventId) && e.turnIds != [] && forall id | id in e.turnIds :: TurnExists(transcript, id)
  {
    var c :| c in candidates && e == EventFrom(callId, c, transcript, digest);
    CandidateGivesSoundEvent(callId, c, transcript, digest);
  }

  lemma EventKeepsConfidence(callId: string, c: Candidate, transcript: seq<Turn>, digest: Canonical -> string)
    ensures EventFrom(callId, c, transcript, digest).confidence == c.confidence
  {
  }
}
