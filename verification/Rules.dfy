/** Violations, the rule repository, duplicate merging and the score (qc/rules.py, qc/models.py). */
module Rules {
  import opened Common
  import opened Sorting

  datatype EventType =
    | RepaymentDispute | DebtDenial | AmountDispute | FinancialHardship | ComplaintIntent
    | StopContactRequest | ThirdPartyContact | ThreatOrCoercion | EmotionalEscalation

  datatype Turn = Turn(turnId: string, speaker: string, text: string, start: real, end: real)

  datatype Event = Event(
    eventId: string, etype: EventType, statement: string, turnIds: seq<string>,
    confidence: real, ambiguous: bool)

  datatype Violation = Violation(
    eventId: Option<string>, ruleId: string, ruleName: string, penalty: int,
    evidenceTurnIds: seq<string>, knowledgeDocumentIds: seq<string>)

  /** Instants are UTC seconds; `effectiveTo` is exclusive. */
  datatype Rule = Rule(
    ruleId: string, name: string, eventTypes: seq<EventType>, penalty: int,
    effectiveFrom: int, effectiveTo: Option<int>, sourceDocumentId: string)

  /** The KeyError family raised while looking up rules and events. */
  datatype KeyError = UnknownRule(ruleId: string) | MissingEvent(eventId: string)

  // ---------------------------------------------------------------- rule repository

  function GetRule(rules: seq<Rule>, id: string): (r: Option<Rule>)
    ensures r.Some? <==> exists rule :: rule in rules && rule.ruleId == id
    ensures r.Some? ==> r.value in rules && r.value.ruleId == id
  {
    if rules == [] then None
    else if rules[0].ruleId == id then
      assert rules[0] in rules;
      Some(rules[0])
    else
      assert forall rule :: rule in rules <==> rule == rules[0] || rule in rules[1..];
      GetRule(rules[1..], id)
  }

  predicate RuleInForce(rule: Rule, etype: EventType, at: int) {
    && etype in rule.eventTypes
    && rule.effectiveFrom <= at
    && (rule.effectiveTo.Some? ==> at < rule.effectiveTo.value)
  }

  /** `get_active`: an unknown id raises, a rule out of force gives None. */
  function GetActive(rules: seq<Rule>, id: string, etype: EventType, at: int): (r: Result<Option<Rule>, KeyError>)
    ensures r.Failure? <==> GetRule(rules, id).None?
    ensures r.Failure? ==> r.error == UnknownRule(id)
    ensures r.Success? && r.value.Some? ==> r.value == GetRule(rules, id) && RuleInForce(r.value.value, etype, at)
    ensures r == Success(None) ==> !RuleInForce(GetRule(rules, id).value, etype, at)
  {
    match GetRule(rules, id)
    case None => Failure(UnknownRule(id))
    case Some(rule) => if RuleInForce(rule, etype, at) then Success(Some(rule)) else Success(None)
  }

  // ---------------------------------------------------------------- duplicate merging

  /** The text a falsy-or-not `violation.eventId or ""` evaluates to. */
  function EventRef(v: Violation): string {
    if v.eventId.Some? then v.eventId.value else ""
  }

  datatype Key = EventKey(eventId: string, ruleId: string) | LegacyKey(ruleId: string, evidence: set<string>)

  function KeyOf(v: Violation): Key {
    if EventRef(v) != "" then EventKey(EventRef(v), v.ruleId)
    else LegacyKey(v.ruleId, set t | t in v.evidenceTurnIds)
  }

  predicate IsFirst(vs: seq<Violation>, p: nat)
    requires p < |vs|
  {
    forall q | 0 <= q < p :: KeyOf(vs[q]) != KeyOf(vs[p])
  }

  /** Positions at which a key is met for the first time: the insertion order of the dictionary. */
  function FirstPositions(vs: seq<Violation>): (ps: seq<nat>)
    ensures |ps| <= |vs|
    ensures forall i | 0 <= i < |ps| :: ps[i] < |vs| && IsFirst(vs, ps[i])
    ensures forall i, j | 0 <= i < j < |ps| :: ps[i] < ps[j]
    ensures forall p: nat | p < |vs| && IsFirst(vs, p) :: p in ps
  {
    if vs == [] then []
    else
      var n := |vs| - 1;
      var init := FirstPositions(vs[..n]);
      assert forall p: nat | p < n :: IsFirst(vs[..n], p) <==> IsFirst(vs, p);
      if IsFirst(vs, n) then init + [n] else init
  }

  function Unseen(docs: seq<string>, known: seq<string>): (r: seq<string>)
    ensures forall d :: d in r <==> d in docs && d !in known
  {
    if docs == [] then []
    else if docs[0] in known then Unseen(docs[1..], known)
    else [docs[0]] + Unseen(docs[1..], known)
  }

  /** Documents collected for one key: each later duplicate adds the ones not collected before it. */
  function MergedDocs(vs: seq<Violation>, k: Key): seq<string> {
    if vs == [] then []
    else
      var known := MergedDocs(vs[..|vs| - 1], k);
      var last := vs[|vs| - 1];
      if KeyOf(last) == k then known + Unseen(last.knowledgeDocumentIds, known) else known
  }

  function MergedAt(vs: seq<Violation>, p: nat): Violation
    requires p < |vs|
  {
    vs[p].(knowledgeDocumentIds := MergedDocs(vs, KeyOf(vs[p])))
  }

  datatype Rank = Rank(major: int, ruleId: string, position: int)

  predicate RankLess(a: Rank, b: Rank) {
    a.major < b.major
    || (a.major == b.major && (StringLess(a.ruleId, b.ruleId)
        || (a.ruleId == b.ruleId && a.position < b.position)))
  }

  function RankAt(vs: seq<Violation>, order: map<string, int>, p: nat): Rank
    requires p < |vs|
  {
    Rank(if EventRef(vs[p]) in order then order[EventRef(vs[p])] else p, vs[p].ruleId, p)
  }

  predicate Before(vs: seq<Violation>, order: map<string, int>, p: nat, q: nat) {
    p < |vs| && q < |vs| && RankLess(RankAt(vs, order, p), RankAt(vs, order, q))
  }

  function SortedPositions(vs: seq<Violation>, order: map<string, int>): (ps: seq<nat>)
    ensures |ps| == |FirstPositions(vs)|
    ensures forall p :: p in ps <==> p in FirstPositions(vs)
    ensures forall i | 0 <= i < |ps| :: ps[i] < |vs| && IsFirst(vs, ps[i])
  {
    var first := FirstPositions(vs);
    var less := (p: nat, q: nat) => Before(vs, order, p, q);
    SortKeepsElements(first, less);
    var ps := Sort(first, less);
    assert forall i | 0 <= i < |ps| :: ps[i] in first;
    ps
  }

  /** What `deduplicate_violations` returns. */
  function Dedup(vs: seq<Violation>, order: map<string, int>): (out: seq<Violation>)
    ensures |out| == |FirstPositions(vs)|
  {
    var ps := SortedPositions(vs, order);
    seq(|ps|, i requires 0 <= i < |ps| => MergedAt(vs, ps[i]))
  }

  /** The two dictionaries after the first `n` violations. */
  ghost predicate Merging(vs: seq<Violation>, n: nat, merged: map<Key, Violation>, firstPosition: map<Key, nat>)
    requires n <= |vs|
  {
    && merged.Keys == firstPosition.Keys
    && (forall q | 0 <= q < n :: KeyOf(vs[q]) in merged)
    && forall k | k in merged ::
         && firstPosition[k] < n && KeyOf(vs[firstPosition[k]]) == k
         && IsFirst(vs, firstPosition[k])
         && merged[k] == vs[firstPosition[k]].(knowledgeDocumentIds := MergedDocs(vs[..n], k))
  }

  lemma MergeNew(vs: seq<Violation>, n: nat, merged: map<Key, Violation>, firstPosition: map<Key, nat>)
    requires n < |vs| && Merging(vs, n, merged, firstPosition) && KeyOf(vs[n]) !in merged
    ensures Merging(vs, n + 1, merged[KeyOf(vs[n]) := vs[n]], firstPosition[KeyOf(vs[n]) := n])
    ensures IsFirst(vs, n)
  {
    hide KeyOf, MergedDocs, Unseen;
    var key := KeyOf(vs[n]);
    forall k | k == key || k in merged
      ensures MergedDocs(vs[..n + 1], k) == if k == key then vs[n].knowledgeDocumentIds else MergedDocs(vs[..n], k)
    {
      MergedDocsStep(vs, n, k);
      if k == key {
        NoDocsBeforeFirst(vs[..n], k);
        UnseenOfNothing(vs[n].knowledgeDocumentIds);
      }
    }
  }

  lemma MergeDuplicate(vs: seq<Violation>, n: nat, merged: map<Key, Violation>, firstPosition: map<Key, nat>)
    requires n < |vs| && Merging(vs, n, merged, firstPosition) && KeyOf(vs[n]) in merged
    ensures var k := KeyOf(vs[n]);
            var known := merged[k].knowledgeDocumentIds;
            Merging(vs, n + 1,
              merged[k := merged[k].(knowledgeDocumentIds := known + Unseen(vs[n].knowledgeDocumentIds, known))],
              firstPosition)
    ensures !IsFirst(vs, n)
  {
    hide KeyOf, MergedDocs, Unseen;
    forall k | k in merged {
      MergedDocsStep(vs, n, k);
    }
  }

  lemma MergedDocsStep(vs: seq<Violation>, n: nat, k: Key)
    requires n < |vs|
    ensures var known := MergedDocs(vs[..n], k);
            MergedDocs(vs[..n + 1], k)
            == if KeyOf(vs[n]) == k then known + Unseen(vs[n].knowledgeDocumentIds, known) else known
  {
    hide KeyOf, Unseen;
    assert vs[..n + 1][..n] == vs[..n];
  }

  lemma FirstPositionsStep(vs: seq<Violation>, n: nat)
    requires n < |vs|
    ensures FirstPositions(vs[..n + 1]) == FirstPositions(vs[..n]) + (if IsFirst(vs, n) then [n] else [])
  {
    hide KeyOf;
    assert vs[..n + 1][..n] == vs[..n];
    assert IsFirst(vs[..n + 1], n) <==> IsFirst(vs, n);
  }

  method DeduplicateViolations(vs: seq<Violation>, order: map<string, int>) returns (out: seq<Violation>)
    ensures out == Dedup(vs, order)
  {
    hide KeyOf, MergedDocs, FirstPositions, IsFirst, Unseen;
    var merged: map<Key, Violation> := map[];
    var firstPosition: map<Key, nat> := map[];
    var inserted: seq<nat> := [];
    for position := 0 to |vs|
      invariant inserted == FirstPositions(vs[..position])
      invariant Merging(vs, position, merged, firstPosition)
    {
      var violation := vs[position];
      var key := KeyOf(violation);
      FirstPositionsStep(vs, position);
      if key !in merged {
        MergeNew(vs, position, merged, firstPosition);
        merged := merged[key := violation];
        firstPosition := firstPosition[key := position];
        inserted := inserted + [position];
      } else {
        MergeDuplicate(vs, position, merged, firstPosition);
        var current := merged[key];
        var known := current.knowledgeDocumentIds;
        merged :=
          merged[key := current.(knowledgeDocumentIds := known + Unseen(violation.knowledgeDocumentIds, known))];
      }
    }
    assert vs[..|vs|] == vs;
    out := Gather(vs, SortedPositions(vs, order), merged, firstPosition);
  }

  method Gather(vs: seq<Violation>, positions: seq<nat>, merged: map<Key, Violation>,
                ghost firstPosition: map<Key, nat>)
    returns (out: seq<Violation>)
    requires Merging(vs, |vs|, merged, firstPosition)
    requires forall i | 0 <= i < |positions| :: positions[i] < |vs| && IsFirst(vs, positions[i])
    ensures out == seq(|positions|, i requires 0 <= i < |positions| => MergedAt(vs, positions[i]))
  {
    hide KeyOf, MergedDocs;
    out := [];
    for i := 0 to |positions|
      invariant |out| == i
      invariant forall j | 0 <= j < i :: out[j] == MergedAt(vs, positions[j])
    {
      var key := KeyOf(vs[positions[i]]);
      assert vs[..|vs|] == vs;
      assert IsFirst(vs, firstPosition[key]) && IsFirst(vs, positions[i]);
      out := out + [merged[key]];
    }
  }

  lemma UnseenOfNothing(docs: seq<string>)
    ensures Unseen(docs, []) == docs
  {
  }

  lemma {:induction false} NoDocsBeforeFirst(vs: seq<Violation>, k: Key)
    requires forall q | 0 <= q < |vs| :: KeyOf(vs[q]) != k
    ensures MergedDocs(vs, k) == []
  {
    if vs != [] {
      NoDocsBeforeFirst(vs[..|vs| - 1], k);
    }
  }

  // ---------------------------------------------------------------- what merging means

  ghost predicate PositionsOf(vs: seq<Violation>, domain: set<nat>) {
    forall p | p in domain :: p < |vs|
  }

  lemma RanksOrderStrictly(vs: seq<Violation>, order: map<string, int>, domain: set<nat>)
    requires PositionsOf(vs, domain)
    ensures OrdersStrictly((p: nat, q: nat) => Before(vs, order, p, q), domain)
  {
    forall p, q | p in domain && q in domain && p != q
      ensures Before(vs, order, p, q) != Before(vs, order, q, p)
    {
      StringLessTrichotomy(vs[p].ruleId, vs[q].ruleId);
    }
    forall p | p in domain
      ensures !Before(vs, order, p, p)
    {
      StringLessTrichotomy(vs[p].ruleId, vs[p].ruleId);
    }
    forall p, q, r | p in domain && q in domain && r in domain && Before(vs, order, p, q) && Before(vs, order, q, r)
      ensures Before(vs, order, p, r)
    {
      if StringLess(vs[p].ruleId, vs[q].ruleId) && StringLess(vs[q].ruleId, vs[r].ruleId) {
        StringLessTransitive(vs[p].ruleId, vs[q].ruleId, vs[r].ruleId);
      }
    }
  }

  lemma SortedPositionsAscend(vs: seq<Violation>, order: map<string, int>)
    ensures Ascending(SortedPositions(vs, order), (p: nat, q: nat) => Before(vs, order, p, q))
  {
    hide KeyOf, IsFirst, Before;
    var first := FirstPositions(vs);
    var domain := set p | p in first;
    RanksOrderStrictly(vs, order, domain);
    SortAscending(first, (p: nat, q: nat) => Before(vs, order, p, q), domain);
  }

  ghost function KeysOf(vs: seq<Violation>): set<Key> {
    set v | v in vs :: KeyOf(v)
  }

  lemma KeyOfMerged(vs: seq<Violation>, p: nat)
    requires p < |vs|
    ensures KeyOf(MergedAt(vs, p)) == KeyOf(vs[p])
  {
  }

  lemma {:induction false} FirstOccurrence(vs: seq<Violation>, p: nat) returns (q: nat)
    requires p < |vs|
    ensures q <= p && IsFirst(vs, q) && KeyOf(vs[q]) == KeyOf(vs[p])
  {
    hide KeyOf;
    if IsFirst(vs, p) {
      q := p;
    } else {
      var r :| 0 <= r < p && KeyOf(vs[r]) == KeyOf(vs[p]);
      q := FirstOccurrence(vs, r);
    }
  }

  /** Merging keeps exactly one violation per key, in rank order, and no key is lost or invented. */
  lemma DedupKeepsKeys(vs: seq<Violation>, order: map<string, int>)
    ensures KeysOf(Dedup(vs, order)) == KeysOf(vs)
    ensures forall i, j | 0 <= i < j < |Dedup(vs, order)| ::
              KeyOf(Dedup(vs, order)[i]) != KeyOf(Dedup(vs, order)[j])
    ensures forall v | v in Dedup(vs, order) :: exists w ::
              w in vs && v == w.(knowledgeDocumentIds := v.knowledgeDocumentIds)
  {
    hide KeyOf, Before;
    var ps := SortedPositions(vs, order);
    var out := Dedup(vs, order);
    forall i | 0 <= i < |ps|
      ensures KeyOf(out[i]) == KeyOf(vs[ps[i]]) && vs[ps[i]] in vs
    {
      KeyOfMerged(vs, ps[i]);
    }
    SortedPositionsAscend(vs, order);
    forall i, j | 0 <= i < j < |ps|
      ensures KeyOf(out[i]) != KeyOf(out[j])
    {
      RanksOrderStrictly(vs, order, {ps[i], ps[j]});
      assert ps[i] != ps[j];
      assert IsFirst(vs, ps[i]) && IsFirst(vs, ps[j]);
    }
    forall v | v in vs
      ensures KeyOf(v) in KeysOf(out)
    {
      var p: nat :| p < |vs| && vs[p] == v;
      var q := FirstOccurrence(vs, p);
      assert q in ps;
      var i :| 0 <= i < |ps| && ps[i] == q;
      assert out[i] in out;
    }
  }

  /** The documents of a merged violation are those of all its duplicates, and nothing else. */
  lemma {:induction false} MergedDocsAreUnion(vs: seq<Violation>, k: Key)
    ensures forall d :: d in MergedDocs(vs, k)
              <==> exists i | 0 <= i < |vs| :: KeyOf(vs[i]) == k && d in vs[i].knowledgeDocumentIds
  {
    hide KeyOf;
    if vs != [] {
      var init := vs[..|vs| - 1];
      MergedDocsAreUnion(init, k);
      forall d
        ensures d in MergedDocs(vs, k)
                <==> exists i | 0 <= i < |vs| :: KeyOf(vs[i]) == k && d in vs[i].knowledgeDocumentIds
      {
        assert forall i | 0 <= i < |init| :: init[i] == vs[i];
        assert KeyOf(vs[|vs| - 1]) == k && d in vs[|vs| - 1].knowledgeDocumentIds ==> d in MergedDocs(vs, k);
      }
    }
  }

  // ---------------------------------------------------------------- canonical order, idempotence

  ghost predicate AllKnown(vs: seq<Violation>, order: map<string, int>) {
    forall v | v in vs :: EventRef(v) != "" && EventRef(v) in order
  }

  ghost predicate NoneKnown(vs: seq<Violation>, order: map<string, int>) {
    forall v | v in vs :: EventRef(v) !in order
  }

  ghost predicate Injective(order: map<string, int>) {
    forall a, b | a in order && b in order && order[a] == order[b] :: a == b
  }

  ghost function KeySequence(vs: seq<Violation>): seq<Key> {
    seq(|vs|, i requires 0 <= i < |vs| => KeyOf(vs[i]))
  }

  ghost predicate KeyBefore(order: map<string, int>, a: Key, b: Key) {
    && a.EventKey? && b.EventKey? && a.eventId in order && b.eventId in order
    && (order[a.eventId] < order[b.eventId]
        || (order[a.eventId] == order[b.eventId] && StringLess(a.ruleId, b.ruleId)))
  }

  lemma KeysOrderStrictly(vs: seq<Violation>, order: map<string, int>)
    requires AllKnown(vs, order) && Injective(order)
    ensures OrdersStrictly((a: Key, b: Key) => KeyBefore(order, a, b), KeysOf(vs))
  {
    forall a, b | a in KeysOf(vs) && b in KeysOf(vs)
      ensures a != b ==> KeyBefore(order, a, b) != KeyBefore(order, b, a)
      ensures !KeyBefore(order, a, a)
    {
      StringLessTrichotomy(a.ruleId, b.ruleId);
      StringLessTrichotomy(a.ruleId, a.ruleId);
    }
    forall a, b, c | KeyBefore(order, a, b) && KeyBefore(order, b, c)
      ensures KeyBefore(order, a, c)
    {
      if StringLess(a.ruleId, b.ruleId) && StringLess(b.ruleId, c.ruleId) {
        StringLessTransitive(a.ruleId, b.ruleId, c.ruleId);
      }
    }
  }

  lemma DedupKeysAscend(vs: seq<Violation>, order: map<string, int>)
    requires AllKnown(vs, order) && Injective(order)
    ensures Ascending(KeySequence(Dedup(vs, order)), (a: Key, b: Key) => KeyBefore(order, a, b))
  {
    var ps := SortedPositions(vs, order);
    var ks := KeySequence(Dedup(vs, order));
    SortedPositionsAscend(vs, order);
    forall i, j | 0 <= i < j < |ks|
      ensures KeyBefore(order, ks[i], ks[j])
    {
      KeyOfMerged(vs, ps[i]);
      KeyOfMerged(vs, ps[j]);
      assert Before(vs, order, ps[i], ps[j]);
      assert vs[ps[i]] in vs && vs[ps[j]] in vs;
      DedupKeepsKeys(vs, order);
    }
  }

  /** With every event known, the merged order depends on the keys alone, not on how the
      violations were listed or repeated. */
  lemma DedupOrderIsCanonical(vs: seq<Violation>, ws: seq<Violation>, order: map<string, int>)
    requires AllKnown(vs, order) && AllKnown(ws, order) && Injective(order)
    requires KeysOf(vs) == KeysOf(ws)
    ensures KeySequence(Dedup(vs, order)) == KeySequence(Dedup(ws, order))
  {
    hide KeyOf, KeyBefore, Dedup, Before;
    DedupKeysAscend(vs, order);
    DedupKeysAscend(ws, order);
    DedupKeepsKeys(vs, order);
    DedupKeepsKeys(ws, order);
    KeysOrderStrictly(vs, order);
    KeySequenceElements(Dedup(vs, order));
    KeySequenceElements(Dedup(ws, order));
    AscendingUnique(KeySequence(Dedup(vs, order)), KeySequence(Dedup(ws, order)),
      (a: Key, b: Key) => KeyBefore(order, a, b), KeysOf(vs));
  }

  lemma KeySequenceElements(vs: seq<Violation>)
    ensures forall k :: k in KeySequence(vs) <==> k in KeysOf(vs)
  {
    hide KeyOf;
    forall k | k in KeysOf(vs)
      ensures k in KeySequence(vs)
    {
      var v :| v in vs && KeyOf(v) == k;
      var i :| 0 <= i < |vs| && vs[i] == v;
      assert KeySequence(vs)[i] == k;
    }
  }

  ghost predicate DistinctKeys(vs: seq<Violation>) {
    forall i, j | 0 <= i < j < |vs| :: KeyOf(vs[i]) != KeyOf(vs[j])
  }

  lemma {:induction false} SingleOwnerDocs(vs: seq<Violation>, p: nat)
    requires p < |vs| && DistinctKeys(vs)
    ensures MergedDocs(vs, KeyOf(vs[p])) == vs[p].knowledgeDocumentIds
  {
    hide KeyOf;
    var last := |vs| - 1;
    if p == last {
      NoDocsBeforeFirst(vs[..last], KeyOf(vs[p]));
      UnseenOfNothing(vs[p].knowledgeDocumentIds);
    } else {
      SingleOwnerDocs(vs[..last], p);
    }
  }

  ghost function Iota(n: nat): (s: seq<nat>)
    ensures |s| == n && forall i | 0 <= i < n :: s[i] == i
  {
    seq(n, i => i)
  }

  lemma DistinctAreAllFirst(vs: seq<Violation>, order: map<string, int>)
    requires DistinctKeys(vs)
    ensures forall p :: p in SortedPositions(vs, order) <==> p in Iota(|vs|)
  {
    hide KeyOf;
    forall p: nat | p < |vs|
      ensures p in SortedPositions(vs, order) && p in Iota(|vs|)
    {
      assert IsFirst(vs, p);
      assert Iota(|vs|)[p] == p;
    }
    var ps := SortedPositions(vs, order);
    forall p | p in ps
      ensures p in Iota(|vs|)
    {
      assert p < |vs|;
    }
  }

  lemma MergingDistinctInOrderIsIdentity(vs: seq<Violation>, order: map<string, int>)
    requires DistinctKeys(vs)
    requires Ascending(Iota(|vs|), (p: nat, q: nat) => Before(vs, order, p, q))
    ensures Dedup(vs, order) == vs
  {
    hide KeyOf, Before;
    var less := (p: nat, q: nat) => Before(vs, order, p, q);
    var domain := set p | p in Iota(|vs|);
    RanksOrderStrictly(vs, order, domain);
    SortedPositionsAscend(vs, order);
    DistinctAreAllFirst(vs, order);
    AscendingUnique(SortedPositions(vs, order), Iota(|vs|), less, domain);
    forall p: nat | p < |vs|
      ensures MergedAt(vs, p) == vs[p]
    {
      SingleOwnerDocs(vs, p);
    }
  }

  /** Merging again changes nothing exactly when the merged list is still in rank order. */
  lemma StableExactlyInOrder(vs: seq<Violation>, order: map<string, int>)
    ensures var out := Dedup(vs, order);
            Dedup(out, order) == out
            <==> Ascending(Iota(|out|), (p: nat, q: nat) => Before(out, order, p, q))
  {
    hide KeyOf, Before;
    var out := Dedup(vs, order);
    DedupKeepsKeys(vs, order);
    if Ascending(Iota(|out|), (p: nat, q: nat) => Before(out, order, p, q)) {
      MergingDistinctInOrderIsIdentity(out, order);
    }
    if Dedup(out, order) == out {
      var ps := SortedPositions(out, order);
      SortedPositionsAscend(out, order);
      DistinctAreAllFirst(out, order);
      assert |ps| == |out|;
      forall i | 0 <= i < |out|
        ensures ps[i] == i
      {
        KeyOfMerged(out, ps[i]);
        assert KeyOf(out[ps[i]]) == KeyOf(out[i]);
      }
      assert ps == Iota(|out|);
    }
  }

  predicate Known(v: Violation, order: map<string, int>) {
    EventRef(v) in order
  }

  /** The rank at which a second merge would look for the violation that the first one put at place `i`: an unknown
      event has slid from its position in the list to that place. */
  function Slid(v: Violation, order: map<string, int>, i: nat): Rank {
    Rank(if Known(v, order) then order[EventRef(v)] else i, v.ruleId, i)
  }

  /** Of the violations kept, in the order they are put: one with a known and one with an unknown event never
      change places when the unknown one slides to its place. */
  ghost predicate SlidingKeepsPlaces(vs: seq<Violation>, order: map<string, int>) {
    var ps := SortedPositions(vs, order);
    forall i: nat, j: nat | i < j < |ps| && Known(vs[ps[i]], order) != Known(vs[ps[j]], order) ::
      RankLess(Slid(vs[ps[i]], order, i), Slid(vs[ps[j]], order, j))
  }

  lemma MergedRankIsSlid(vs: seq<Violation>, order: map<string, int>, i: nat)
    requires i < |Dedup(vs, order)|
    ensures i < |SortedPositions(vs, order)|
    ensures RankAt(Dedup(vs, order), order, i) == Slid(vs[SortedPositions(vs, order)[i]], order, i)
  {
    hide FirstPositions, IsFirst, MergedDocs;
  }

  /** Two kept violations whose events are both known, or both unknown, stay in order. */
  lemma LikeStayInOrder(vs: seq<Violation>, order: map<string, int>, i: nat, j: nat)
    requires i < j < |SortedPositions(vs, order)|
    requires var ps := SortedPositions(vs, order); Known(vs[ps[i]], order) == Known(vs[ps[j]], order)
    ensures var ps := SortedPositions(vs, order);
            RankLess(Slid(vs[ps[i]], order, i), Slid(vs[ps[j]], order, j))
  {
    hide SortedPositions, IsFirst, FirstPositions;
    var ps := SortedPositions(vs, order);
    SortedPositionsAscend(vs, order);
    assert Before(vs, order, ps[i], ps[j]);
  }

  /** Merging is idempotent on a list exactly when sliding keeps the places of its mixed pairs. */
  lemma DedupIdempotentExactly(vs: seq<Violation>, order: map<string, int>)
    ensures Dedup(Dedup(vs, order), order) == Dedup(vs, order) <==> SlidingKeepsPlaces(vs, order)
  {
    hide Dedup, SortedPositions, RankAt, RankLess, Slid, Known, IsFirst, FirstPositions;
    var out, ps := Dedup(vs, order), SortedPositions(vs, order);
    assert |out| == |ps|;
    StableExactlyInOrder(vs, order);
    forall i: nat, j: nat | i < j < |out|
      ensures Before(out, order, i, j) <==> RankLess(Slid(vs[ps[i]], order, i), Slid(vs[ps[j]], order, j))
      ensures Known(vs[ps[i]], order) == Known(vs[ps[j]], order) ==> Before(out, order, i, j)
    {
      MergedRankIsSlid(vs, order, i);
      MergedRankIsSlid(vs, order, j);
      if Known(vs[ps[i]], order) == Known(vs[ps[j]], order) {
        LikeStayInOrder(vs, order, i, j);
      }
    }
    hide Before;
    IotaInOrder(out, order);
  }

  lemma IotaInOrder(out: seq<Violation>, order: map<string, int>)
    ensures Ascending(Iota(|out|), (p: nat, q: nat) => Before(out, order, p, q))
            <==> forall i: nat, j: nat | i < j < |out| :: Before(out, order, i, j)
  {
    hide Before;
    var less, iota := (p: nat, q: nat) => Before(out, order, p, q), Iota(|out|);
    if Ascending(iota, less) {
      forall i: nat, j: nat | i < j < |out|
        ensures Before(out, order, i, j)
      {
        assert less(iota[i], iota[j]);
      }
    }
  }

  /** In particular when the events are all known, and when none is: there are no mixed pairs. */
  lemma DedupIdempotent(vs: seq<Violation>, order: map<string, int>)
    requires AllKnown(vs, order) || NoneKnown(vs, order)
    ensures Dedup(Dedup(vs, order), order) == Dedup(vs, order)
  {
    hide Dedup;
    DedupIdempotentExactly(vs, order);
    var ps := SortedPositions(vs, order);
    forall i: nat, j: nat | i < j < |ps|
      ensures Known(vs[ps[i]], order) == Known(vs[ps[j]], order)
    {
      assert vs[ps[i]] in vs && vs[ps[j]] in vs;
    }
  }

  lemma MixedFirsts(vs: seq<Violation>)
    requires |vs| == 4 && vs[0] == vs[1] == vs[2]
    requires vs[0] == Violation(Some("E"), "R1", "", 0, [], []) && vs[3] == Violation(None, "R2", "", 0, [], [])
    ensures IsFirst(vs, 0) && IsFirst(vs, 3) && !IsFirst(vs, 1) && !IsFirst(vs, 2)
  {
    assert KeyOf(vs[0]) == EventKey("E", "R1") && KeyOf(vs[3]).LegacyKey?;
    hide KeyOf;
  }

  lemma MixedPositions(vs: seq<Violation>, order: map<string, int>)
    requires |vs| == 4 && vs[0] == vs[1] == vs[2]
    requires vs[0] == Violation(Some("E"), "R1", "", 0, [], []) && vs[3] == Violation(None, "R2", "", 0, [], [])
    requires order == map["E" := 2]
    ensures SortedPositions(vs, order) == [0, 3]
  {
    var less := (p: nat, q: nat) => Before(vs, order, p, q);
    assert Before(vs, order, 0, 3);
    MixedFirsts(vs);
    hide KeyOf, Before, FirstPositions, RankAt, IsFirst;
    SortedPositionsAscend(vs, order);
    RanksOrderStrictly(vs, order, {0, 3});
    AscendingUnique(SortedPositions(vs, order), [0, 3], less, {0, 3});
  }

  lemma MixedExample(known: Violation, unknown: Violation, order: map<string, int>)
    requires known == Violation(Some("E"), "R1", "", 0, [], []) && unknown == Violation(None, "R2", "", 0, [], [])
    requires order == map["E" := 2]
    ensures Dedup([known, known, known, unknown], order) == [known, unknown]
  {
    var vs := [known, known, known, unknown];
    MixedPositions(vs, order);
    hide KeyOf, SortedPositions, MergedDocs;
    NoDocuments(vs, KeyOf(vs[0]));
    NoDocuments(vs, KeyOf(vs[3]));
  }

  lemma {:induction false} NoDocuments(vs: seq<Violation>, k: Key)
    requires forall v | v in vs :: v.knowledgeDocumentIds == []
    ensures MergedDocs(vs, k) == []
  {
    hide KeyOf;
    if vs != [] {
      NoDocuments(vs[..|vs| - 1], k);
    }
  }

  /** Mixing known and unknown events breaks idempotence: duplicates shorten the list, and the
      unknown violation then slides in front of the known one. */
  lemma DedupNotIdempotentWhenMixed() returns (vs: seq<Violation>, order: map<string, int>)
    ensures Dedup(Dedup(vs, order), order) != Dedup(vs, order)
  {
    var known := Violation(Some("E"), "R1", "", 0, [], []);
    var unknown := Violation(None, "R2", "", 0, [], []);
    vs := [known, known, known, unknown];
    order := map["E" := 2];
    MixedExample(known, unknown, order);
    assert RankAt([known, unknown], order, 0) == Rank(2, "R1", 0);
    assert RankAt([known, unknown], order, 1) == Rank(1, "R2", 1);
    hide KeyOf, Dedup, MergedDocs, FirstPositions;
    assert !Before([known, unknown], order, Iota(2)[0], Iota(2)[1]);
    StableExactlyInOrder(vs, order);
  }

  // ---------------------------------------------------------------- the score

  function EventById(events: seq<Event>): (m: map<string, Event>)
    ensures forall id :: id in m <==> exists e :: e in events && e.eventId == id
    ensures forall id | id in m :: m[id] in events && m[id].eventId == id
  {
    if events == [] then map[]
    else
      var init, last := events[..|events| - 1], events[|events| - 1];
      assert forall e :: e in events <==> e in init || e == last;
      EventById(init)[last.eventId := last]
  }

  function EventOrder(events: seq<Event>): (m: map<string, int>)
    ensures m.Keys == EventById(events).Keys
    ensures forall id | id in m :: 0 <= m[id] < |events| && events[m[id]].eventId == id
  {
    if events == [] then map[] else EventOrder(events[..|events| - 1])[events[|events| - 1].eventId := |events| - 1]
  }

  /** The penalty one merged violation contributes, or the KeyError it raises. */
  function PenaltyOf(v: Violation, rules: seq<Rule>, at: int, events: seq<Event>): Result<int, KeyError> {
    if GetRule(rules, v.ruleId).None? then Failure(UnknownRule(v.ruleId))
    else if EventRef(v) == "" || EventRef(v) !in EventById(events) then Failure(MissingEvent(EventRef(v)))
    else
      match GetActive(rules, v.ruleId, EventById(events)[EventRef(v)].etype, at)
      case Success(Some(rule)) => Success(rule.penalty)
      case _ => Success(0)
  }

  function TotalPenalty(vs: seq<Violation>, rules: seq<Rule>, at: int, events: seq<Event>): Result<int, KeyError> {
    if vs == [] then Success(0)
    else
      match TotalPenalty(vs[..|vs| - 1], rules, at, events)
      case Failure(e) => Failure(e)
      case Success(sum) =>
        match PenaltyOf(vs[|vs| - 1], rules, at, events)
        case Failure(e) => Failure(e)
        case Success(penalty) => Success(sum + penalty)
  }

  function Score(vs: seq<Violation>, rules: seq<Rule>, at: int, events: seq<Event>): Result<int, KeyError> {
    match TotalPenalty(Dedup(vs, EventOrder(events)), rules, at, events)
    case Failure(e) => Failure(e)
    case Success(sum) => Success(Max(0, 100 - sum))
  }

  method CalculateScore(vs: seq<Violation>, rules: seq<Rule>, at: int, events: seq<Event>)
    returns (r: Result<int, KeyError>)
    ensures r == Score(vs, rules, at, events)
  {
    hide Dedup, PenaltyOf, EventOrder;
    var merged := DeduplicateViolations(vs, EventOrder(events));
    var sum := 0;
    for i := 0 to |merged|
      invariant TotalPenalty(merged[..i], rules, at, events) == Success(sum)
    {
      assert merged[..i + 1][..i] == merged[..i];
      match PenaltyOf(merged[i], rules, at, events)
      case Failure(e) =>
        FailureSpreads(merged, i + 1, rules, at, events);
        return Failure(e);
      case Success(penalty) =>
        sum := sum + penalty;
    }
    assert merged[..|merged|] == merged;
    r := Success(Max(0, 100 - sum));
  }

  lemma {:induction false} FailureSpreads(vs: seq<Violation>, n: nat, rules: seq<Rule>, at: int, events: seq<Event>)
    requires n <= |vs| && TotalPenalty(vs[..n], rules, at, events).Failure?
    ensures TotalPenalty(vs, rules, at, events) == TotalPenalty(vs[..n], rules, at, events)
  {
    if n == |vs| {
      assert vs[..n] == vs;
    } else {
      assert vs[..|vs| - 1][..n] == vs[..n];
      FailureSpreads(vs[..|vs| - 1], n, rules, at, events);
    }
  }

  // ---------------------------------------------------------------- the score as a sum over a set

  /** Every violation names a known rule and an event of this report. */
  ghost predicate Scorable(vs: seq<Violation>, rules: seq<Rule>, events: seq<Event>) {
    forall v | v in vs ::
      GetRule(rules, v.ruleId).Some? && EventRef(v) != "" && EventRef(v) in EventById(events)
  }

  /** What one (event, rule) pair costs: the rule's penalty while the rule is in force. */
  function KeyPenalty(k: Key, rules: seq<Rule>, at: int, events: seq<Event>): int {
    if k.EventKey? && k.eventId in EventById(events) && GetRule(rules, k.ruleId).Some?
       && RuleInForce(GetRule(rules, k.ruleId).value, EventById(events)[k.eventId].etype, at)
    then GetRule(rules, k.ruleId).value.penalty
    else 0
  }

  ghost function PenaltySum(keys: set<Key>, rules: seq<Rule>, at: int, events: seq<Event>): int {
    if keys == {} then 0
    else var k :| k in keys; KeyPenalty(k, rules, at, events) + PenaltySum(keys - {k}, rules, at, events)
  }

  lemma {:induction false} PenaltySumExtract(keys: set<Key>, k: Key, rules: seq<Rule>, at: int, events: seq<Event>)
    requires k in keys
    ensures PenaltySum(keys, rules, at, events)
            == KeyPenalty(k, rules, at, events) + PenaltySum(keys - {k}, rules, at, events)
    decreases |keys|
  {
    hide KeyPenalty;
    var j :| j in keys
      && PenaltySum(keys, rules, at, events)
         == KeyPenalty(j, rules, at, events) + PenaltySum(keys - {j}, rules, at, events);
    if j != k {
      PenaltySumExtract(keys - {j}, k, rules, at, events);
      PenaltySumExtract(keys - {k}, j, rules, at, events);
      assert keys - {j} - {k} == keys - {k} - {j};
    }
  }

  lemma {:induction false} PenaltySumMonotone(less: set<Key>, more: set<Key>, rules: seq<Rule>, at: int,
                                              events: seq<Event>)
    requires less <= more
    requires forall rule | rule in rules :: rule.penalty >= 0
    ensures 0 <= PenaltySum(less, rules, at, events) <= PenaltySum(more, rules, at, events)
    decreases |more|
  {
    if more != {} {
      var k :| k in more;
      PenaltySumExtract(more, k, rules, at, events);
      if k in less {
        PenaltySumExtract(less, k, rules, at, events);
        PenaltySumMonotone(less - {k}, more - {k}, rules, at, events);
      } else {
        PenaltySumMonotone(less, more - {k}, rules, at, events);
      }
    }
  }

  function ListedPenalties(vs: seq<Violation>, rules: seq<Rule>, at: int, events: seq<Event>): int {
    if vs == [] then 0
    else ListedPenalties(vs[..|vs| - 1], rules, at, events) + KeyPenalty(KeyOf(vs[|vs| - 1]), rules, at, events)
  }

  lemma LastKeyIsNew(vs: seq<Violation>)
    requires vs != [] && DistinctKeys(vs)
    ensures var last := KeyOf(vs[|vs| - 1]);
            last in KeysOf(vs) && KeysOf(vs) - {last} == KeysOf(vs[..|vs| - 1])
  {
    hide KeyOf;
    var init, last := vs[..|vs| - 1], vs[|vs| - 1];
    assert vs == init + [last];
    assert last in vs;
    forall v | v in init
      ensures KeyOf(v) != KeyOf(last)
    {
      var i :| 0 <= i < |init| && init[i] == v;
    }
  }

  lemma {:induction false} DistinctListSumsItsKeys(vs: seq<Violation>, rules: seq<Rule>, at: int, events: seq<Event>)
    requires DistinctKeys(vs)
    ensures PenaltySum(KeysOf(vs), rules, at, events) == ListedPenalties(vs, rules, at, events)
  {
    hide KeyOf, KeyPenalty;
    if vs != [] {
      var init, last := vs[..|vs| - 1], vs[|vs| - 1];
      DistinctListSumsItsKeys(init, rules, at, events);
      LastKeyIsNew(vs);
      PenaltySumExtract(KeysOf(vs), KeyOf(last), rules, at, events);
    }
  }

  lemma {:induction false} TotalPenaltyIsListed(vs: seq<Violation>, rules: seq<Rule>, at: int, events: seq<Event>)
    ensures TotalPenalty(vs, rules, at, events).Success? <==> Scorable(vs, rules, events)
    ensures Scorable(vs, rules, events) ==>
              TotalPenalty(vs, rules, at, events).value == ListedPenalties(vs, rules, at, events)
  {
    hide GetRule, EventById;
    if vs != [] {
      var init, last := vs[..|vs| - 1], vs[|vs| - 1];
      TotalPenaltyIsListed(init, rules, at, events);
      assert vs == init + [last];
    }
  }

  lemma ScorableByKeys(vs: seq<Violation>, ws: seq<Violation>, rules: seq<Rule>, events: seq<Event>)
    requires KeysOf(vs) <= KeysOf(ws) && Scorable(ws, rules, events)
    ensures Scorable(vs, rules, events)
  {
    hide GetRule, EventById;
    forall v | v in vs
      ensures GetRule(rules, v.ruleId).Some? && EventRef(v) != "" && EventRef(v) in EventById(events)
    {
      assert KeyOf(v) in KeysOf(ws);
      var w :| w in ws && KeyOf(w) == KeyOf(v);
    }
  }

  /** `calculate_score` succeeds exactly on scorable lists, and its value is the clamped sum over the
      SET of distinct (event, rule) pairs. */
  lemma ScoreIsSetSum(vs: seq<Violation>, rules: seq<Rule>, at: int, events: seq<Event>)
    ensures Score(vs, rules, at, events).Success? <==> Scorable(vs, rules, events)
    ensures Scorable(vs, rules, events) ==>
              Score(vs, rules, at, events) == Success(Max(0, 100 - PenaltySum(KeysOf(vs), rules, at, events)))
  {
    hide KeyOf, GetRule, EventById, EventOrder, KeyPenalty, Dedup, Scorable, FirstPositions, TotalPenalty, PenaltySum;
    var out := Dedup(vs, EventOrder(events));
    DedupKeepsKeys(vs, EventOrder(events));
    TotalPenaltyIsListed(out, rules, at, events);
    DistinctListSumsItsKeys(out, rules, at, events);
    if Scorable(out, rules, events) {
      ScorableByKeys(vs, out, rules, events);
    }
    if Scorable(vs, rules, events) {
      ScorableByKeys(out, vs, rules, events);
    }
  }

  /** Permuting, repeating or re-documenting violations never changes the score. */
  lemma ScoreDependsOnKeysOnly(vs: seq<Violation>, ws: seq<Violation>, rules: seq<Rule>, at: int, events: seq<Event>)
    requires KeysOf(vs) == KeysOf(ws)
    requires Score(vs, rules, at, events).Success?
    ensures Score(ws, rules, at, events) == Score(vs, rules, at, events)
  {
    hide Score, Scorable;
    ScoreIsSetSum(vs, rules, at, events);
    ScoreIsSetSum(ws, rules, at, events);
    ScorableByKeys(ws, vs, rules, events);
  }

  /** With non-negative penalties, more violations never raise the score and it stays in 0..100. */
  lemma ScoreIsAntitone(vs: seq<Violation>, ws: seq<Violation>, rules: seq<Rule>, at: int, events: seq<Event>)
    requires KeysOf(vs) <= KeysOf(ws)
    requires forall rule | rule in rules :: rule.penalty >= 0
    requires Score(ws, rules, at, events).Success?
    ensures Score(vs, rules, at, events).Success?
    ensures 0 <= Score(ws, rules, at, events).value <= Score(vs, rules, at, events).value <= 100
  {
    hide Score, Scorable;
    ScoreIsSetSum(vs, rules, at, events);
    ScoreIsSetSum(ws, rules, at, events);
    ScorableByKeys(vs, ws, rules, events);
    PenaltySumMonotone(KeysOf(vs), KeysOf(ws), rules, at, events);
  }
}
