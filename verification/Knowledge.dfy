/** The knowledge index (qc/rag.py): loading and cutting documents, hybrid search, and which document a hit speaks for.
    Ranked rows are resolved by chunk id, where the last document that carries the id wins. */
module Knowledge {
  import opened Common
  import opened Rules
  import opened Reports
  import opened ChunkIds

  /** The `eventType` of a document: no such key, a text that names no event type, or an event type. */
  datatype Topic = Untyped | Foreign | Of(etype: EventType)

  /** The `effectiveFrom` of a document: no such key, a text that is no instant, or an instant. */
  datatype Start = Absent | Unreadable | Starts(instant: int)

  /** A document of the index; `status` is None where the key is missing. */
  datatype Document = Document(
    documentId: string, category: string, content: string, status: Option<string>, topic: Topic,
    from: Start, until: Until, relatedRuleIds: seq<string>)

  /** An entry of the rule file: the rule, and the text it is indexed with. */
  datatype RuleEntry = RuleEntry(rule: Rule, text: string)

  /** A part of a document: `of` is the document with that part as its content. */
  datatype Chunk = Chunk(chunkId: string, of: Document)

  const MAX_CHARS := 800

  // ---------------------------------------------------------------- loading

  function Filing(entry: RuleEntry, etype: EventType): Document {
    Document(entry.rule.ruleId, "RULE", entry.text, None, Of(etype), Starts(entry.rule.effectiveFrom),
             if entry.rule.effectiveTo.None? then Open else Ends(entry.rule.effectiveTo.value), [entry.rule.ruleId])
  }

  /** A rule is filed once under each of its event types. */
  function Filings(entry: RuleEntry): (r: seq<Document>)
    ensures |r| == |entry.rule.eventTypes|
  {
    seq(|entry.rule.eventTypes|, k requires 0 <= k < |entry.rule.eventTypes| =>
        Filing(entry, entry.rule.eventTypes[k]))
  }

  function AllFilings(entries: seq<RuleEntry>): seq<Document> {
    if entries == [] then [] else AllFilings(entries[..|entries| - 1]) + Filings(entries[|entries| - 1])
  }

  /** The rules that name the document as their source. */
  function RulesFrom(entries: seq<RuleEntry>, documentId: string): seq<string> {
    if entries == [] then []
    else
      var last := entries[|entries| - 1].rule;
      RulesFrom(entries[..|entries| - 1], documentId)
      + if last.sourceDocumentId == documentId then [last.ruleId] else []
  }

  function Completed(d: Document, entries: seq<RuleEntry>): Document {
    var related := RulesFrom(entries, d.documentId);
    d.(relatedRuleIds := if related != [] then related else d.relatedRuleIds,
       status := Some(if d.status.Some? then d.status.value else "published"))
  }

  /** The policies and cases, then the filings of every rule. */
  function Loaded(given: seq<Document>, entries: seq<RuleEntry>): (r: seq<Document>)
    ensures |r| == |given| + |AllFilings(entries)|
  {
    var all := given + AllFilings(entries);
    seq(|all|, i requires 0 <= i < |all| => Completed(all[i], entries))
  }

  /** `_load_documents`, for policies and cases already read. */
  method LoadDocuments(given: seq<Document>, entries: seq<RuleEntry>) returns (documents: seq<Document>)
    ensures documents == Loaded(given, entries)
  {
    hide RulesFrom;
    var loaded := given;
    var sourceRuleIds: map<string, seq<string>> := map[];
    NoRules();
    assert entries[..0] == [] && AllFilings([]) == [];
    for n := 0 to |entries|
      invariant loaded == given + AllFilings(entries[..n])
      invariant KnowsRules(sourceRuleIds, entries[..n])
    {
      var source := entries[n].rule.sourceDocumentId;
      OneMoreRule(entries, n, sourceRuleIds);
      var known := if source in sourceRuleIds then sourceRuleIds[source] else [];
      sourceRuleIds := sourceRuleIds[source := known + [entries[n].rule.ruleId]];
      var filings := FileRule(entries[n]);
      assert entries[..n + 1][..n] == entries[..n];
      loaded := loaded + filings;
    }
    assert entries[..|entries|] == entries;
    documents := CompleteDocuments(loaded, entries, sourceRuleIds);
  }

  method FileRule(entry: RuleEntry) returns (filings: seq<Document>)
    ensures filings == Filings(entry)
  {
    filings := [];
    for k := 0 to |entry.rule.eventTypes|
      invariant filings == Filings(entry)[..k]
    {
      filings := filings + [Filing(entry, entry.rule.eventTypes[k])];
    }
  }

  /** The dictionary of rule ids per source document. */
  ghost predicate KnowsRules(sourceRuleIds: map<string, seq<string>>, entries: seq<RuleEntry>) {
    forall id :: RulesFrom(entries, id) == if id in sourceRuleIds then sourceRuleIds[id] else []
  }

  method CompleteDocuments(loaded: seq<Document>, entries: seq<RuleEntry>, sourceRuleIds: map<string, seq<string>>)
    returns (documents: seq<Document>)
    requires KnowsRules(sourceRuleIds, entries)
    ensures |documents| == |loaded| && forall j | 0 <= j < |loaded| :: documents[j] == Completed(loaded[j], entries)
  {
    hide RulesFrom;
    documents := [];
    for i := 0 to |loaded|
      invariant |documents| == i && forall j | 0 <= j < i :: documents[j] == Completed(loaded[j], entries)
    {
      var document := loaded[i];
      if document.documentId in sourceRuleIds && sourceRuleIds[document.documentId] != [] {
        document := document.(relatedRuleIds := sourceRuleIds[document.documentId]);
      }
      if document.status.None? {
        document := document.(status := Some("published"));
      }
      documents := documents + [document];
    }
  }

  lemma NoRules()
    ensures KnowsRules(map[], [])
  {
  }

  lemma OneMoreRule(entries: seq<RuleEntry>, n: nat, sourceRuleIds: map<string, seq<string>>)
    requires n < |entries| && KnowsRules(sourceRuleIds, entries[..n])
    ensures var source := entries[n].rule.sourceDocumentId;
            var known := if source in sourceRuleIds then sourceRuleIds[source] else [];
            KnowsRules(sourceRuleIds[source := known + [entries[n].rule.ruleId]], entries[..n + 1])
  {
    assert entries[..n + 1][..n] == entries[..n];
  }

  // ---------------------------------------------------------------- cutting

  /** The whitespace that `str.strip` removes. */
  predicate Blank(c: char) {
    || '\t' <= c <= '\r' || '\U{1c}' <= c <= ' ' || c == '\U{85}' || c == '\U{a0}' || c == '\U{1680}'
    || '\U{2000}' <= c <= '\U{200a}' || c == '\U{2028}' || c == '\U{2029}' || c == '\U{202f}' || c == '\U{205f}'
    || c == '\U{3000}'
  }

  function Stripped(text: string): string {
    if text == [] then []
    else if Blank(text[0]) then Stripped(text[1..])
    else if Blank(text[|text| - 1]) then Stripped(text[..|text| - 1])
    else text
  }

  function Cut(text: string): (parts: seq<string>)
    ensures |parts| >= 1
  {
    if |text| <= MAX_CHARS then [text] else [text[..MAX_CHARS]] + Cut(text[MAX_CHARS..])
  }

  function PartsOf(d: Document): (parts: seq<string>)
    ensures |parts| >= 1
  {
    Cut(Stripped(d.content))
  }

  function ChunkOf(d: Document, n: nat): Chunk
    requires n < |PartsOf(d)|
  {
    Chunk(ChunkId(d.documentId, n), d.(content := PartsOf(d)[n]))
  }

  /** `StructuredChunker.chunk`. */
  function ChunksOf(d: Document): (r: seq<Chunk>)
    ensures |r| == |PartsOf(d)| >= 1
  {
    seq(|PartsOf(d)|, n requires 0 <= n < |PartsOf(d)| => ChunkOf(d, n))
  }

  function Chunked(documents: seq<Document>): seq<Chunk> {
    if documents == [] then [] else Chunked(documents[..|documents| - 1]) + ChunksOf(documents[|documents| - 1])
  }

  // ---------------------------------------------------------------- resolution

  /** The last chunk that carries the id. */
  function Resolve(chunks: seq<Chunk>, id: string): (r: Option<Chunk>)
    ensures r.Some? ==> r.value in chunks && r.value.chunkId == id
    ensures r.None? <==> forall c | c in chunks :: c.chunkId != id
  {
    if chunks == [] then None
    else
      var init, last := chunks[..|chunks| - 1], chunks[|chunks| - 1];
      assert chunks == init + [last];
      if last.chunkId == id then Some(last) else Resolve(init, id)
  }

  /** The dictionary from chunk ids to chunks: later ones replace earlier ones. */
  method ById(chunks: seq<Chunk>) returns (m: map<string, Chunk>)
    ensures forall id :: Resolve(chunks, id) == if id in m then Some(m[id]) else None
  {
    m := map[];
    assert chunks[..0] == [];
    for n := 0 to |chunks|
      invariant forall id :: Resolve(chunks[..n], id) == if id in m then Some(m[id]) else None
    {
      assert chunks[..n + 1][..n] == chunks[..n];
      m := m[chunks[n].chunkId := chunks[n]];
    }
    assert chunks[..|chunks|] == chunks;
  }

  /** A chunk that searches can return: it is what its own id resolves to. */
  predicate Served(chunks: seq<Chunk>, c: Chunk) {
    Resolve(chunks, c.chunkId) == Some(c)
  }

  /** A document that some chunk id resolves to: no later document of its id has as many parts. */
  ghost predicate Visible(documents: seq<Document>, p: nat) {
    && p < |documents|
    && forall q: nat | p < q < |documents| && documents[q].documentId == documents[p].documentId ::
         |PartsOf(documents[q])| < |PartsOf(documents[p])|
  }

  lemma {:induction false} ResolveAppend(a: seq<Chunk>, b: seq<Chunk>, id: string)
    ensures Resolve(a + b, id) == if Resolve(b, id).Some? then Resolve(b, id) else Resolve(a, id)
  {
    if b == [] {
      assert a + b == a;
    } else {
      assert (a + b)[..|a + b| - 1] == a + b[..|b| - 1];
      ResolveAppend(a, b[..|b| - 1], id);
    }
  }

  /** Within one document every part has its own id. */
  lemma ResolveInDocument(d: Document, id: string, n: nat)
    ensures Resolve(ChunksOf(d), ChunkId(id, n))
         == if d.documentId == id && n < |PartsOf(d)| then Some(ChunkOf(d, n)) else None
  {
    hide PartsOf, ChunkId;
    var chunks, r := ChunksOf(d), Resolve(ChunksOf(d), ChunkId(id, n));
    if r.Some? {
      var k :| 0 <= k < |chunks| && chunks[k] == r.value;
      ChunkIdsDiffer(d.documentId, k, id, n);
    } else if d.documentId == id && n < |PartsOf(d)| {
      assert chunks[n] in chunks;
    }
  }

  /** Document `p` is the last of its id with a part `n`. */
  ghost predicate Holder(documents: seq<Document>, id: string, n: nat, p: nat) {
    && p < |documents| && documents[p].documentId == id && n < |PartsOf(documents[p])|
    && forall q: nat | p < q < |documents| && documents[q].documentId == id :: |PartsOf(documents[q])| <= n
  }

  /** What an id resolves to: the part of the last document of that document id that is long enough. */
  lemma {:induction false} ResolveIs(documents: seq<Document>, id: string, n: nat)
    ensures Resolve(Chunked(documents), ChunkId(id, n)).None? ==>
              forall d | d in documents && d.documentId == id :: |PartsOf(d)| <= n
    ensures Resolve(Chunked(documents), ChunkId(id, n)).Some? ==>
              exists p: nat :: Holder(documents, id, n, p)
                && Resolve(Chunked(documents), ChunkId(id, n)).value == ChunkOf(documents[p], n)
  {
    hide PartsOf, ChunkId, ChunkOf, ChunksOf, Resolve;
    if documents == [] {
      assert Chunked(documents) == [];
      assert Resolve([], ChunkId(id, n)).None?;
    } else {
      var init, last := documents[..|documents| - 1], documents[|documents| - 1];
      assert documents == init + [last];
      ResolveIs(init, id, n);
      ResolveInDocument(last, id, n);
      ResolveAppend(Chunked(init), ChunksOf(last), ChunkId(id, n));
      assert Chunked(documents) == Chunked(init) + ChunksOf(last);
      hide Chunked;
      if last.documentId == id && n < |PartsOf(last)| {
        LastHolds(init, last, id, n);
        assert documents[|init|] == last;
      } else if Resolve(Chunked(init), ChunkId(id, n)).Some? {
        var p: nat :| Holder(init, id, n, p)
                      && Resolve(Chunked(init), ChunkId(id, n)).value == ChunkOf(init[p], n);
        StillHolds(init, last, id, n, p);
      }
    }
  }

  lemma LastHolds(init: seq<Document>, last: Document, id: string, n: nat)
    requires last.documentId == id && n < |PartsOf(last)|
    ensures Holder(init + [last], id, n, |init|)
  {
    hide PartsOf;
  }

  lemma StillHolds(init: seq<Document>, last: Document, id: string, n: nat, p: nat)
    requires Holder(init, id, n, p) && !(last.documentId == id && n < |PartsOf(last)|)
    ensures Holder(init + [last], id, n, p) && (init + [last])[p] == init[p]
  {
    hide PartsOf;
  }

  lemma {:induction false} ChunkComesFrom(documents: seq<Document>, c: Chunk) returns (p: nat, n: nat)
    requires c in Chunked(documents)
    ensures p < |documents| && n < |PartsOf(documents[p])| && c == ChunkOf(documents[p], n)
  {
    hide PartsOf, ChunkId;
    var init, last := documents[..|documents| - 1], documents[|documents| - 1];
    if c in ChunksOf(last) {
      n :| 0 <= n < |ChunksOf(last)| && ChunksOf(last)[n] == c;
      p := |init|;
    } else {
      p, n := ChunkComesFrom(init, c);
    }
  }

  /** A served chunk is a part of a visible document. */
  lemma ServedIsVisible(documents: seq<Document>, c: Chunk) returns (p: nat)
    requires Served(Chunked(documents), c)
    ensures Visible(documents, p)
    ensures c.of == documents[p].(content := c.of.content)
  {
    hide PartsOf, ChunkId, Chunked, Resolve;
    var p', n := ChunkComesFrom(documents, c);
    var id := documents[p'].documentId;
    ResolveIs(documents, id, n);
    p :| Holder(documents, id, n, p) && c == ChunkOf(documents[p], n);
  }

  /** The last part of a visible document is served. */
  lemma VisibleIsServed(documents: seq<Document>, p: nat) returns (c: Chunk)
    requires Visible(documents, p)
    ensures Served(Chunked(documents), c) && c.of == documents[p].(content := c.of.content)
  {
    hide PartsOf, ChunkId, Chunked, Resolve;
    var n := |PartsOf(documents[p])| - 1;
    ResolveIs(documents, documents[p].documentId, n);
    assert documents[p] in documents;
    c := Resolve(Chunked(documents), ChunkId(documents[p].documentId, n)).value;
    var q: nat :| Holder(documents, documents[p].documentId, n, q) && c == ChunkOf(documents[q], n);
    assert q == p;
  }

  // ---------------------------------------------------------------- when a document id fixes the metadata

  function MetadataOf(d: Document): Metadata {
    Metadata(d.status, if d.topic.Of? then Some(d.topic.etype) else None,
             if d.from.Starts? then Some(d.from.instant) else None, d.until, d.relatedRuleIds, [])
  }

  ghost predicate ServedAgree(chunks: seq<Chunk>) {
    forall a, b | Served(chunks, a) && Served(chunks, b) && a.of.documentId == b.of.documentId ::
      MetadataOf(a.of) == MetadataOf(b.of)
  }

  ghost predicate VisibleAgree(documents: seq<Document>) {
    forall p: nat, q: nat | Visible(documents, p) && Visible(documents, q)
                            && documents[p].documentId == documents[q].documentId ::
      MetadataOf(documents[p]) == MetadataOf(documents[q])
  }

  /** For every index: a document id fixes the metadata of what searches can return exactly when the visible documents
      of the same id agree. */
  lemma MetadataFixedExactly(documents: seq<Document>)
    ensures ServedAgree(Chunked(documents)) <==> VisibleAgree(documents)
  {
    hide Visible, Chunked, Served;
    if VisibleAgree(documents) {
      forall a, b | Served(Chunked(documents), a) && Served(Chunked(documents), b) && a.of.documentId == b.of.documentId
        ensures MetadataOf(a.of) == MetadataOf(b.of)
      {
        var p := ServedIsVisible(documents, a);
        var q := ServedIsVisible(documents, b);
        VisibleInRange(documents, p);
        VisibleInRange(documents, q);
      }
    }
    if ServedAgree(Chunked(documents)) {
      forall p: nat, q: nat | Visible(documents, p) && Visible(documents, q)
        ensures p < |documents| && q < |documents|
        ensures documents[p].documentId == documents[q].documentId ==>
                  MetadataOf(documents[p]) == MetadataOf(documents[q])
      {
        VisibleInRange(documents, p);
        VisibleInRange(documents, q);
        var a := VisibleIsServed(documents, p);
        var b := VisibleIsServed(documents, q);
      }
    }
  }

  lemma VisibleInRange(documents: seq<Document>, p: nat)
    requires Visible(documents, p)
    ensures p < |documents|
  {
  }

  /** Documents that share an id are cut into equally many chunks. */
  ghost predicate SharersAreAlike(documents: seq<Document>) {
    forall p: nat, q: nat | p < q < |documents| && documents[p].documentId == documents[q].documentId ::
      |PartsOf(documents[p])| == |PartsOf(documents[q])|
  }

  /** Then only the last document of an id is ever returned. */
  lemma AlikeAgree(documents: seq<Document>)
    requires SharersAreAlike(documents)
    ensures VisibleAgree(documents)
    ensures forall p: nat, q: nat | Visible(documents, p) && p < q < |documents| ::
              documents[q].documentId != documents[p].documentId
  {
    hide PartsOf;
  }

  /** Chunk ids are unique exactly when document ids are. */
  lemma {:induction false} ChunkIdsAreUniqueExactly(documents: seq<Document>)
    ensures (forall i, j | 0 <= i < j < |Chunked(documents)| ::
               Chunked(documents)[i].chunkId != Chunked(documents)[j].chunkId)
            <==> forall p, q | 0 <= p < q < |documents| :: documents[p].documentId != documents[q].documentId
  {
    hide PartsOf, ChunkId;
    if documents != [] {
      var init, last := documents[..|documents| - 1], documents[|documents| - 1];
      assert documents == init + [last];
      ChunkIdsAreUniqueExactly(init);
      UniqueWithLast(init, last);
      assert Chunked(documents) == Chunked(init) + ChunksOf(last);
      assert forall p | 0 <= p < |init| :: documents[p] == init[p];
      assert forall p | 0 <= p < |init| :: init[p] in init;
      hide Chunked, ChunksOf;
    }
  }

  lemma UniqueWithLast(init: seq<Document>, last: Document)
    ensures var a: seq<Chunk>, b: seq<Chunk> := Chunked(init), ChunksOf(last);
            (forall i, j | 0 <= i < j < |a + b| :: (a + b)[i].chunkId != (a + b)[j].chunkId)
            <==> (forall i, j | 0 <= i < j < |a| :: a[i].chunkId != a[j].chunkId)
                 && forall d | d in init :: d.documentId != last.documentId
  {
    hide PartsOf, ChunkId;
    var a: seq<Chunk>, b: seq<Chunk> := Chunked(init), ChunksOf(last);
    forall i, j | 0 <= i < j < |b| && b[i].chunkId == b[j].chunkId
      ensures false
    {
      ChunkIdsDiffer(last.documentId, i, last.documentId, j);
    }
    forall i, j | 0 <= i < |a| && 0 <= j < |b| && a[i].chunkId == b[j].chunkId
      ensures exists d :: d in init && d.documentId == last.documentId
    {
      var p, n := ChunkComesFrom(init, a[i]);
      ChunkIdsDiffer(init[p].documentId, n, last.documentId, j);
    }
    forall d | d in init && d.documentId == last.documentId
      ensures exists i :: 0 <= i < |a| && a[i].chunkId == b[0].chunkId
    {
      ResolveIs(init, d.documentId, 0);
    }
    assert forall i | 0 <= i < |a| :: (a + b)[i] == a[i];
    assert forall j | 0 <= j < |b| :: (a + b)[|a| + j] == b[j];
  }

  // ---------------------------------------------------------------- hits

  function Clamp(x: real): (r: real)
    ensures 0.0 <= r <= 1.0 && (0.0 <= x <= 1.0 ==> r == x)
  {
    if x < 0.0 then 0.0 else if x > 1.0 then 1.0 else x
  }

  function HitOf(c: Chunk, score: real): Hit {
    Hit(c.of.documentId, Clamp(score), MetadataOf(c.of))
  }

  // ---------------------------------------------------------------- rules of several event types

  function FilingPosition(given: seq<Document>, entries: seq<RuleEntry>, e: nat, k: nat): nat
    requires e < |entries|
  {
    |given| + |AllFilings(entries[..e])| + k
  }

  lemma {:induction false} FilingAt(given: seq<Document>, entries: seq<RuleEntry>, e: nat, k: nat)
    requires e < |entries| && k < |entries[e].rule.eventTypes|
    ensures FilingPosition(given, entries, e, k) < |given| + |AllFilings(entries)|
    ensures (given + AllFilings(entries))[FilingPosition(given, entries, e, k)]
         == Filing(entries[e], entries[e].rule.eventTypes[k])
  {
    var init := entries[..|entries| - 1];
    if e < |init| {
      FilingAt(given, init, e, k);
      assert init[..e] == entries[..e];
    } else {
      assert entries[..e] == init;
    }
  }

  lemma {:induction false} FilingOf(entries: seq<RuleEntry>, p: nat) returns (e: nat, k: nat)
    requires p < |AllFilings(entries)|
    ensures e < |entries| && k < |entries[e].rule.eventTypes| && p == |AllFilings(entries[..e])| + k
    ensures AllFilings(entries)[p] == Filing(entries[e], entries[e].rule.eventTypes[k])
  {
    var init, last := entries[..|entries| - 1], entries[|entries| - 1];
    if p < |AllFilings(init)| {
      e, k := FilingOf(init, p);
      assert init[..e] == entries[..e];
    } else {
      e, k := |init|, p - |AllFilings(init)|;
      assert entries[..e] == init;
    }
  }

  /** For every index: no search returns a filing of a rule under an event type other than the last one listed. */
  lemma EarlierFilingsAreHidden(given: seq<Document>, entries: seq<RuleEntry>, e: nat, k: nat)
    requires e < |entries| && k + 1 < |entries[e].rule.eventTypes|
    ensures !Visible(Loaded(given, entries), FilingPosition(given, entries, e, k))
  {
    hide PartsOf, AllFilings;
    FilingAt(given, entries, e, k);
    FilingAt(given, entries, e, k + 1);
    var documents, p := Loaded(given, entries), FilingPosition(given, entries, e, k);
    SameText(documents[p], documents[p + 1]);
  }

  lemma SameText(a: Document, b: Document)
    requires a.content == b.content
    ensures PartsOf(a) == PartsOf(b)
  {
  }

  /** No other entry and no policy or case has the id of this rule. */
  ghost predicate SoleEntry(given: seq<Document>, entries: seq<RuleEntry>, e: nat) {
    && e < |entries|
    && (forall d | d in given :: d.documentId != entries[e].rule.ruleId)
    && forall f: nat | f < |entries| && f != e :: entries[f].rule.ruleId != entries[e].rule.ruleId
  }

  lemma SoleFiling(given: seq<Document>, entries: seq<RuleEntry>, e: nat, p: nat) returns (k: nat)
    requires SoleEntry(given, entries, e) && p < |Loaded(given, entries)|
    requires Loaded(given, entries)[p].documentId == entries[e].rule.ruleId
    ensures k < |entries[e].rule.eventTypes| && p == FilingPosition(given, entries, e, k)
    ensures Loaded(given, entries)[p] == Completed(Filing(entries[e], entries[e].rule.eventTypes[k]), entries)
  {
    hide AllFilings, RulesFrom;
    var all := given + AllFilings(entries);
    assert all[p].documentId == entries[e].rule.ruleId;
    assert forall i | 0 <= i < |given| :: all[i] in given;
    var f: nat;
    f, k := FilingOf(entries, p - |given|);
  }

  predicate InForceAt(rule: Rule, at: int) {
    rule.effectiveFrom <= at && (rule.effectiveTo.Some? ==> at < rule.effectiveTo.value)
  }

  /** A rule with an id of its own is returned only as filed under its last event type; so its own text can back that
      type, in the rule's time, and no other. */
  lemma RuleBacksExactlyItsLastType(given: seq<Document>, entries: seq<RuleEntry>, e: nat, c: Chunk, score: real)
    requires SoleEntry(given, entries, e) && Served(Chunked(Loaded(given, entries)), c)
    requires c.of.documentId == entries[e].rule.ruleId
    ensures var rule, h := entries[e].rule, HitOf(c, score);
            && rule.eventTypes != [] && h.metadata.eventType == Some(rule.eventTypes[|rule.eventTypes| - 1])
            && forall etype, at, minimum :: Backs(h, etype, rule, at, minimum)
                 <==> etype == rule.eventTypes[|rule.eventTypes| - 1] && InForceAt(rule, at) && h.score >= minimum
  {
    hide AllFilings, RulesFrom, PartsOf, Chunked, Resolve, Visible;
    var p := ServedIsVisible(Loaded(given, entries), c);
    VisibleInRange(Loaded(given, entries), p);
    var k := SoleFiling(given, entries, e, p);
    if k + 1 < |entries[e].rule.eventTypes| {
      EarlierFilingsAreHidden(given, entries, e, k);
    }
  }

  /** Policies, cases and rules all have ids of their own, as the shipped ones do. */
  ghost predicate DistinctIds(given: seq<Document>, entries: seq<RuleEntry>) {
    && (forall i, j | 0 <= i < j < |given| :: given[i].documentId != given[j].documentId)
    && forall e: nat | e < |entries| :: SoleEntry(given, entries, e)
  }

  /** Then filing rules under several event types does no harm: an id still fixes the metadata. */
  lemma DistinctIdsAgree(given: seq<Document>, entries: seq<RuleEntry>)
    requires DistinctIds(given, entries)
    ensures VisibleAgree(Loaded(given, entries))
  {
    hide PartsOf, VisibleAgree, AllFilings, RulesFrom, SoleEntry;
    var documents := Loaded(given, entries);
    forall p: nat, q: nat | p < q < |documents| && documents[p].documentId == documents[q].documentId
      ensures |PartsOf(documents[p])| == |PartsOf(documents[q])|
    {
      SharersAreFilings(given, entries, p, q);
    }
    AlikeAgree(documents);
  }

  lemma SharersAreFilings(given: seq<Document>, entries: seq<RuleEntry>, p: nat, q: nat)
    requires DistinctIds(given, entries) && p < q < |Loaded(given, entries)|
    requires Loaded(given, entries)[p].documentId == Loaded(given, entries)[q].documentId
    ensures |PartsOf(Loaded(given, entries)[p])| == |PartsOf(Loaded(given, entries)[q])|
  {
    hide PartsOf, AllFilings, RulesFrom, SoleEntry;
    var documents := Loaded(given, entries);
    assert forall i | 0 <= i < |given| :: documents[i].documentId == given[i].documentId;
    var e, k := FilingOf(entries, q - |given|);
    assert SoleEntry(given, entries, e);
    var k' := SoleFiling(given, entries, e, p);
    SameText(documents[p], documents[q]);
  }
}
