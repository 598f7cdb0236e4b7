/** The `knowledge_edges` table: `create_knowledge_edges` links a new memory
    to the user's most similar earlier memories, and
    `get_connected_memories` follows those links one hop and projects the
    memories reached to (date, text). */
module KnowledgeEdges {
  import opened Wrappers
  import opened PyValues
  import opened IsoDate
  import opened Sorting
  import opened VectorStore
  import opened RelationTypes

  /** `SIMILARITY_THRESHOLD`: no edge scores below it. */
  const SimilarityThreshold: real := 0.8

  /** `get_relation_type` and stand-ins for it. */
  type Relate = (Record, Record) -> Result<seq<string>>

  datatype Edge = Edge(userId: string, sourceId: nat, targetId: nat, score: real,
                       relationType: seq<string>)

  /** The `existing` query: an edge for the triple is already stored. */
  predicate HasEdge(edges: seq<Edge>, userId: string, sourceId: nat, targetId: nat) {
    exists e :: e in edges && e.userId == userId && e.sourceId == sourceId && e.targetId == targetId
  }

  predicate NoDuplicateTriples(edges: seq<Edge>) {
    forall i, j :: 0 <= i < j < |edges| ==>
      !(edges[i].userId == edges[j].userId && edges[i].sourceId == edges[j].sourceId &&
        edges[i].targetId == edges[j].targetId)
  }

  /** The rows the first query selects: the user's memories other than the
      source, in table order. */
  function Others(rows: seq<Row>, userId: string, sourceId: nat): (r: seq<Row>)
    ensures forall m :: m in r <==> m in rows && m.userId == userId && m.id != sourceId
  {
    if rows == [] then []
    else
      (if rows[0].userId == userId && rows[0].id != sourceId then [rows[0]] else []) +
      Others(rows[1..], userId, sourceId)
  }

  /** `json.loads(mem["embedding"])` raises when the embedding is missing. */
  predicate EmbeddingsPresent(ms: seq<Row>) {
    forall i :: 0 <= i < |ms| ==> ms[i].embedding.Some?
  }

  /** The `scored` list: every candidate whose similarity to the source
      reaches the threshold, keyed by that similarity, in input order. */
  function Scored(ms: seq<Row>, sourceId: nat, sourceEmbedding: seq<real>,
                  sim: (seq<real>, seq<real>) -> real): (r: seq<Keyed<Row>>)
    ensures forall x :: x in r ==>
      x.item in ms && x.item.embedding.Some? && x.key == sim(sourceEmbedding, x.item.embedding.value) &&
      x.key >= SimilarityThreshold && x.item.id != sourceId
    ensures |r| <= |ms|
    decreases |ms|
  {
    if ms == [] then []
    else
      var m := ms[|ms| - 1];
      var prev := Scored(ms[..|ms| - 1], sourceId, sourceEmbedding, sim);
      if m.embedding.Some? && sim(sourceEmbedding, m.embedding.value) >= SimilarityThreshold && m.id != sourceId
      then prev + [Keyed(sim(sourceEmbedding, m.embedding.value), m)]
      else prev
  }

  /** `scored.sort(key=score, reverse=True)[:top_k]` */
  function Top(scored: seq<Keyed<Row>>, topK: int): seq<Keyed<Row>> {
    SliceTo(Sort(scored, true), topK)
  }

  /** The metadata of a target row as the builder reads it: a dict as is,
      JSON text decoded to whatever value it holds, any other non-text
      value as {}; text that is not JSON makes `json.loads` raise. */
  function TargetMeta(md: Metadata): (r: Result<Value>)
    ensures md.MetaDict? || md.MetaJson? ==> r == Ok(VDict(md.d))
    ensures md.MetaJsonOther? ==> r == Ok(md.v)
    ensures md.MetaOther? && md.v.VDict? ==> r == Ok(md.v)
    ensures md.MetaOther? && !md.v.VDict? && !md.v.VStr? ==> r == Ok(VDict(map[]))
    ensures r.Err? <==> md.MetaOther? && md.v.VStr?
  {
    match md
    case MetaDict(d) => Ok(VDict(d))
    case MetaJson(d) => Ok(VDict(d))
    case MetaJsonOther(v) => Ok(v)
    case MetaOther(v) =>
      if v.VStr? then Err(ValueError)
      else if v.VDict? then Ok(v)
      else Ok(VDict(map[]))
  }

  /** One pass of the insert loop: `Ok(None)` skips an existing triple,
      `Ok(Some(e))` inserts `e`; `failAt` is the pass in which a database
      call raises, if any. `get_relation_type` calls `.get` on the target
      metadata (at the latest in the `emotionally_linked` rule), so a
      decoded value that is not a dict raises AttributeError there. */
  function EdgeStep(current: seq<Edge>, userId: string, sourceId: nat, sourceMeta: Record,
                    relate: Relate, t: Keyed<Row>, k: nat, failAt: Option<nat>): (r: Result<Option<Edge>>)
    ensures r.Ok? && r.value.Some? ==>
      r.value.value == Edge(userId, sourceId, t.item.id, t.key, r.value.value.relationType) &&
      !HasEdge(current, userId, sourceId, t.item.id) &&
      TargetMeta(t.item.metadata).Ok? && TargetMeta(t.item.metadata).value.VDict? &&
      relate(sourceMeta, TargetMeta(t.item.metadata).value.entries) == Ok(r.value.value.relationType)
    ensures (TargetMeta(t.item.metadata).Ok? && failAt != Some(k) && !HasEdge(current, userId, sourceId, t.item.id) &&
             !TargetMeta(t.item.metadata).value.VDict?) ==> r == Err(AttributeError)
    ensures r == Ok(None) <==>
      TargetMeta(t.item.metadata).Ok? && failAt != Some(k) && HasEdge(current, userId, sourceId, t.item.id)
  {
    match TargetMeta(t.item.metadata)
    case Err(e) => Err(e)
    case Ok(meta) =>
      if failAt == Some(k) then Err(TransportError)
      else if HasEdge(current, userId, sourceId, t.item.id) then Ok(None)
      else if !meta.VDict? then Err(AttributeError)
      else
        match relate(sourceMeta, meta.entries)
        case Err(e) => Err(e)
        case Ok(rel) => Ok(Some(Edge(userId, sourceId, t.item.id, t.key, rel)))
  }

  /** How a batch ended, and the edges it inserted before that. */
  datatype Outcome = Outcome(status: Result<()>, added: seq<Edge>)

  /** The insert loop over `ts`; the first raise ends it, keeping the edges
      already inserted. */
  function Batch(existing: seq<Edge>, userId: string, sourceId: nat, sourceMeta: Record,
                 relate: Relate,
                 ts: seq<Keyed<Row>>, failAt: Option<nat>): Outcome
    decreases |ts|
  {
    if ts == [] then Outcome(Ok(()), [])
    else
      var prev := Batch(existing, userId, sourceId, sourceMeta, relate, ts[..|ts| - 1], failAt);
      if prev.status.Err? then prev
      else
        match EdgeStep(existing + prev.added, userId, sourceId, sourceMeta, relate, ts[|ts| - 1], |ts| - 1, failAt)
        case Err(e) => Outcome(Err(e), prev.added)
        case Ok(None) => prev
        case Ok(Some(e)) => Outcome(Ok(()), prev.added + [e])
  }

  /** The whole call with `relate` as the classifier: `selectOk` is false
      when the first query raises. */
  function CreateOutcome(rows: seq<Row>, existing: seq<Edge>, userId: string, sourceId: nat,
                         sourceEmbedding: seq<real>, sourceMeta: Record, topK: int, relate: Relate,
                         sim: (seq<real>, seq<real>) -> real, selectOk: bool, failAt: Option<nat>): Outcome
  {
    if !selectOk then Outcome(Err(TransportError), [])
    else
      var ms := Others(rows, userId, sourceId);
      if !EmbeddingsPresent(ms) then Outcome(Err(TypeError), [])
      else Batch(existing, userId, sourceId, sourceMeta, relate,
                 Top(Scored(ms, sourceId, sourceEmbedding, sim), topK), failAt)
  }

  // -----------------------------------------------------------------------
  // Lemmas about the batch

  /** Once a pass raises, the later candidates change nothing. */
  lemma {:induction false} BatchStopsAtError(existing: seq<Edge>, userId: string, sourceId: nat,
                                             sourceMeta: Record,
                                             relate: Relate, ts: seq<Keyed<Row>>, failAt: Option<nat>, k: nat)
    requires k < |ts| && Batch(existing, userId, sourceId, sourceMeta, relate, ts[..k + 1], failAt).status.Err?
    ensures Batch(existing, userId, sourceId, sourceMeta, relate, ts, failAt) ==
            Batch(existing, userId, sourceId, sourceMeta, relate, ts[..k + 1], failAt)
    decreases |ts|
  {
    if |ts| != k + 1 {
      assert ts[..|ts| - 1][..k + 1] == ts[..k + 1];
      BatchStopsAtError(existing, userId, sourceId, sourceMeta, relate, ts[..|ts| - 1], failAt, k);
    } else {
      assert ts[..k + 1] == ts;
    }
  }

  /** Every inserted edge belongs to the user and the source and carries
      the score of one of the candidates, whose target it is. */
  lemma {:induction false} BatchEdgesFromCandidates(existing: seq<Edge>, userId: string, sourceId: nat,
                                                    sourceMeta: Record,
                                                    relate: Relate, ts: seq<Keyed<Row>>, failAt: Option<nat>)
    ensures var added := Batch(existing, userId, sourceId, sourceMeta, relate, ts, failAt).added;
      forall e :: e in added ==> (e.userId == userId && e.sourceId == sourceId &&
        exists j :: 0 <= j < |ts| && e.targetId == ts[j].item.id && e.score == ts[j].key &&
          TargetMeta(ts[j].item.metadata).Ok? && TargetMeta(ts[j].item.metadata).value.VDict? &&
          relate(sourceMeta, TargetMeta(ts[j].item.metadata).value.entries) == Ok(e.relationType))
    ensures |Batch(existing, userId, sourceId, sourceMeta, relate, ts, failAt).added| <= |ts|
    decreases |ts|
  {
    if ts != [] {
      var init := ts[..|ts| - 1];
      BatchEdgesFromCandidates(existing, userId, sourceId, sourceMeta, relate, init, failAt);
      assert forall j :: 0 <= j < |init| ==> init[j] == ts[j];
    }
  }

  /** The batch never stores a triple twice. */
  lemma {:induction false} BatchKeepsTriplesUnique(existing: seq<Edge>, userId: string, sourceId: nat,
                                                   sourceMeta: Record,
                                                   relate: Relate, ts: seq<Keyed<Row>>, failAt: Option<nat>)
    requires NoDuplicateTriples(existing)
    ensures NoDuplicateTriples(existing + Batch(existing, userId, sourceId, sourceMeta, relate, ts, failAt).added)
    decreases |ts|
  {
    if ts != [] {
      var init := ts[..|ts| - 1];
      BatchKeepsTriplesUnique(existing, userId, sourceId, sourceMeta, relate, init, failAt);
      var prev := Batch(existing, userId, sourceId, sourceMeta, relate, init, failAt);
      if prev.status.Ok? {
        var step := EdgeStep(existing + prev.added, userId, sourceId, sourceMeta, relate, ts[|ts| - 1], |ts| - 1, failAt);
        if step.Ok? && step.value.Some? {
          var e := step.value.value;
          var before := existing + prev.added;
          assert existing + (prev.added + [e]) == before + [e];
          forall i | 0 <= i < |before|
            ensures !(before[i].userId == e.userId && before[i].sourceId == e.sourceId &&
                      before[i].targetId == e.targetId)
          {
            assert before[i] in before;
          }
        }
      }
    }
  }

  /** A pass that raised nothing leaves the candidate's triple stored. */
  lemma HasEdgeGrows(edges: seq<Edge>, more: seq<Edge>, userId: string, sourceId: nat, targetId: nat)
    requires HasEdge(edges, userId, sourceId, targetId)
    ensures HasEdge(edges + more, userId, sourceId, targetId)
  {
    var e :| e in edges && e.userId == userId && e.sourceId == sourceId && e.targetId == targetId;
    assert e in edges + more;
  }

  /** A batch that ended normally read every target's metadata and hit no
      database failure. */
  lemma {:induction false} BatchOkNoFailure(existing: seq<Edge>, userId: string, sourceId: nat,
                                            sourceMeta: Record,
                                            relate: Relate, ts: seq<Keyed<Row>>, failAt: Option<nat>)
    requires Batch(existing, userId, sourceId, sourceMeta, relate, ts, failAt).status.Ok?
    ensures forall k :: 0 <= k < |ts| ==> TargetMeta(ts[k].item.metadata).Ok? && failAt != Some(k)
    decreases |ts|
  {
    if ts != [] {
      var init := ts[..|ts| - 1];
      BatchOkNoFailure(existing, userId, sourceId, sourceMeta, relate, init, failAt);
      assert forall k :: 0 <= k < |init| ==> init[k] == ts[k];
    }
  }

  /** A batch that ended normally left every candidate's triple stored. */
  lemma {:induction false} BatchOkCoversAll(existing: seq<Edge>, userId: string, sourceId: nat,
                                            sourceMeta: Record,
                                            relate: Relate, ts: seq<Keyed<Row>>, failAt: Option<nat>)
    requires Batch(existing, userId, sourceId, sourceMeta, relate, ts, failAt).status.Ok?
    ensures forall k :: 0 <= k < |ts| ==>
      HasEdge(existing + Batch(existing, userId, sourceId, sourceMeta, relate, ts, failAt).added, userId, sourceId, ts[k].item.id)
    decreases |ts|
  {
    if ts != [] {
      var init := ts[..|ts| - 1];
      var prev := Batch(existing, userId, sourceId, sourceMeta, relate, init, failAt);
      BatchOkCoversAll(existing, userId, sourceId, sourceMeta, relate, init, failAt);
      var before := existing + prev.added;
      var step := EdgeStep(before, userId, sourceId, sourceMeta, relate, ts[|ts| - 1], |ts| - 1, failAt);
      var added := if step.Ok? && step.value.Some? then [step.value.value] else [];
      assert existing + Batch(existing, userId, sourceId, sourceMeta, relate, ts, failAt).added == before + added;
      forall k | 0 <= k < |ts|
        ensures HasEdge(before + added, userId, sourceId, ts[k].item.id)
      {
        if k < |init| {
          assert init[k] == ts[k];
          HasEdgeGrows(before, added, userId, sourceId, ts[k].item.id);
        } else if added == [] {
          assert before + added == before;
        } else {
          assert added[0] in before + added;
        }
      }
    }
  }

  /** When every candidate's triple is already stored and nothing raises,
      the batch inserts nothing. */
  lemma {:induction false} BatchOnStoredAddsNothing(existing: seq<Edge>, userId: string, sourceId: nat,
                                                    sourceMeta: Record,
                                                    relate: Relate, ts: seq<Keyed<Row>>, failAt: Option<nat>)
    requires forall k :: 0 <= k < |ts| ==> TargetMeta(ts[k].item.metadata).Ok? && failAt != Some(k)
    requires forall k :: 0 <= k < |ts| ==> HasEdge(existing, userId, sourceId, ts[k].item.id)
    ensures Batch(existing, userId, sourceId, sourceMeta, relate, ts, failAt) == Outcome(Ok(()), [])
    decreases |ts|
  {
    if ts != [] {
      var init := ts[..|ts| - 1];
      BatchOnStoredAddsNothing(existing, userId, sourceId, sourceMeta, relate, init, failAt);
      assert existing + [] == existing;
    }
  }

  /** Running the builder again on the same source adds nothing. */
  lemma RerunAddsNothing(rows: seq<Row>, existing: seq<Edge>, userId: string, sourceId: nat,
                         sourceEmbedding: seq<real>, sourceMeta: Record, topK: int, relate: Relate,
                         sim: (seq<real>, seq<real>) -> real, failAt: Option<nat>)
    requires CreateOutcome(rows, existing, userId, sourceId, sourceEmbedding, sourceMeta, topK, relate, sim, true, failAt).status.Ok?
    ensures var first := CreateOutcome(rows, existing, userId, sourceId, sourceEmbedding, sourceMeta, topK, relate, sim, true, failAt);
      CreateOutcome(rows, existing + first.added, userId, sourceId, sourceEmbedding, sourceMeta, topK, relate, sim, true, failAt)
        == Outcome(Ok(()), [])
  {
    var ms := Others(rows, userId, sourceId);
    var ts := Top(Scored(ms, sourceId, sourceEmbedding, sim), topK);
    var first := Batch(existing, userId, sourceId, sourceMeta, relate, ts, failAt);
    BatchOkNoFailure(existing, userId, sourceId, sourceMeta, relate, ts, failAt);
    BatchOkCoversAll(existing, userId, sourceId, sourceMeta, relate, ts, failAt);
    BatchOnStoredAddsNothing(existing + first.added, userId, sourceId, sourceMeta, relate, ts, failAt);
  }

  /** Scores never increase along the sequence. */
  predicate ScoresDescend(edges: seq<Edge>) {
    forall i, j :: 0 <= i < j < |edges| ==> edges[i].score >= edges[j].score
  }

  /** The edges of one batch come in non-increasing score order when the
      candidates do. */
  lemma {:induction false} BatchScoresDescend(existing: seq<Edge>, userId: string, sourceId: nat,
                                              sourceMeta: Record,
                                              relate: Relate, ts: seq<Keyed<Row>>, failAt: Option<nat>)
    requires SortedBy(ts, true)
    ensures ScoresDescend(Batch(existing, userId, sourceId, sourceMeta, relate, ts, failAt).added)
    decreases |ts|
  {
    if ts != [] {
      var init := ts[..|ts| - 1];
      assert SortedBy(init, true);
      BatchScoresDescend(existing, userId, sourceId, sourceMeta, relate, init, failAt);
      BatchEdgesFromCandidates(existing, userId, sourceId, sourceMeta, relate, init, failAt);
      var prev := Batch(existing, userId, sourceId, sourceMeta, relate, init, failAt);
      forall e | e in prev.added ensures e.score >= ts[|ts| - 1].key {
        var j :| 0 <= j < |init| && e.targetId == init[j].item.id && e.score == init[j].key;
        assert init[j] == ts[j];
      }
    }
  }

  /** Where the edges `create_knowledge_edges` adds come from: they
      belong to the user and the source, never loop back to the source,
      score at least the threshold (the similarity of the target's
      embedding to the source's) and number at most `top_k`. */
  lemma CreatedEdges(rows: seq<Row>, existing: seq<Edge>, userId: string, sourceId: nat,
                     sourceEmbedding: seq<real>, sourceMeta: Record, topK: int, relate: Relate,
                     sim: (seq<real>, seq<real>) -> real, selectOk: bool, failAt: Option<nat>)
    ensures var out := CreateOutcome(rows, existing, userId, sourceId, sourceEmbedding, sourceMeta, topK, relate, sim, selectOk, failAt);
      (forall e :: e in out.added ==>
        e.userId == userId && e.sourceId == sourceId && e.targetId != sourceId &&
        e.score >= SimilarityThreshold &&
        exists m :: m in rows && m.userId == userId && m.id == e.targetId && m.embedding.Some? &&
          e.score == sim(sourceEmbedding, m.embedding.value)) &&
      (topK >= 0 ==> |out.added| <= topK)
  {
    if selectOk && EmbeddingsPresent(Others(rows, userId, sourceId)) {
      var ts := Top(Scored(Others(rows, userId, sourceId), sourceId, sourceEmbedding, sim), topK);
      BatchEdgesFromCandidates(existing, userId, sourceId, sourceMeta, relate, ts, failAt);
      var out := Batch(existing, userId, sourceId, sourceMeta, relate, ts, failAt);
      TopFromRows(rows, userId, sourceId, sourceEmbedding, topK, sim);
      forall e | e in out.added
        ensures e.targetId != sourceId && e.score >= SimilarityThreshold &&
          exists m :: m in rows && m.userId == userId && m.id == e.targetId && m.embedding.Some? &&
            e.score == sim(sourceEmbedding, m.embedding.value)
      {
        var j :| 0 <= j < |ts| && e.targetId == ts[j].item.id && e.score == ts[j].key;
        assert ts[j] in ts;
      }
    }
  }

  /** With the classifier as written, no edge the builder adds is labelled
      `time_linked`, however close in time the two memories are. */
  lemma CreatedEdgesNeverTimeLinked(rows: seq<Row>, existing: seq<Edge>, userId: string, sourceId: nat,
                                    sourceEmbedding: seq<real>, sourceMeta: Record, topK: int,
                                    sim: (seq<real>, seq<real>) -> real, selectOk: bool, failAt: Option<nat>)
    ensures var out := CreateOutcome(rows, existing, userId, sourceId, sourceEmbedding, sourceMeta, topK,
                                     RelationTypeAsWritten, sim, selectOk, failAt);
      forall e :: e in out.added ==> "time_linked" !in e.relationType
  {
    if selectOk && EmbeddingsPresent(Others(rows, userId, sourceId)) {
      var ts := Top(Scored(Others(rows, userId, sourceId), sourceId, sourceEmbedding, sim), topK);
      BatchEdgesFromCandidates(existing, userId, sourceId, sourceMeta, RelationTypeAsWritten, ts, failAt);
      var out := Batch(existing, userId, sourceId, sourceMeta, RelationTypeAsWritten, ts, failAt);
      forall e | e in out.added ensures "time_linked" !in e.relationType {
        var j :| 0 <= j < |ts| && e.targetId == ts[j].item.id && e.score == ts[j].key &&
          TargetMeta(ts[j].item.metadata).Ok? && TargetMeta(ts[j].item.metadata).value.VDict? &&
          RelationTypeAsWritten(sourceMeta, TargetMeta(ts[j].item.metadata).value.entries) == Ok(e.relationType);
        AsWrittenNeverTimeLinkedName(sourceMeta, TargetMeta(ts[j].item.metadata).value.entries);
      }
    }
  }

  /** The edges `create_knowledge_edges` adds come in non-increasing score
      order and repeat no stored triple. */
  lemma CreatedEdgesOrdered(rows: seq<Row>, existing: seq<Edge>, userId: string, sourceId: nat,
                            sourceEmbedding: seq<real>, sourceMeta: Record, topK: int, relate: Relate,
                            sim: (seq<real>, seq<real>) -> real, selectOk: bool, failAt: Option<nat>)
    requires NoDuplicateTriples(existing)
    ensures var out := CreateOutcome(rows, existing, userId, sourceId, sourceEmbedding, sourceMeta, topK, relate, sim, selectOk, failAt);
      ScoresDescend(out.added) && NoDuplicateTriples(existing + out.added)
  {
    if !selectOk || !EmbeddingsPresent(Others(rows, userId, sourceId)) {
      assert existing + [] == existing;
    } else {
      var scored := Scored(Others(rows, userId, sourceId), sourceId, sourceEmbedding, sim);
      var sorted := Sort(scored, true);
      var ts := Top(scored, topK);
      assert ts == sorted[..|ts|];
      assert SortedBy(ts, true);
      assert CreateOutcome(rows, existing, userId, sourceId, sourceEmbedding, sourceMeta, topK, relate, sim, selectOk, failAt) ==
        Batch(existing, userId, sourceId, sourceMeta, relate, ts, failAt);
      BatchScoresDescend(existing, userId, sourceId, sourceMeta, relate, ts, failAt);
      BatchKeepsTriplesUnique(existing, userId, sourceId, sourceMeta, relate, ts, failAt);
    }
  }

  /** Every kept candidate is another row of the user, scored by its
      similarity to the source, at or above the threshold. */
  lemma TopFromRows(rows: seq<Row>, userId: string, sourceId: nat, sourceEmbedding: seq<real>,
                    topK: int, sim: (seq<real>, seq<real>) -> real)
    ensures var ts := Top(Scored(Others(rows, userId, sourceId), sourceId, sourceEmbedding, sim), topK);
      forall t :: t in ts ==>
        t.item in rows && t.item.userId == userId && t.item.id != sourceId && t.item.embedding.Some? &&
        t.key == sim(sourceEmbedding, t.item.embedding.value) && t.key >= SimilarityThreshold
  {
    var scored := Scored(Others(rows, userId, sourceId), sourceId, sourceEmbedding, sim);
    var sorted := Sort(scored, true);
    var ts := Top(scored, topK);
    assert ts == sorted[..|ts|];
    forall t | t in ts
      ensures t in scored
    {
      assert t in sorted;
      assert t in multiset(scored);
    }
  }

  /** The kept candidates are the best: no candidate left out scores above
      one that was kept. */
  lemma TopAreBest(scored: seq<Keyed<Row>>, topK: int)
    ensures forall t, x :: t in Top(scored, topK) && x in scored && x !in Top(scored, topK) ==> t.key >= x.key
  {
    var sorted := Sort(scored, true);
    var ts := Top(scored, topK);
    assert ts == sorted[..|ts|];
    forall t, x | t in ts && x in scored && x !in ts ensures t.key >= x.key {
      assert x in multiset(sorted);
      var j :| 0 <= j < |sorted| && sorted[j] == x;
      var i :| 0 <= i < |ts| && ts[i] == t;
      forall k | 0 <= k < |ts| ensures sorted[k] != x {
        assert ts[k] == sorted[k] && ts[k] in ts;
      }
    }
  }

  // -----------------------------------------------------------------------
  // Following the edges

  /** `SimplifiedMemory` */
  datatype Simplified = Simplified(date: string, text: string)

  /** The `metadata` of a fetched row as a dict, if it is one or is JSON
      text of one (`loads` is `json.loads`; `None` is a decoding error). */
  function MetaDictOf(m: Record, loads: string -> Option<Value>): Option<Record> {
    match Get(m, "metadata", VDict(map[]))
    case VDict(d) => Some(d)
    case VStr(s) => (match loads(s) case Some(VDict(d)) => Some(d) case _ => None)
    case _ => None
  }

  /** The readable date of a fetched row: `strftime("%b %d, %Y")` of its
      metadata timestamp; "" when that is missing, malformed or unreadable,
      since every failure on the way is swallowed. */
  function DateOf(m: Record, loads: string -> Option<Value>): string {
    match MetaDictOf(m, loads)
    case None => ""
    case Some(d) =>
      if "timestamp" in d && d["timestamp"].VStr? && Parse(d["timestamp"].s).Some?
      then ReadableDate(Parse(d["timestamp"].s).value)
      else ""
  }

  predicate Projectable(m: Record) {
    "id" in m && "knowledge_text" in m
  }

  /** The rows `simplify_related_memories` projects, in order. */
  function Kept(ms: seq<Record>): (r: seq<Record>)
    ensures forall m :: m in r <==> m in ms && Projectable(m)
    ensures forall i :: 0 <= i < |r| ==> Projectable(r[i])
    ensures |r| <= |ms|
  {
    if ms == [] then []
    else (if Projectable(ms[0]) then [ms[0]] else []) + Kept(ms[1..])
  }

  /** `simplify_related_memories` as a value, row by row. */
  function SimplifiedOf(ms: seq<Record>, loads: string -> Option<Value>): Result<seq<Simplified>>
    decreases |ms|
  {
    if ms == [] then Ok([])
    else
      var m := ms[|ms| - 1];
      match SimplifiedOf(ms[..|ms| - 1], loads)
      case Err(e) => Err(e)
      case Ok(prev) =>
        if !Projectable(m) then Ok(prev)
        else if !m["knowledge_text"].VStr? then Err(ValidationError)
        else Ok(prev + [Simplified(DateOf(m, loads), m["knowledge_text"].s)])
  }

  /** What the projection means: it fails exactly when a kept row's text
      is not a string, and otherwise turns the kept rows, in order, into
      (date, text) pairs. */
  lemma {:induction false} SimplifiedOfMeaning(ms: seq<Record>, loads: string -> Option<Value>)
    ensures SimplifiedOf(ms, loads).Ok? <==> forall m: Record :: m in Kept(ms) ==> m["knowledge_text"].VStr?
    ensures var r := SimplifiedOf(ms, loads);
      r.Ok? ==> (|r.value| == |Kept(ms)| &&
        forall i :: 0 <= i < |r.value| ==>
          r.value[i] == Simplified(DateOf(Kept(ms)[i], loads), Kept(ms)[i]["knowledge_text"].s))
    decreases |ms|
  {
    if ms != [] {
      var init := ms[..|ms| - 1];
      var m := ms[|ms| - 1];
      assert ms == init + [m];
      KeptAppend(init, m);
      SimplifiedOfMeaning(init, loads);
      if SimplifiedOf(init, loads).Ok? && Projectable(m) {
        assert Kept(ms) == Kept(init) + [m];
        assert m in Kept(ms);
      }
    }
  }

  lemma {:induction false} KeptAppend(ms: seq<Record>, m: Record)
    ensures Kept(ms + [m]) == Kept(ms) + (if Projectable(m) then [m] else [])
  {
    if ms == [] {
      assert [] + [m] == [m];
    } else {
      assert (ms + [m])[1..] == ms[1..] + [m];
      KeptAppend(ms[1..], m);
    }
  }

  /** The date is "" exactly when the metadata holds no readable
      timestamp, and a 12-character "Mon DD, YYYY" otherwise. */
  lemma DateOfIff(m: Record, loads: string -> Option<Value>)
    ensures DateOf(m, loads) == "" <==>
      MetaDictOf(m, loads).None? || "timestamp" !in MetaDictOf(m, loads).value ||
      !MetaDictOf(m, loads).value["timestamp"].VStr? ||
      Parse(MetaDictOf(m, loads).value["timestamp"].s).None?
    ensures DateOf(m, loads) != "" ==> |DateOf(m, loads)| == 12
  {
  }

  /** `[edge["target_id"] for edge in ...]` over the edges of the user and
      the source scoring at least `minScore`, further restricted to the
      one-tag list `[relationType]` when a non-empty tag is given. */
  function TargetIds(edges: seq<Edge>, userId: string, sourceId: nat, relationType: Option<string>,
                     minScore: real): (r: seq<nat>)
    ensures forall t :: t in r <==> exists e :: e in edges && e.targetId == t && Follows(e, userId, sourceId, relationType, minScore)
  {
    if edges == [] then []
    else
      var e := edges[0];
      (if Follows(e, userId, sourceId, relationType, minScore) then [e.targetId] else []) +
      TargetIds(edges[1..], userId, sourceId, relationType, minScore)
  }

  /** The edge query's filters: user, source, the score floor, and the
      relation tag when a non-empty one is given. */
  predicate Follows(e: Edge, userId: string, sourceId: nat, relationType: Option<string>, minScore: real) {
    e.userId == userId && e.sourceId == sourceId && e.score >= minScore &&
    (relationType.None? || relationType.value == [] || e.relationType == [relationType.value])
  }

  /** `.in_("id", target_ids)` over the rows of `user_knowledge` as the
      client returns them. */
  function Fetched(knowledge: seq<Record>, ids: seq<nat>): (r: seq<Record>)
    ensures forall m :: m in r <==> m in knowledge && "id" in m && exists t :: t in ids && m["id"] == VNum(t as real)
  {
    if knowledge == [] then []
    else
      var m := knowledge[0];
      (if "id" in m && exists t :: t in ids && m["id"] == VNum(t as real) then [m] else []) +
      Fetched(knowledge[1..], ids)
  }

  class EdgeTable {
    var edges: seq<Edge>

    constructor()
      ensures edges == []
    {
      edges := [];
    }

    /** The scoring loop of `create_knowledge_edges`: `None` when a
        candidate has no embedding to decode. */
    static method ScoreMemories(memories: seq<Row>, sourceId: nat, sourceEmbedding: seq<real>,
                                sim: (seq<real>, seq<real>) -> real)
      returns (r: Option<seq<Keyed<Row>>>)
      ensures r.Some? <==> EmbeddingsPresent(memories)
      ensures r.Some? ==> r.value == Scored(memories, sourceId, sourceEmbedding, sim)
    {
      var scored: seq<Keyed<Row>> := [];
      var i := 0;
      while i < |memories|
        invariant 0 <= i <= |memories|
        invariant EmbeddingsPresent(memories[..i])
        invariant scored == Scored(memories[..i], sourceId, sourceEmbedding, sim)
      {
        assert memories[..i + 1][..i] == memories[..i];
        if memories[i].embedding.None? {
          return None;
        }
        var score := sim(sourceEmbedding, memories[i].embedding.value);
        if score >= SimilarityThreshold && memories[i].id != sourceId {
          scored := scored + [Keyed(score, memories[i])];
        }
        i := i + 1;
      }
      assert memories[..i] == memories;
      r := Some(scored);
    }

    /** One pass of the insert loop for candidate `t`, the `k`-th. */
    method InsertEdge(userId: string, sourceId: nat, sourceMeta: Record, relate: Relate,
                      t: Keyed<Row>, k: nat, failAt: Option<nat>)
      returns (r: Result<()>)
      modifies this
      ensures var step := EdgeStep(old(edges), userId, sourceId, sourceMeta, relate, t, k, failAt);
        (step.Err? ==> r == Err(step.error) && edges == old(edges)) &&
        (step == Ok(None) ==> r == Ok(()) && edges == old(edges)) &&
        (step.Ok? && step.value.Some? ==> r == Ok(()) && edges == old(edges) + [step.value.value])
    {
      var metadata: Value;
      match t.item.metadata {
        case MetaDict(d) => metadata := VDict(d);
        case MetaJson(d) => metadata := VDict(d);
        case MetaJsonOther(v) => metadata := v;
        case MetaOther(v) =>
          if v.VStr? {
            return Err(ValueError);
          }
          metadata := if v.VDict? then v else VDict(map[]);
      }
      if failAt == Some(k) {
        return Err(TransportError);
      }
      if HasEdge(edges, userId, sourceId, t.item.id) {
        return Ok(());
      }
      if !metadata.VDict? {
        return Err(AttributeError);
      }
      var relationType := relate(sourceMeta, metadata.entries);
      if relationType.Err? {
        return Err(relationType.error);
      }
      edges := edges + [Edge(userId, sourceId, t.item.id, t.key, relationType.value)];
      r := Ok(());
    }

    /** `create_knowledge_edges`: scores the user's other memories against
        the source, keeps the best `top_k` at or above the threshold and
        inserts an edge for each target not yet linked; any raise ends the
        batch, keeping the edges already inserted, and is logged rather
        than raised (`r` says which). `sim` is `cosine_similarity`; the
        labels come from `get_relation_type` as written, whose temporal
        rule never fires (see `RelationTypes.RelationType` for the
        intended classifier, which `CreateOutcome` accepts as well). */
    method CreateKnowledgeEdges(knowledge: VectorTable, userId: string, sourceId: nat,
                                sourceEmbedding: seq<real>, sourceMeta: Record, topK: int,
                                sim: (seq<real>, seq<real>) -> real, selectOk: bool, failAt: Option<nat>)
      returns (r: Result<()>)
      modifies this
      ensures var out := CreateOutcome(knowledge.rows, old(edges), userId, sourceId, sourceEmbedding,
                                       sourceMeta, topK, RelationTypeAsWritten, sim, selectOk, failAt);
        r == out.status && edges == old(edges) + out.added
    {
      if !selectOk {
        return Err(TransportError);
      }
      var memories := Others(knowledge.rows, userId, sourceId);
      if memories == [] {
        assert Top(Scored(memories, sourceId, sourceEmbedding, sim), topK) == [];
        assert old(edges) + [] == old(edges);
        return Ok(());
      }
      var scored := ScoreMemories(memories, sourceId, sourceEmbedding, sim);
      if scored.None? {
        return Err(TypeError);
      }
      r := InsertAll(userId, sourceId, sourceMeta, RelationTypeAsWritten, Top(scored.value, topK), failAt);
    }

    /** The insert loop of `create_knowledge_edges` over the kept
        candidates, with `relate` as `get_relation_type`. */
    method InsertAll(userId: string, sourceId: nat, sourceMeta: Record, relate: Relate,
                     top: seq<Keyed<Row>>, failAt: Option<nat>)
      returns (r: Result<()>)
      modifies this
      ensures var out := Batch(old(edges), userId, sourceId, sourceMeta, relate, top, failAt);
        r == out.status && edges == old(edges) + out.added
    {
      var k := 0;
      ghost var start := edges;
      while k < |top|
        invariant 0 <= k <= |top| && start == old(edges)
        invariant Batch(start, userId, sourceId, sourceMeta, relate, top[..k], failAt).status == Ok(())
        invariant edges == start + Batch(start, userId, sourceId, sourceMeta, relate, top[..k], failAt).added
      {
        assert top[..k + 1][..k] == top[..k];
        var step := InsertEdge(userId, sourceId, sourceMeta, relate, top[k], k, failAt);
        if step.Err? {
          BatchStopsAtError(start, userId, sourceId, sourceMeta, relate, top, failAt, k);
          return step;
        }
        k := k + 1;
      }
      assert top[..k] == top;
      r := Ok(());
    }

    /** `simplify_related_memories` */
    static method SimplifyRelatedMemories(memories: seq<Record>, loads: string -> Option<Value>)
      returns (r: Result<seq<Simplified>>)
      ensures r == SimplifiedOf(memories, loads)
    {
      var simplified: seq<Simplified> := [];
      var i := 0;
      while i < |memories|
        invariant 0 <= i <= |memories|
        invariant SimplifiedOf(memories[..i], loads) == Ok(simplified)
      {
        var memory := memories[i];
        assert memories[..i + 1][..i] == memories[..i] && memories[..i + 1][i] == memory;
        if "id" in memory && "knowledge_text" in memory {
          var readableDate := DateOf(memory, loads);
          if !memory["knowledge_text"].VStr? {
            assert SimplifiedOf(memories[..i + 1], loads) == Err(ValidationError);
            SimplifiedStaysErr(memories, loads, i + 1);
            return Err(ValidationError);
          }
          simplified := simplified + [Simplified(readableDate, memory["knowledge_text"].s)];
        }
        i := i + 1;
      }
      assert memories[..i] == memories;
      r := Ok(simplified);
    }

    /** `get_connected_memories`: [] without fetching anything when no edge
        qualifies, otherwise the projection of the memories reached. */
    method GetConnectedMemories(userId: string, sourceId: nat, relationType: Option<string>, minScore: real,
                                knowledge: seq<Record>, loads: string -> Option<Value>)
      returns (r: Result<seq<Simplified>>)
      ensures TargetIds(edges, userId, sourceId, relationType, minScore) == [] ==> r == Ok([])
      ensures TargetIds(edges, userId, sourceId, relationType, minScore) != [] ==>
        r == SimplifiedOf(Fetched(knowledge, TargetIds(edges, userId, sourceId, relationType, minScore)), loads)
    {
      var targetIds := TargetIds(edges, userId, sourceId, relationType, minScore);
      if targetIds == [] {
        return Ok([]);
      }
      r := SimplifyRelatedMemories(Fetched(knowledge, targetIds), loads);
    }
  }

  /** A failed prefix fails the whole projection. */
  lemma {:induction false} SimplifiedStaysErr(ms: seq<Record>, loads: string -> Option<Value>, n: nat)
    requires n <= |ms| && SimplifiedOf(ms[..n], loads).Err?
    ensures SimplifiedOf(ms, loads) == SimplifiedOf(ms[..n], loads)
    decreases |ms| - n
  {
    if n < |ms| {
      assert ms[..n + 1][..n] == ms[..n];
      SimplifiedStaysErr(ms, loads, n + 1);
    } else {
      assert ms[..n] == ms;
    }
  }

  /** Every connected memory reached is the target of a qualifying edge,
      and a row without an id or a text never appears. */
  lemma ConnectedAreTargets(edges: seq<Edge>, userId: string, sourceId: nat, relationType: Option<string>,
                            minScore: real, knowledge: seq<Record>)
    ensures forall m :: m in Kept(Fetched(knowledge, TargetIds(edges, userId, sourceId, relationType, minScore))) ==>
      Projectable(m) && m in knowledge &&
      exists e :: e in edges && e.userId == userId && e.sourceId == sourceId && e.score >= minScore &&
        m["id"] == VNum(e.targetId as real)
  {
  }
}
