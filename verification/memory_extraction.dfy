/** The memory service the chat pipeline uses: storing an extracted memory
    in `user_knowledge`, searching it, and the canned queries that run a
    fixed `MemoryFilter` over the search results. */
module MemoryExtraction {
  import opened Wrappers
  import opened PyValues
  import opened IsoDate
  import opened Sorting
  import opened MatchFilter
  import opened VectorStore

  /** `MemoryVector`: the structured memory the extraction agent returns,
      with its flags at the top level. */
  datatype MemoryVector = MemoryVector(
    text: string, timestamp: string, sentimentScore: real, topics: seq<string>,
    emotionalIntensity: string, importance: real, disclosure: bool,
    recurringTheme: bool, boundaryDiscussion: bool, ritual: bool,
    selfAwareness: bool, languageStyle: string)

  function StrList(xs: seq<string>): (r: seq<Value>)
    ensures |r| == |xs| && forall i :: 0 <= i < |xs| ==> r[i] == VStr(xs[i])
  {
    if xs == [] then [] else [VStr(xs[0])] + StrList(xs[1..])
  }

  /** Reads back a list of strings; `None` when an element is not one. */
  function Strings(vs: seq<Value>): (r: Option<seq<string>>)
    ensures r.Some? ==> |r.value| == |vs| && forall i :: 0 <= i < |vs| ==> vs[i] == VStr(r.value[i])
  {
    if vs == [] then Some([])
    else if !vs[0].VStr? then None
    else match Strings(vs[1..])
      case None => None
      case Some(rest) => Some([vs[0].s] + rest)
  }

  lemma {:induction false} StringsOfStrList(xs: seq<string>)
    ensures Strings(StrList(xs)) == Some(xs)
  {
    if xs != [] {
      StringsOfStrList(xs[1..]);
      assert StrList(xs)[1..] == StrList(xs[1..]);
      assert [xs[0]] + xs[1..] == xs;
    }
  }

  /** `memory.model_dump()` */
  function ModelDump(m: MemoryVector): (d: Record)
    ensures d.Keys == {"text", "timestamp", "sentiment_score", "topics", "emotional_intensity",
                       "importance", "disclosure", "recurring_theme", "boundary_discussion",
                       "ritual", "self_awareness", "language_style"}
  {
    map["text" := VStr(m.text), "timestamp" := VStr(m.timestamp),
        "sentiment_score" := VNum(m.sentimentScore), "topics" := VList(StrList(m.topics)),
        "emotional_intensity" := VStr(m.emotionalIntensity), "importance" := VNum(m.importance),
        "disclosure" := VBool(m.disclosure), "recurring_theme" := VBool(m.recurringTheme),
        "boundary_discussion" := VBool(m.boundaryDiscussion), "ritual" := VBool(m.ritual),
        "self_awareness" := VBool(m.selfAwareness), "language_style" := VStr(m.languageStyle)]
  }

  /** `MemoryVector(**d)` for dicts whose fields already have their declared
      types; `None` is the validation error. */
  function FromRecord(d: Record): Option<MemoryVector> {
    if "text" in d && d["text"].VStr? && "timestamp" in d && d["timestamp"].VStr? &&
       "sentiment_score" in d && d["sentiment_score"].VNum? &&
       "topics" in d && d["topics"].VList? && Strings(d["topics"].items).Some? &&
       "emotional_intensity" in d && d["emotional_intensity"].VStr? &&
       "importance" in d && d["importance"].VNum? &&
       "disclosure" in d && d["disclosure"].VBool? && "recurring_theme" in d && d["recurring_theme"].VBool? &&
       "boundary_discussion" in d && d["boundary_discussion"].VBool? && "ritual" in d && d["ritual"].VBool? &&
       "self_awareness" in d && d["self_awareness"].VBool? &&
       "language_style" in d && d["language_style"].VStr?
    then Some(MemoryVector(d["text"].s, d["timestamp"].s, d["sentiment_score"].r,
                           Strings(d["topics"].items).value, d["emotional_intensity"].s,
                           d["importance"].r, d["disclosure"].b, d["recurring_theme"].b,
                           d["boundary_discussion"].b, d["ritual"].b, d["self_awareness"].b,
                           d["language_style"].s))
    else None
  }

  /** What the dump holds under each key (in three parts, for the
      verifier's sake). */
  lemma DumpFieldsText(m: MemoryVector)
    ensures ModelDump(m)["text"] == VStr(m.text) && ModelDump(m)["timestamp"] == VStr(m.timestamp)
    ensures ModelDump(m)["sentiment_score"] == VNum(m.sentimentScore)
    ensures ModelDump(m)["topics"] == VList(StrList(m.topics))
  {
  }

  lemma DumpFieldsStyle(m: MemoryVector)
    ensures ModelDump(m)["emotional_intensity"] == VStr(m.emotionalIntensity)
    ensures ModelDump(m)["importance"] == VNum(m.importance)
    ensures ModelDump(m)["language_style"] == VStr(m.languageStyle)
    ensures ModelDump(m)["disclosure"] == VBool(m.disclosure)
  {
  }

  lemma DumpFieldsFlags(m: MemoryVector)
    ensures ModelDump(m)["recurring_theme"] == VBool(m.recurringTheme)
    ensures ModelDump(m)["boundary_discussion"] == VBool(m.boundaryDiscussion)
    ensures ModelDump(m)["ritual"] == VBool(m.ritual)
    ensures ModelDump(m)["self_awareness"] == VBool(m.selfAwareness)
  {
  }

  /** Rebuilding the model from its dump gives the same memory. */
  lemma DumpRoundTrip(m: MemoryVector)
    ensures FromRecord(ModelDump(m)) == Some(m)
  {
    StringsOfStrList(m.topics);
    DumpFieldsText(m);
    DumpFieldsStyle(m);
    DumpFieldsFlags(m);
  }

  /** `relative_date`: `days_ago` days before `now`; leaving the
      calendar's range raises OverflowError. */
  function RelativeDate(now: DateTime, daysAgo: int): (r: Result<DateTime>)
    requires Valid(now)
    ensures r.Ok? ==> Valid(r.value) && DayOrdinal(r.value) == DayOrdinal(now) - daysAgo
    ensures r.Ok? ==> (r.value.hour == now.hour && r.value.minute == now.minute &&
                       r.value.second == now.second && r.value.micro == now.micro)
    ensures r.Err? ==> r.error == OverflowError
  {
    match MinusDays(now, daysAgo)
    case None => Err(OverflowError)
    case Some(d) =>
      MinusDaysShiftsOrdinal(now, daysAgo);
      Ok(d)
  }

  /** `vector_search`: `rpc` is the outcome of the `find_similar_memories`
      call for the user, the query's embedding and the limit; any error
      yields []. */
  function VectorSearch(rpc: Result<seq<Record>>): (r: seq<Record>)
    ensures rpc.Err? ==> r == []
    ensures rpc.Ok? ==> r == rpc.value
  {
    match rpc
    case Err(_) => []
    case Ok(data) => data
  }

  /** `filter_memories`: the first `limit` rows of the filter RPC (a
      negative limit drops rows from the end, as Python slicing does); a
      failing RPC raises. */
  function FilterMemories(rpc: Result<seq<Record>>, limit: int): (r: Result<seq<Record>>)
    ensures r.Err? <==> rpc.Err?
    ensures r.Ok? ==> r.value <= rpc.value
    ensures r.Ok? && limit >= 0 ==> |r.value| <= limit
    ensures r.Ok? && 0 <= |rpc.value| <= limit ==> r.value == rpc.value
  {
    match rpc
    case Err(e) => Err(e)
    case Ok(data) => Ok(SliceTo(data, limit))
  }

  /** A record a filter with only AND-conditions kept passes each of them. */
  lemma KeptPassesAll(conds: seq<Condition>, m: Record, i: nat)
    requires Keep(conds, [], m) == Ok(true) && i < |conds|
    ensures Holds(conds[i], m) == Ok(true)
  {
  }

  // ---------------------------------------------------------------------
  // What the canned filters test

  /** `_get_value` can read `k` from the record: it raises only on a
      `metadata` that is not a dict. */
  predicate Readable(m: Record, k: string) {
    GetValue(m, k, VNone).Ok?
  }

  /** Field `k` reads as the string `t` (the emotional intensity a record
      is filed under, its language style). */
  predicate FieldIs(m: Record, k: string, t: string) {
    GetValue(m, k, VNone) == Ok(VStr(t))
  }

  /** A flag the filter reads as `True` (Python's `== True`, which the
      number 1 also passes). */
  predicate FlagSet(m: Record, k: string) {
    GetValue(m, k, VNone).Ok? && NumOf(GetValue(m, k, VNone).value) == Some(1.0)
  }

  /** `k` reads as `None` or as a number: what a numeric threshold can be
      compared with without raising. */
  predicate NumberOrNone(m: Record, k: string) {
    GetValue(m, k, VNone).Ok? &&
    (GetValue(m, k, VNone).value.VNone? || NumOf(GetValue(m, k, VNone).value).Some?)
  }

  predicate NumberAtLeast(m: Record, k: string, t: real) {
    GetValue(m, k, VNone).Ok? && NumOf(GetValue(m, k, VNone).value).Some? &&
    NumOf(GetValue(m, k, VNone).value).value >= t
  }

  predicate NumberAtMost(m: Record, k: string, t: real) {
    GetValue(m, k, VNone).Ok? && NumOf(GetValue(m, k, VNone).value).Some? &&
    NumOf(GetValue(m, k, VNone).value).value <= t
  }

  /** The timestamp reads as `None` or as a date string: what a date
      threshold can be compared with without raising. */
  predicate DateOrNone(m: Record) {
    GetValue(m, "timestamp", VNone).Ok? &&
    (GetValue(m, "timestamp", VNone).value.VNone? ||
     (GetValue(m, "timestamp", VNone).value.VStr? && Parse(GetValue(m, "timestamp", VNone).value.s).Some?))
  }

  /** The timestamp is a date no later than `now`. */
  predicate NoLaterThan(m: Record, now: DateTime) {
    GetValue(m, "timestamp", VNone).Ok? && GetValue(m, "timestamp", VNone).value.VStr? &&
    Parse(GetValue(m, "timestamp", VNone).value.s).Some? &&
    Micros(Parse(GetValue(m, "timestamp", VNone).value.s).value) <= Micros(now)
  }

  /** The topics field as `contains_any` reads it, `[]` when absent. */
  function TopicsField(m: Record): Result<Value> {
    GetValue(m, "topics", VList([]))
  }

  /** The topics field is something Python's `in` can search. */
  predicate TopicsSearchable(m: Record) {
    TopicsField(m).Ok? && (TopicsField(m).value.VStr? || TopicsField(m).value.VList? || TopicsField(m).value.VDict?)
  }

  predicate SharesTopic(m: Record, topics: seq<string>) {
    TopicsField(m).Ok? &&
    exists i :: 0 <= i < |topics| && In(VStr(topics[i]), TopicsField(m).value) == Ok(true)
  }

  /** `match(k, s)` for a string `s`: raises exactly when the field cannot
      be read, and passes exactly when it reads as `s`. */
  lemma EqStringVerdict(m: Record, k: string, t: string)
    ensures Holds(Eq(k, VStr(t)), m).Ok? <==> Readable(m, k)
    ensures Readable(m, k) ==> Holds(Eq(k, VStr(t)), m) == Ok(FieldIs(m, k, t))
  {
    if Readable(m, k) {
      var v := GetValue(m, k, VNone).value;
      if PyEq(v, VStr(t)) {
        PyEqString(v, t);
      } else if v == VStr(t) {
        PyEqReflexive(v);
      }
    }
  }

  /** `match(k, True)`: raises exactly when the field cannot be read, and
      passes exactly when the flag is set. */
  lemma EqTrueVerdict(m: Record, k: string)
    ensures Holds(Eq(k, VBool(true)), m).Ok? <==> Readable(m, k)
    ensures Readable(m, k) ==> Holds(Eq(k, VBool(true)), m) == Ok(FlagSet(m, k))
  {
  }

  /** `greater_than_or_equal(k, t)` and `less_than_or_equal(k, t)` for a
      number `t`: raise exactly when the field is neither `None` nor a
      number, and pass exactly when it is a number on the right side. */
  lemma NumberVerdict(m: Record, k: string, t: real)
    ensures Holds(AtLeast(k, VNum(t)), m).Ok? <==> NumberOrNone(m, k)
    ensures Holds(AtMost(k, VNum(t)), m).Ok? <==> NumberOrNone(m, k)
    ensures NumberOrNone(m, k) ==> Holds(AtLeast(k, VNum(t)), m) == Ok(NumberAtLeast(m, k, t))
    ensures NumberOrNone(m, k) ==> Holds(AtMost(k, VNum(t)), m) == Ok(NumberAtMost(m, k, t))
  {
  }

  /** `less_than_or_equal("timestamp", now.isoformat())`: raises exactly
      when the timestamp is neither `None` nor a date, and passes exactly
      when it is a date no later than `now`. */
  lemma DateVerdict(m: Record, now: DateTime)
    requires Valid(now)
    ensures Holds(AtMost("timestamp", VStr(Format(now))), m).Ok? <==> DateOrNone(m)
    ensures DateOrNone(m) ==> Holds(AtMost("timestamp", VStr(Format(now))), m) == Ok(NoLaterThan(m, now))
  {
    FormatParseRoundTrip(now);
  }

  /** `contains_any("topics", topics)`: with no topics it passes nothing
      without reading the field; otherwise it raises exactly when the
      field cannot be searched, and passes exactly when it holds one of
      the topics. */
  lemma TopicsVerdict(m: Record, topics: seq<string>)
    ensures Holds(HasAny("topics", StrList(topics)), m).Ok? <==> topics == [] || TopicsSearchable(m)
    ensures topics == [] || TopicsSearchable(m) ==>
      Holds(HasAny("topics", StrList(topics)), m) == Ok(SharesTopic(m, topics))
  {
    var items := StrList(topics);
    if topics != [] && TopicsSearchable(m) {
      var v := TopicsField(m).value;
      AnyInDecided(items, v);
      if exists i :: 0 <= i < |items| && In(items[i], v) == Ok(true) {
        var i :| 0 <= i < |items| && In(items[i], v) == Ok(true);
        assert In(VStr(topics[i]), v) == Ok(true);
      }
      if SharesTopic(m, topics) {
        var i :| 0 <= i < |topics| && In(VStr(topics[i]), v) == Ok(true);
        assert In(items[i], v) == Ok(true);
      }
    } else if topics != [] && TopicsField(m).Ok? {
      assert In(items[0], TopicsField(m).value).Err?;
    }
  }

  /** A filter of one condition keeps what the condition passes. */
  lemma KeepOne(c: Condition, m: Record)
    ensures Keep([c], [], m) == Holds(c, m)
  {
    AllHoldCons(c, [], m);
    assert [c] + [] == [c];
  }

  /** A filter of several conditions evaluates the first, then the rest
      only if it passed. */
  lemma KeepCons(c: Condition, cs: seq<Condition>, m: Record)
    ensures Keep([c] + cs, [], m) ==
      match Holds(c, m)
      case Err(e) => Err(e)
      case Ok(b) => if b then Keep(cs, [], m) else Ok(false)
  {
    AllHoldCons(c, cs, m);
  }

  /** What `emotional_momentum` can judge without raising: the sentiment
      is read only once the intensity matched. */
  predicate MomentumDecided(m: Record) {
    Readable(m, "emotional_intensity") &&
    (FieldIs(m, "emotional_intensity", "high") ==> NumberOrNone(m, "sentiment_score"))
  }

  predicate MomentumKeeps(m: Record) {
    FieldIs(m, "emotional_intensity", "high") && NumberAtMost(m, "sentiment_score", -0.7)
  }

  /** What `context_weighted` can judge: the importance is read only for
      disclosures. */
  predicate WeightedDecided(m: Record) {
    Readable(m, "disclosure") && (FlagSet(m, "disclosure") ==> NumberOrNone(m, "importance"))
  }

  predicate WeightedKeeps(m: Record) {
    FlagSet(m, "disclosure") && NumberAtLeast(m, "importance", 0.7)
  }

  /** What `memory_surface` can judge: each field is read only once the
      earlier ones matched. */
  predicate SurfaceDecided(m: Record) {
    Readable(m, "ritual") &&
    (FlagSet(m, "ritual") ==>
      Readable(m, "emotional_intensity") &&
      (FieldIs(m, "emotional_intensity", "medium") ==> NumberOrNone(m, "importance")))
  }

  predicate SurfaceKeeps(m: Record) {
    FlagSet(m, "ritual") && FieldIs(m, "emotional_intensity", "medium") && NumberAtLeast(m, "importance", 0.7)
  }

  /** When the filter raises on a record exactly when `judged` fails, and
      otherwise keeps it exactly when `keep` holds, the comprehension
      raises exactly when some record is not judged and otherwise keeps
      exactly the records satisfying `keep`, in their order. */
  lemma FilterVerdict(conds: seq<Condition>, ms: seq<Record>, judged: Record -> bool, keep: Record -> bool)
    requires forall m :: m in ms ==> (Keep(conds, [], m).Ok? <==> judged(m))
    requires forall m :: m in ms && judged(m) ==> Keep(conds, [], m) == Ok(keep(m))
    ensures FilterKept(conds, [], ms).Err? <==> exists m :: m in ms && !judged(m)
    ensures FilterKept(conds, [], ms).Ok? ==> FilterKept(conds, [], ms).value == Filter(keep, ms)
  {
    if exists m :: m in ms && !judged(m) {
      var m :| m in ms && !judged(m);
      var i :| 0 <= i < |ms| && ms[i] == m;
      assert !Keep(conds, [], ms[i]).Ok?;
    }
    if FilterKept(conds, [], ms).Ok? {
      FilterKeptByPredicate(conds, [], ms, keep);
    }
  }

  /** The filter of `get_latest_messages` raises exactly on a timestamp
      that is neither None nor a date, and otherwise keeps exactly the
      results no later than `now`. */
  lemma LatestKept(ms: seq<Record>, now: DateTime)
    requires Valid(now)
    ensures var kept := FilterKept([AtMost("timestamp", VStr(Format(now)))], [], ms);
      (kept.Err? <==> exists m :: m in ms && !DateOrNone(m)) &&
      (kept.Ok? ==> kept.value == Filter((m: Record) => NoLaterThan(m, now), ms))
  {
    var conds := [AtMost("timestamp", VStr(Format(now)))];
    forall m | m in ms
      ensures Keep(conds, [], m).Ok? <==> DateOrNone(m)
      ensures DateOrNone(m) ==> Keep(conds, [], m) == Ok(NoLaterThan(m, now))
    {
      KeepOne(AtMost("timestamp", VStr(Format(now))), m);
      DateVerdict(m, now);
    }
    FilterVerdict(conds, ms, (m: Record) => DateOrNone(m), (m: Record) => NoLaterThan(m, now));
  }

  /** Sorting the results no later than `now` by timestamp raises exactly
      when one of them has a top-level timestamp that is a non-empty
      non-date. */
  lemma LatestSortFails(ms: seq<Record>, now: DateTime)
    ensures var want := Filter((m: Record) => NoLaterThan(m, now), ms);
      SortRecords(ByTimestamp, want, true).Err? <==>
        exists m :: m in ms && NoLaterThan(m, now) && SortKeyOf(ByTimestamp, m).None?
  {
    var keep := (m: Record) => NoLaterThan(m, now);
    var want := Filter(keep, ms);
    if exists m :: m in ms && NoLaterThan(m, now) && SortKeyOf(ByTimestamp, m).None? {
      var m :| m in ms && NoLaterThan(m, now) && SortKeyOf(ByTimestamp, m).None?;
      assert m in want;
      var i :| 0 <= i < |want| && want[i] == m;
    }
    if SortRecords(ByTimestamp, want, true).Err? {
      var i :| 0 <= i < |want| && SortKeyOf(ByTimestamp, want[i]).None?;
      assert want[i] in want;
      assert want[i] in ms && keep(want[i]);
    }
  }

  class MemoryExtractionService {
    const userId: string
    /** The shared `user_knowledge` table. */
    const knowledge: VectorTable

    constructor(userId: string, knowledge: VectorTable)
      ensures this.userId == userId && this.knowledge == knowledge
    {
      this.userId := userId;
      this.knowledge := knowledge;
    }

    /** `store_memory`: the (user, text) upsert with the dumped model as the
        metadata dict; `embedding` is what `generate_embedding` returned and
        `ok` is false when a database call raises, which is reported as
        False. */
    method StoreMemory(memory: MemoryVector, embedding: Embedding, ok: bool) returns (stored: bool)
      requires knowledge.Valid()
      modifies knowledge
      ensures knowledge.Valid()
      ensures stored == ok
      ensures ok ==> knowledge.rows == Upserted(old(knowledge.rows), old(knowledge.nextId), userId,
                                                memory.text, MetaDict(ModelDump(memory)), embedding)
      ensures !ok ==> knowledge.rows == old(knowledge.rows)
    {
      var r := knowledge.Upsert(userId, memory.text, MetaDict(ModelDump(memory)), embedding, ok);
      stored := r.Ok?;
    }

    /** `extract_memory` as written: the service never sets `self.agent`,
        so the attribute lookup raises AttributeError, the handler logs it
        and the method returns None without storing anything. */
    method ExtractMemoryAsWritten(message: string) returns (r: Option<MemoryVector>)
      ensures r == None
    {
      r := None;
    }

    /** `extract_memory` with an extraction agent in place: `agent` is the
        agent's output (an error when the run fails). A memory below
        importance 0.3 is dropped; otherwise its timestamp becomes `now` in
        ISO form, it is stored (the outcome of the store is not checked)
        and returned. */
    method ExtractMemory(agent: Result<MemoryVector>, now: DateTime, embedding: Embedding, ok: bool)
      returns (r: Option<MemoryVector>)
      requires Valid(now) && knowledge.Valid()
      modifies knowledge
      ensures knowledge.Valid()
      ensures agent.Err? || agent.value.importance < 0.3 ==> r == None && knowledge.rows == old(knowledge.rows)
      ensures agent.Ok? && agent.value.importance >= 0.3 ==>
        r == Some(agent.value.(timestamp := Format(now)))
      ensures r.Some? && ok ==>
        knowledge.rows == Upserted(old(knowledge.rows), old(knowledge.nextId), userId,
                                   r.value.text, MetaDict(ModelDump(r.value)), embedding)
      ensures r.Some? && !ok ==> knowledge.rows == old(knowledge.rows)
    {
      if agent.Err? || agent.value.importance < 0.3 {
        return None;
      }
      var result := agent.value.(timestamp := Format(now));
      var _ := StoreMemory(result, embedding, ok);
      r := Some(result);
    }

    /** The one-field queries: `emotional_intensity` ("emotional_intensity"
        is "high") and `mood_based_language` ("language_style" is
        "poetic"): the results whose field holds that text, in search
        order; the filter raises on a result whose field cannot be read. */
    method FieldQuery(field: string, value: string, rpc: Result<seq<Record>>) returns (r: Result<seq<Record>>)
      ensures r.Err? <==> exists m :: m in VectorSearch(rpc) && !Readable(m, field)
      ensures r.Ok? ==> r.value == Filter((m: Record) => FieldIs(m, field, value), VectorSearch(rpc))
    {
      var f := new MemoryFilter();
      f := f.Match(field, VStr(value));
      var ms := VectorSearch(rpc);
      forall m | m in ms
        ensures Keep(f.conditions, [], m).Ok? <==> Readable(m, field)
        ensures Readable(m, field) ==> Keep(f.conditions, [], m) == Ok(FieldIs(m, field, value))
      {
        KeepOne(Eq(field, VStr(value)), m);
        EqStringVerdict(m, field, value);
      }
      FilterVerdict(f.conditions, ms, (m: Record) => Readable(m, field), (m: Record) => FieldIs(m, field, value));
      r := f.Apply(ms);
    }

    /** `emotional_intensity`: the search results filed as "high"
        intensity, in search order; the filter raises on a result whose
        field cannot be read. */
    method EmotionalIntensity(rpc: Result<seq<Record>>) returns (r: Result<seq<Record>>)
      ensures r.Err? <==> exists m :: m in VectorSearch(rpc) && !Readable(m, "emotional_intensity")
      ensures r.Ok? ==> r.value == Filter((m: Record) => FieldIs(m, "emotional_intensity", "high"), VectorSearch(rpc))
    {
      r := FieldQuery("emotional_intensity", "high", rpc);
    }

    /** `get_latest_messages`: the results whose timestamp (read metadata
        first) is a date no later than `now`, newest first by the
        top-level timestamp. The filter raises on a timestamp that is
        neither None nor a date; the sort raises on a kept result whose
        top-level timestamp is a non-empty non-date. */
    method GetLatestMessages(rpc: Result<seq<Record>>, now: DateTime) returns (r: Result<seq<Record>>)
      requires Valid(now)
      ensures r.Err? <==>
        (exists m :: m in VectorSearch(rpc) && !DateOrNone(m)) ||
        (exists m :: m in VectorSearch(rpc) && NoLaterThan(m, now) && SortKeyOf(ByTimestamp, m).None?)
      ensures r.Ok? ==>
        multiset(r.value) == multiset(Filter((m: Record) => NoLaterThan(m, now), VectorSearch(rpc)))
      ensures r.Ok? ==> forall i, j :: 0 <= i < j < |r.value| ==>
        KeyedBefore(ByTimestamp, r.value[i], r.value[j], true)
    {
      var f := new MemoryFilter();
      f := f.LessThanOrEqual("timestamp", VStr(Format(now)));
      var _ := f.SortByDate("desc");
      var ms := VectorSearch(rpc);
      LatestKept(ms, now);
      LatestSortFails(ms, now);
      assert f.conditions == [AtMost("timestamp", VStr(Format(now)))] && f.orConditions == [];
      assert f.sortOrder == Some(Desc) && f.sortKey == ByTimestamp;
      r := f.Apply(ms);
    }

    /** `emotional_momentum`: "high" intensity and sentiment at most -0.7,
        in search order. */
    method EmotionalMomentum(rpc: Result<seq<Record>>) returns (r: Result<seq<Record>>)
      ensures r.Err? <==> exists m :: m in VectorSearch(rpc) && !MomentumDecided(m)
      ensures r.Ok? ==> r.value == Filter(MomentumKeeps, VectorSearch(rpc))
    {
      var f := new MemoryFilter();
      f := f.Match("emotional_intensity", VStr("high"));
      f := f.LessThanOrEqual("sentiment_score", VNum(-0.7));
      var ms := VectorSearch(rpc);
      var c0, c1 := Eq("emotional_intensity", VStr("high")), AtMost("sentiment_score", VNum(-0.7));
      assert f.conditions == [c0] + [c1];
      forall m | m in ms
        ensures Keep(f.conditions, [], m).Ok? <==> MomentumDecided(m)
        ensures MomentumDecided(m) ==> Keep(f.conditions, [], m) == Ok(MomentumKeeps(m))
      {
        KeepCons(c0, [c1], m);
        KeepOne(c1, m);
        EqStringVerdict(m, "emotional_intensity", "high");
        NumberVerdict(m, "sentiment_score", -0.7);
      }
      FilterVerdict(f.conditions, ms, MomentumDecided, MomentumKeeps);
      r := f.Apply(ms);
    }

    /** `context_weighted`: disclosures with importance at least 0.7, in
        search order. */
    method ContextWeighted(rpc: Result<seq<Record>>) returns (r: Result<seq<Record>>)
      ensures r.Err? <==> exists m :: m in VectorSearch(rpc) && !WeightedDecided(m)
      ensures r.Ok? ==> r.value == Filter(WeightedKeeps, VectorSearch(rpc))
    {
      var f := new MemoryFilter();
      f := f.Match("disclosure", VBool(true));
      f := f.GreaterThanOrEqual("importance", VNum(0.7));
      var ms := VectorSearch(rpc);
      var c0, c1 := Eq("disclosure", VBool(true)), AtLeast("importance", VNum(0.7));
      assert f.conditions == [c0] + [c1];
      forall m | m in ms
        ensures Keep(f.conditions, [], m).Ok? <==> WeightedDecided(m)
        ensures WeightedDecided(m) ==> Keep(f.conditions, [], m) == Ok(WeightedKeeps(m))
      {
        KeepCons(c0, [c1], m);
        KeepOne(c1, m);
        EqTrueVerdict(m, "disclosure");
        NumberVerdict(m, "importance", 0.7);
      }
      FilterVerdict(f.conditions, ms, WeightedDecided, WeightedKeeps);
      r := f.Apply(ms);
    }

    /** `mood_based_language`: the memories in the "poetic" style, in
        search order. */
    method MoodBasedLanguage(rpc: Result<seq<Record>>) returns (r: Result<seq<Record>>)
      ensures r.Err? <==> exists m :: m in VectorSearch(rpc) && !Readable(m, "language_style")
      ensures r.Ok? ==> r.value == Filter((m: Record) => FieldIs(m, "language_style", "poetic"), VectorSearch(rpc))
    {
      r := FieldQuery("language_style", "poetic", rpc);
    }

    /** `memory_surface`: rituals of "medium" intensity with importance at
        least 0.7, in search order. */
    method MemorySurface(rpc: Result<seq<Record>>) returns (r: Result<seq<Record>>)
      ensures r.Err? <==> exists m :: m in VectorSearch(rpc) && !SurfaceDecided(m)
      ensures r.Ok? ==> r.value == Filter(SurfaceKeeps, VectorSearch(rpc))
    {
      var f := new MemoryFilter();
      f := f.Match("ritual", VBool(true));
      f := f.Match("emotional_intensity", VStr("medium"));
      f := f.GreaterThanOrEqual("importance", VNum(0.7));
      var ms := VectorSearch(rpc);
      var c0, c1, c2 := Eq("ritual", VBool(true)), Eq("emotional_intensity", VStr("medium")),
                        AtLeast("importance", VNum(0.7));
      assert f.conditions == [c0] + ([c1] + [c2]);
      forall m | m in ms
        ensures Keep(f.conditions, [], m).Ok? <==> SurfaceDecided(m)
        ensures SurfaceDecided(m) ==> Keep(f.conditions, [], m) == Ok(SurfaceKeeps(m))
      {
        KeepCons(c0, [c1] + [c2], m);
        KeepCons(c1, [c2], m);
        KeepOne(c2, m);
        EqTrueVerdict(m, "ritual");
        EqStringVerdict(m, "emotional_intensity", "medium");
        NumberVerdict(m, "importance", 0.7);
      }
      FilterVerdict(f.conditions, ms, SurfaceDecided, SurfaceKeeps);
      r := f.Apply(ms);
    }

    /** The one-flag queries: `rituals` ("ritual"), `boundaries`
        ("boundary_discussion") and `self_awareness` ("self_awareness"):
        the results with the flag set, in search order. */
    method FlagQuery(flag: string, rpc: Result<seq<Record>>) returns (r: Result<seq<Record>>)
      ensures r.Err? <==> exists m :: m in VectorSearch(rpc) && !Readable(m, flag)
      ensures r.Ok? ==> r.value == Filter((m: Record) => FlagSet(m, flag), VectorSearch(rpc))
    {
      var f := new MemoryFilter();
      f := f.Match(flag, VBool(true));
      var ms := VectorSearch(rpc);
      forall m | m in ms
        ensures Keep(f.conditions, [], m).Ok? <==> Readable(m, flag)
        ensures Readable(m, flag) ==> Keep(f.conditions, [], m) == Ok(FlagSet(m, flag))
      {
        KeepOne(Eq(flag, VBool(true)), m);
        EqTrueVerdict(m, flag);
      }
      FilterVerdict(f.conditions, ms, (m: Record) => Readable(m, flag), (m: Record) => FlagSet(m, flag));
      r := f.Apply(ms);
    }

    /** `rituals` */
    method Rituals(rpc: Result<seq<Record>>) returns (r: Result<seq<Record>>)
      ensures r.Err? <==> exists m :: m in VectorSearch(rpc) && !Readable(m, "ritual")
      ensures r.Ok? ==> r.value == Filter((m: Record) => FlagSet(m, "ritual"), VectorSearch(rpc))
    {
      r := FlagQuery("ritual", rpc);
    }

    /** `boundaries` */
    method Boundaries(rpc: Result<seq<Record>>) returns (r: Result<seq<Record>>)
      ensures r.Err? <==> exists m :: m in VectorSearch(rpc) && !Readable(m, "boundary_discussion")
      ensures r.Ok? ==> r.value == Filter((m: Record) => FlagSet(m, "boundary_discussion"), VectorSearch(rpc))
    {
      r := FlagQuery("boundary_discussion", rpc);
    }

    /** `self_awareness` */
    method SelfAwareness(rpc: Result<seq<Record>>) returns (r: Result<seq<Record>>)
      ensures r.Err? <==> exists m :: m in VectorSearch(rpc) && !Readable(m, "self_awareness")
      ensures r.Ok? ==> r.value == Filter((m: Record) => FlagSet(m, "self_awareness"), VectorSearch(rpc))
    {
      r := FlagQuery("self_awareness", rpc);
    }

    /** `topics`: the memories whose topic field contains one of `topics`,
        in search order; with no topics nothing is read and nothing kept. */
    method Topics(rpc: Result<seq<Record>>, topics: seq<string>) returns (r: Result<seq<Record>>)
      ensures r.Err? <==> topics != [] && exists m :: m in VectorSearch(rpc) && !TopicsSearchable(m)
      ensures r.Ok? ==> r.value == Filter((m: Record) => SharesTopic(m, topics), VectorSearch(rpc))
      ensures topics == [] ==> r == Ok([])
    {
      var items := StrList(topics);
      var f := new MemoryFilter();
      f := f.ContainsAny("topics", items);
      var ms := VectorSearch(rpc);
      forall m | m in ms
        ensures Keep(f.conditions, [], m).Ok? <==> topics == [] || TopicsSearchable(m)
        ensures topics == [] || TopicsSearchable(m) ==> Keep(f.conditions, [], m) == Ok(SharesTopic(m, topics))
      {
        KeepOne(HasAny("topics", items), m);
        TopicsVerdict(m, topics);
      }
      FilterVerdict(f.conditions, ms, (m: Record) => topics == [] || TopicsSearchable(m),
                    (m: Record) => SharesTopic(m, topics));
      r := f.Apply(ms);
      if topics == [] {
        NothingPassesEmptyAny(f.conditions, ms);
      }
    }
  }

  /** `contains_any` with no items passes no record, without looking at
      any field, so the filter returns []. */
  lemma {:induction false} NothingPassesEmptyAny(conds: seq<Condition>, ms: seq<Record>)
    requires |conds| == 1 && conds[0].HasAny? && conds[0].items == []
    ensures FilterKept(conds, [], ms) == Ok([])
  {
    if ms != [] {
      NothingPassesEmptyAny(conds, ms[1..]);
      assert Holds(conds[0], ms[0]) == Ok(false);
    }
  }
}
