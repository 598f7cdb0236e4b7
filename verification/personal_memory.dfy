/** The personal-agent memory service: memories carry their flags in a
    nested `metadata` model, are stored as JSON text, and the canned
    queries build Mongo-style filter dicts that the search then ignores. */
module PersonalMemory {
  import opened Wrappers
  import opened PyValues
  import opened IsoDate
  import opened VectorStore
  import MemoryExtraction

  datatype MemoryMetadata = MemoryMetadata(
    disclosure: bool, recurringTheme: bool, boundaryDiscussion: bool,
    ritual: bool, selfAwareness: bool, languageStyle: string)

  datatype MemoryVector = MemoryVector(
    text: string, timestamp: string, sentimentScore: real, topics: seq<string>,
    emotionalIntensity: string, importance: real, metadata: MemoryMetadata)

  function MetadataDump(m: MemoryMetadata): Record {
    map["disclosure" := VBool(m.disclosure), "recurring_theme" := VBool(m.recurringTheme),
        "boundary_discussion" := VBool(m.boundaryDiscussion), "ritual" := VBool(m.ritual),
        "self_awareness" := VBool(m.selfAwareness), "language_style" := VStr(m.languageStyle)]
  }

  /** `memory.model_dump()`: the metadata model becomes a nested dict. */
  function ModelDump(m: MemoryVector): (d: Record)
    ensures d.Keys == {"text", "timestamp", "sentiment_score", "topics", "emotional_intensity",
                       "importance", "metadata"}
    ensures d["metadata"] == VDict(MetadataDump(m.metadata))
  {
    map["text" := VStr(m.text), "timestamp" := VStr(m.timestamp),
        "sentiment_score" := VNum(m.sentimentScore), "topics" := VList(MemoryExtraction.StrList(m.topics)),
        "emotional_intensity" := VStr(m.emotionalIntensity), "importance" := VNum(m.importance),
        "metadata" := VDict(MetadataDump(m.metadata))]
  }

  /** The flags as a later reader of the stored JSON sees them: the nested
      dict's entries, reached through the `metadata` key. */
  lemma DumpKeepsFlags(m: MemoryVector)
    ensures var d := ModelDump(m);
      d["metadata"].VDict? &&
      d["metadata"].entries["disclosure"] == VBool(m.metadata.disclosure) &&
      d["metadata"].entries["recurring_theme"] == VBool(m.metadata.recurringTheme) &&
      d["metadata"].entries["boundary_discussion"] == VBool(m.metadata.boundaryDiscussion) &&
      d["metadata"].entries["ritual"] == VBool(m.metadata.ritual) &&
      d["metadata"].entries["self_awareness"] == VBool(m.metadata.selfAwareness) &&
      d["metadata"].entries["language_style"] == VStr(m.metadata.languageStyle)
  {
  }

  /** `relative_date`: the ISO form of `days_ago` days before `now` with
      "Z" appended; leaving the calendar's range raises OverflowError. */
  function RelativeDate(now: DateTime, daysAgo: int): (r: Result<string>)
    requires Valid(now)
    ensures r.Err? <==> MinusDays(now, daysAgo).None?
    ensures r.Err? ==> r.error == OverflowError
    ensures r.Ok? ==> |r.value| > 0 && r.value[|r.value| - 1] == 'Z'
    ensures r.Ok? ==> var back := Parse(r.value[..|r.value| - 1]);
      back.Some? && DayOrdinal(back.value) == DayOrdinal(now) - daysAgo &&
      back.value.hour == now.hour && back.value.minute == now.minute &&
      back.value.second == now.second && back.value.micro == now.micro
  {
    match MinusDays(now, daysAgo)
    case None => Err(OverflowError)
    case Some(d) =>
      MinusDaysShiftsOrdinal(now, daysAgo);
      FormatParseRoundTrip(d);
      var s := Format(d) + "Z";
      assert s[..|s| - 1] == Format(d);
      Ok(s)
  }

  /** `vector_search`: the similarity RPC for the user and the query's
      embedding; `filters` is accepted but never sent, and any error
      yields []. */
  function VectorSearch(filters: Record, rpc: Result<seq<Record>>): (r: seq<Record>)
    ensures rpc.Err? ==> r == []
    ensures rpc.Ok? ==> r == rpc.value
  {
    match rpc
    case Err(_) => []
    case Ok(data) => data
  }

  /** The filter dict has no influence on what the search returns. */
  lemma FiltersIgnored(f: Record, g: Record, rpc: Result<seq<Record>>)
    ensures VectorSearch(f, rpc) == VectorSearch(g, rpc)
  {
  }

  function Gte(v: Value): Value { VDict(map["$gte" := v]) }
  function Lte(v: Value): Value { VDict(map["$lte" := v]) }
  function AnyOf(vs: seq<Value>): Value { VDict(map["$in" := VList(vs)]) }

  /** The filter `emotional_momentum` builds. */
  function EmotionalMomentumFilter(now: DateTime, daysAgo: int): (r: Result<Record>)
    requires Valid(now)
    ensures r.Err? <==> RelativeDate(now, daysAgo).Err?
    ensures r.Ok? ==> r.value.Keys == {"timestamp", "emotional_intensity", "sentiment_score"}
    ensures r.Ok? ==> r.value["timestamp"] == Gte(VStr(RelativeDate(now, daysAgo).value))
    ensures r.Ok? ==> r.value["emotional_intensity"] == VStr("high")
    ensures r.Ok? ==> r.value["sentiment_score"] == Lte(VNum(-0.7))
  {
    match RelativeDate(now, daysAgo)
    case Err(e) => Err(e)
    case Ok(start) =>
      Ok(map["timestamp" := Gte(VStr(start)), "emotional_intensity" := VStr("high"),
             "sentiment_score" := Lte(VNum(-0.7))])
  }

  /** The filter `context_weighted` builds: any of the three markers, and
      a lower bound on the timestamp. */
  function ContextWeightedFilter(now: DateTime, daysAgo: int): (r: Result<Record>)
    requires Valid(now)
    ensures r.Err? <==> RelativeDate(now, daysAgo).Err?
    ensures r.Ok? ==> r.value.Keys == {"$or", "timestamp"}
    ensures r.Ok? ==> r.value["timestamp"] == Gte(VStr(RelativeDate(now, daysAgo).value))
    ensures r.Ok? ==> r.value["$or"] == VList([VDict(map["metadata.disclosure" := VBool(true)]),
                                               VDict(map["metadata.recurring_theme" := VBool(true)]),
                                               VDict(map["emotional_intensity" := VStr("high")])])
  {
    match RelativeDate(now, daysAgo)
    case Err(e) => Err(e)
    case Ok(start) =>
      Ok(map["$or" := VList([VDict(map["metadata.disclosure" := VBool(true)]),
                             VDict(map["metadata.recurring_theme" := VBool(true)]),
                             VDict(map["emotional_intensity" := VStr("high")])]),
             "timestamp" := Gte(VStr(start))])
  }

  /** The constant filters of the remaining queries. */
  function MoodBasedLanguageFilter(): Record {
    map["metadata.language_style" := AnyOf([VStr("poetic"), VStr("metaphorical")])]
  }

  function MemorySurfaceFilter(): Record {
    map["topics" := AnyOf([VStr("friendship"), VStr("connection"), VStr("intimacy")]),
        "emotional_intensity" := AnyOf([VStr("medium"), VStr("high")])]
  }

  function FlagFilter(flag: string): Record {
    map["metadata." + flag := VBool(true)]
  }

  function EmotionalIntensityFilter(): Record {
    map["emotional_intensity" := VStr("high")]
  }

  class PersonalMemoryService {
    const userId: string
    const knowledge: VectorTable

    constructor(userId: string, knowledge: VectorTable)
      ensures this.userId == userId && this.knowledge == knowledge
    {
      this.userId := userId;
      this.knowledge := knowledge;
    }

    /** `store_memory`: the (user, text) upsert, with the dumped model
        written as JSON text; `ok` is false when a database call raises,
        which is reported as False. */
    method StoreMemory(memory: MemoryVector, embedding: Embedding, ok: bool) returns (stored: bool)
      requires knowledge.Valid()
      modifies knowledge
      ensures knowledge.Valid()
      ensures stored == ok
      ensures ok ==> knowledge.rows == Upserted(old(knowledge.rows), old(knowledge.nextId), userId,
                                                memory.text, MetaJson(ModelDump(memory)), embedding)
      ensures !ok ==> knowledge.rows == old(knowledge.rows)
    {
      var r := knowledge.Upsert(userId, memory.text, MetaJson(ModelDump(memory)), embedding, ok);
      stored := r.Ok?;
    }

    /** `extract_memory`: `agent` is the extraction agent's output (an
        error when the run or the validation fails). Memories below
        importance 0.3 are dropped; the others get `now` as their
        timestamp and are stored before being returned. */
    method ExtractMemory(agent: Result<MemoryVector>, now: DateTime, embedding: Embedding, ok: bool)
      returns (r: Option<MemoryVector>)
      requires Valid(now) && knowledge.Valid()
      modifies knowledge
      ensures knowledge.Valid()
      ensures agent.Err? || agent.value.importance < 0.3 ==> r == None && knowledge.rows == old(knowledge.rows)
      ensures agent.Ok? && agent.value.importance >= 0.3 ==>
        r == Some(agent.value.(timestamp := Format(now)))
      ensures r.Some? && ok ==>
        knowledge.rows == Upserted(old(knowledge.rows), old(knowledge.nextId), userId,
                                   r.value.text, MetaJson(ModelDump(r.value)), embedding)
      ensures r.Some? && !ok ==> knowledge.rows == old(knowledge.rows)
    {
      if agent.Err? || agent.value.importance < 0.3 {
        return None;
      }
      var result := agent.value.(timestamp := Format(now));
      var _ := StoreMemory(result, embedding, ok);
      r := Some(result);
    }

    /** `emotional_momentum`: the similarity results, unfiltered; only the
        start date can fail. */
    method EmotionalMomentum(now: DateTime, daysAgo: int, rpc: Result<seq<Record>>)
      returns (r: Result<seq<Record>>)
      requires Valid(now)
      ensures r.Err? <==> MinusDays(now, daysAgo).None?
      ensures r.Ok? ==> r.value == VectorSearch(map[], rpc)
    {
      var filters := EmotionalMomentumFilter(now, daysAgo);
      if filters.Err? {
        return Err(filters.error);
      }
      r := Ok(VectorSearch(filters.value, rpc));
    }

    /** `context_weighted`: likewise. */
    method ContextWeighted(now: DateTime, daysAgo: int, rpc: Result<seq<Record>>)
      returns (r: Result<seq<Record>>)
      requires Valid(now)
      ensures r.Err? <==> MinusDays(now, daysAgo).None?
      ensures r.Ok? ==> r.value == VectorSearch(map[], rpc)
    {
      var filters := ContextWeightedFilter(now, daysAgo);
      if filters.Err? {
        return Err(filters.error);
      }
      r := Ok(VectorSearch(filters.value, rpc));
    }
  }
}
