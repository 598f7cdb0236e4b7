/** `get_relation_type`: the fixed table of rules that labels an edge
    between two memories from their metadata dicts. The rules are evaluated
    in source order with Python's short-circuit `and`; a rule that raises
    (a non-iterable topic list, arithmetic on a non-number, `>` between
    incomparable timestamps) makes the whole call raise. */
module RelationTypes {
  import opened Wrappers
  import opened PyValues
  import opened IsoDate

  /** A set element as Python hashes it: `True` and `1` are one element. */
  function Hashed(v: Value): Value {
    if v.VBool? then VNum(if v.b then 1.0 else 0.0) else v
  }

  /** `set(memory.get("topics", []))`: a list gives its elements (lists and
      dicts inside it are unhashable), a string its characters, a dict its
      keys; anything else is not iterable. */
  function TopicSet(m: Record): (r: Result<set<Value>>)
    ensures r.Err? ==> r.error == TypeError
    ensures "topics" !in m ==> r == Ok({})
  {
    match Get(m, "topics", VList([]))
    case VList(xs) =>
      if xs == [] then Ok({})
      else if exists i :: 0 <= i < |xs| && (xs[i].VList? || xs[i].VDict?) then Err(TypeError)
      else Ok(set i | 0 <= i < |xs| :: Hashed(xs[i]))
    case VStr(s) => Ok(set i | 0 <= i < |s| :: VStr([s[i]]))
    case VDict(d) => Ok(set k | k in d :: VStr(k))
    case _ => Err(TypeError)
  }

  /** The topics both memories share. */
  function Shared(a: Record, b: Record): Result<set<Value>> {
    match TopicSet(a)
    case Err(e) => Err(e)
    case Ok(sa) =>
      match TopicSet(b)
      case Err(e) => Err(e)
      case Ok(sb) => Ok(sa * sb)
  }

  /** The truth value of the shared-topic set. */
  function ShareTopic(a: Record, b: Record): Result<bool> {
    match Shared(a, b)
    case Err(e) => Err(e)
    case Ok(s) => Ok(s != {})
  }

  /** `memory.get(key, 0)` used in arithmetic: non-numbers raise TypeError. */
  function Num(m: Record, key: string): Result<real> {
    match NumOf(Get(m, key, VNum(0.0)))
    case Some(x) => Ok(x)
    case None => Err(TypeError)
  }

  function Abs(x: real): real {
    if x < 0.0 then -x else x
  }

  /** `abs(a.get(key, 0) - b.get(key, 0))` */
  function Gap(a: Record, b: Record, key: string): Result<real> {
    match Num(a, key)
    case Err(e) => Err(e)
    case Ok(x) =>
      match Num(b, key)
      case Err(e) => Err(e)
      case Ok(y) => Ok(Abs(x - y))
  }

  /** Python's `x > y` for the values a timestamp can hold. */
  function Greater(x: Value, y: Value): Result<bool> {
    if NumOf(x).Some? && NumOf(y).Some? then Ok(NumOf(x).value > NumOf(y).value)
    else if x.VStr? && y.VStr? then Ok(StrLt(y.s, x.s))
    else Err(TypeError)
  }

  function Field(m: Record, key: string): Value {
    Get(m, key, VNone)
  }

  // -----------------------------------------------------------------------
  // The rules, in source order

  function RecallsRule(a: Record, b: Record): Result<bool> {
    if !(Truthy(Field(a, "disclosure")) && Truthy(Field(b, "disclosure"))) then Ok(false)
    else
      match ShareTopic(a, b)
      case Err(e) => Err(e)
      case Ok(s) =>
        Ok(s && PyEq(Field(a, "language_style"), VStr("reflective"))
             && PyEq(Field(b, "language_style"), VStr("reflective")))
  }

  function SelfReferenceRule(a: Record, b: Record): Result<bool> {
    Ok(Truthy(Field(a, "self_awareness")) && Truthy(Field(b, "self_awareness")))
  }

  function BuildsOnRule(a: Record, b: Record): Result<bool> {
    if !(Truthy(Field(a, "recurring_theme")) && Truthy(Field(b, "recurring_theme"))) then Ok(false)
    else
      match ShareTopic(a, b)
      case Err(e) => Err(e)
      case Ok(s) => if !s then Ok(false) else Greater(Field(b, "timestamp"), Field(a, "timestamp"))
  }

  /** Checked only inside `builds_on`. */
  function EvolvesRule(a: Record, b: Record): Result<bool> {
    if BuildsOnRule(a, b) != Ok(true) then Ok(false)
    else
      match Gap(a, b, "sentiment_score")
      case Err(e) => Err(e)
      case Ok(g) => Ok(g > 0.5)
  }

  function EmotionallyLinkedRule(a: Record, b: Record): Result<bool> {
    if !PyEq(Field(a, "emotional_intensity"), Field(b, "emotional_intensity")) then Ok(false)
    else ShareTopic(a, b)
  }

  function EmotionalShiftRule(a: Record, b: Record): Result<bool> {
    match Gap(a, b, "sentiment_score")
    case Err(e) => Err(e)
    case Ok(g) => if g > 0.6 then ShareTopic(a, b) else Ok(false)
  }

  function ComfortZoneRule(a: Record, b: Record): Result<bool> {
    if !(Truthy(Field(a, "ritual")) && PyEq(Field(a, "emotional_intensity"), VStr("low"))) then Ok(false)
    else
      match Num(a, "sentiment_score")
      case Err(e) => Err(e)
      case Ok(x) => Ok(x >= 0.0 && PyEq(Field(b, "emotional_intensity"), VStr("high")))
  }

  /** A product with a non-number either raises or yields a sequence that
      `< 0` rejects: TypeError either way. */
  function ContradictsRule(a: Record, b: Record): Result<bool> {
    match Num(a, "sentiment_score")
    case Err(e) => Err(e)
    case Ok(x) =>
      match Num(b, "sentiment_score")
      case Err(e) => Err(e)
      case Ok(y) => if x * y < 0.0 then ShareTopic(a, b) else Ok(false)
  }

  function BoundaryViolationRule(a: Record, b: Record): Result<bool> {
    Ok(Truthy(Field(a, "boundary_discussion")) && PyEq(Field(b, "emotional_intensity"), VStr("high")))
  }

  function HabitualRule(a: Record, b: Record): Result<bool> {
    if !(Truthy(Field(a, "ritual")) && Truthy(Field(b, "ritual"))) then Ok(false)
    else ShareTopic(a, b)
  }

  function ReaffirmsRule(a: Record, b: Record): Result<bool> {
    match ShareTopic(a, b)
    case Err(e) => Err(e)
    case Ok(s) =>
      if !s then Ok(false)
      else
        match Gap(a, b, "sentiment_score")
        case Err(e) => Err(e)
        case Ok(g) =>
          if !(g < 0.1) then Ok(false)
          else
            match Gap(a, b, "importance")
            case Err(e) => Err(e)
            case Ok(h) => Ok(h < 0.1)
  }

  function TopicClusterRule(a: Record, b: Record): Result<bool> {
    match Shared(a, b)
    case Err(e) => Err(e)
    case Ok(s) => Ok(|s| >= 2)
  }

  function AbsInt(x: int): int {
    if x < 0 then -x else x
  }

  /** The intended temporal rule: both timestamps parse and lie between one
      and three whole days apart (`abs((b - a).days)`); any failure to parse
      is swallowed. */
  predicate TimeLinkedRule(a: Record, b: Record) {
    var ta := Field(a, "timestamp");
    var tb := Field(b, "timestamp");
    ta.VStr? && tb.VStr? && Parse(ta.s).Some? && Parse(tb.s).Some? &&
    0 < AbsInt(DaysBetween(Parse(ta.s).value, Parse(tb.s).value)) <= 3
  }

  /** The outcome of every rule, in source order; the temporal rule's
      outcome is given, since the code as written and the corrected code
      differ only there. */
  function Fires(a: Record, b: Record, timeLinked: bool): (f: seq<Result<bool>>)
    ensures |f| == 13 && f[12] == Ok(timeLinked)
  {
    [RecallsRule(a, b), SelfReferenceRule(a, b), BuildsOnRule(a, b), EvolvesRule(a, b),
     EmotionallyLinkedRule(a, b), EmotionalShiftRule(a, b), ComfortZoneRule(a, b), ContradictsRule(a, b),
     BoundaryViolationRule(a, b), HabitualRule(a, b), ReaffirmsRule(a, b), TopicClusterRule(a, b), Ok(timeLinked)]
  }

  /** The labels the table can produce. */
  datatype Tag = Recalls | SelfReference | BuildsOn | Evolves | EmotionallyLinked | EmotionalShift
               | ComfortZone | Contradicts | BoundaryViolation | Habitual | Reaffirms | TopicCluster
               | TimeLinked | SemanticSimilarity

  /** The string each label is returned as. */
  function Name(t: Tag): string {
    match t
    case Recalls => "recalls"
    case SelfReference => "self_reference"
    case BuildsOn => "builds_on"
    case Evolves => "evolves"
    case EmotionallyLinked => "emotionally_linked"
    case EmotionalShift => "emotional_shift"
    case ComfortZone => "comfort_zone"
    case Contradicts => "contradicts"
    case BoundaryViolation => "boundary_violation"
    case Habitual => "habitual"
    case Reaffirms => "reaffirms"
    case TopicCluster => "topic_cluster"
    case TimeLinked => "time_linked"
    case SemanticSimilarity => "semantic_similarity"
  }

  function Names(tags: seq<Tag>): (r: seq<string>)
    ensures |r| == |tags| && forall i :: 0 <= i < |tags| ==> r[i] == Name(tags[i])
  {
    seq(|tags|, i requires 0 <= i < |tags| => Name(tags[i]))
  }

  /** One rule of the table: a raise ends the call, a firing rule appends
      its tag. */
  function Step(acc: Result<seq<Tag>>, tag: Tag, fires: Result<bool>): (r: Result<seq<Tag>>)
    ensures acc.Err? ==> r == acc
    ensures acc.Ok? && fires.Err? ==> r == Err(fires.error)
    ensures acc.Ok? && fires.Ok? ==> (r.Ok? &&
                                      forall t :: t in r.value <==> (t in acc.value || (t == tag && fires.value)))
    ensures fires == Ok(false) ==> r == acc
    ensures acc.Ok? && fires == Ok(true) ==> r == Ok(acc.value + [tag])
  {
    match acc
    case Err(e) => Err(e)
    case Ok(tags) =>
      match fires
      case Err(e) => Err(e)
      case Ok(f) => Ok(if f then tags + [tag] else tags)
  }

  /** The rules' tags in source order; the fallback tag comes last. */
  const Table: seq<Tag> := [Recalls, SelfReference, BuildsOn, Evolves, EmotionallyLinked, EmotionalShift,
                            ComfortZone, Contradicts, BoundaryViolation, Habitual, Reaffirms, TopicCluster,
                            TimeLinked]

  /** Where a tag sits in the table (the fallback tag is past its end). */
  function Position(t: Tag): (i: nat)
    ensures i <= 13 && (i < 13 ==> Table[i] == t) && (i == 13 <==> t == SemanticSimilarity)
  {
    match t
    case Recalls => 0
    case SelfReference => 1
    case BuildsOn => 2
    case Evolves => 3
    case EmotionallyLinked => 4
    case EmotionalShift => 5
    case ComfortZone => 6
    case Contradicts => 7
    case BoundaryViolation => 8
    case Habitual => 9
    case Reaffirms => 10
    case TopicCluster => 11
    case TimeLinked => 12
    case SemanticSimilarity => 13
  }

  /** Each table entry sits at its own position, so no tag appears twice. */
  lemma PositionOfTable(i: nat)
    requires i < 13
    ensures Position(Table[i]) == i
  {
    if i < 4 {
      assert i == 0 || i == 1 || i == 2 || i == 3;
    } else if i < 8 {
      assert i == 4 || i == 5 || i == 6 || i == 7;
    } else {
      assert i == 8 || i == 9 || i == 10 || i == 11 || i == 12;
    }
  }

  /** The first `n` rules of the table run in source order. */
  function Collect(f: seq<Result<bool>>, n: nat): Result<seq<Tag>>
    requires n <= |f| == 13
  {
    if n == 0 then Ok([]) else Step(Collect(f, n - 1), Table[n - 1], f[n - 1])
  }

  /** The rules run without raising exactly when none of them raises, and
      a raise is one of the rules' own. */
  lemma {:induction false} CollectOk(f: seq<Result<bool>>, n: nat)
    requires n <= |f| == 13
    ensures Collect(f, n).Ok? <==> forall i :: 0 <= i < n ==> f[i].Ok?
    ensures Collect(f, n).Err? ==> exists i :: 0 <= i < n && f[i] == Err(Collect(f, n).error)
  {
    if n > 0 {
      CollectOk(f, n - 1);
    }
  }

  /** A tag is collected exactly when its rule is among the first `n` and
      fired. */
  lemma {:induction false} CollectMembers(f: seq<Result<bool>>, n: nat)
    requires n <= |f| == 13 && Collect(f, n).Ok?
    ensures forall t :: t in Collect(f, n).value <==> Position(t) < n && f[Position(t)] == Ok(true)
  {
    if n > 0 {
      CollectOk(f, n);
      CollectOk(f, n - 1);
      CollectMembers(f, n - 1);
      PositionOfTable(n - 1);
    }
  }

  /** When none of the first `n` rules fires, nothing is collected. */
  lemma {:induction false} CollectNone(f: seq<Result<bool>>, n: nat)
    requires n <= |f| == 13
    requires forall i :: 0 <= i < n ==> f[i] == Ok(false)
    ensures Collect(f, n) == Ok([])
  {
    if n > 0 {
      CollectNone(f, n - 1);
    }
  }

  /** The whole table run in source order over the rules' outcomes. */
  function Run(f: seq<Result<bool>>): (r: Result<seq<Tag>>)
    requires |f| == 13
    ensures r.Ok? <==> forall i :: 0 <= i < 13 ==> f[i].Ok?
    ensures r.Err? ==> exists i :: 0 <= i < 13 && f[i] == Err(r.error)
    ensures r.Ok? ==> forall t :: t in r.value <==> Position(t) < 13 && f[Position(t)] == Ok(true)
  {
    CollectOk(f, 13);
    if Collect(f, 13).Ok? then CollectMembers(f, 13); Collect(f, 13)
    else Collect(f, 13)
  }

  /** The list of tags, or the fallback when no rule fired. */
  function Labels(f: seq<Result<bool>>): (r: Result<seq<Tag>>)
    requires |f| == 13
    ensures r.Err? <==> Run(f).Err?
    ensures r.Ok? ==> r.value != []
    ensures r.Ok? && Run(f).value != [] ==> r.value == Run(f).value
    ensures r.Ok? && Run(f).value == [] ==> r.value == [SemanticSimilarity]
  {
    match Run(f)
    case Err(e) => Err(e)
    case Ok(tags) => Ok(if tags == [] then [SemanticSimilarity] else tags)
  }

  /** The labels `get_relation_type` computes as written: the temporal rule
      calls `fromisoformat` on the `datetime` module, which has no such
      attribute; the handler swallows the AttributeError, so the rule never
      fires. */
  function RelationTagsAsWritten(a: Record, b: Record): Result<seq<Tag>> {
    Labels(Fires(a, b, false))
  }

  /** The labels with the temporal rule parsing the timestamps. */
  function RelationTags(a: Record, b: Record): Result<seq<Tag>> {
    Labels(Fires(a, b, TimeLinkedRule(a, b)))
  }

  function NamesOf(r: Result<seq<Tag>>): (s: Result<seq<string>>)
    ensures s.Ok? <==> r.Ok?
    ensures s.Ok? ==> |s.value| == |r.value|
  {
    match r
    case Err(e) => Err(e)
    case Ok(tags) => Ok(Names(tags))
  }

  /** `get_relation_type` as written: the label strings. */
  function RelationTypeAsWritten(a: Record, b: Record): (r: Result<seq<string>>)
    ensures r.Ok? ==> r.value != []
  {
    NamesOf(RelationTagsAsWritten(a, b))
  }

  /** `get_relation_type` with the temporal rule corrected: the label
      strings, never an empty list. */
  function RelationType(a: Record, b: Record): (r: Result<seq<string>>)
    ensures r.Ok? ==> r.value != []
  {
    NamesOf(RelationTags(a, b))
  }

  // -----------------------------------------------------------------------
  // What the rules promise

  /** Over any outcomes of the rules: a rule's tag is in the labels
      exactly when that rule fired. */
  lemma LabelsOfRules(f: seq<Result<bool>>)
    requires |f| == 13 && Labels(f).Ok?
    ensures BuildsOn in Labels(f).value <==> f[2] == Ok(true)
    ensures Evolves in Labels(f).value <==> f[3] == Ok(true)
    ensures Contradicts in Labels(f).value <==> f[7] == Ok(true)
    ensures Reaffirms in Labels(f).value <==> f[10] == Ok(true)
    ensures TopicCluster in Labels(f).value <==> f[11] == Ok(true)
    ensures TimeLinked in Labels(f).value <==> f[12] == Ok(true)
  {
    if Run(f).value == [] {
      assert Labels(f).value == [SemanticSimilarity];
    }
  }

  /** Over any outcomes of the thirteen rules: the fallback list comes
      out exactly when every rule ran and none fired. */
  lemma LabelsFallback(f: seq<Result<bool>>)
    requires |f| == 13 && Labels(f).Ok?
    ensures Labels(f).value == [SemanticSimilarity] <==> forall i :: 0 <= i < 13 ==> f[i] == Ok(false)
  {
    var tags := Run(f).value;
    if tags == [] {
      forall i | 0 <= i < 13
        ensures f[i] == Ok(false)
      {
        PositionOfTable(i);
        assert f[i].Ok? && Table[i] !in tags;
        assert !f[i].value;
      }
    } else {
      assert tags[0] in tags;
    }
  }

  /** The fallback: the result is exactly [semantic_similarity] when no
      rule fires. */
  lemma FallbackExactly(a: Record, b: Record)
    requires RelationTags(a, b).Ok?
    ensures RelationTags(a, b).value == [SemanticSimilarity] <==>
      (forall i :: 0 <= i < 12 ==> Fires(a, b, false)[i] == Ok(false)) && !TimeLinkedRule(a, b)
  {
    var f := Fires(a, b, TimeLinkedRule(a, b));
    assert forall i :: 0 <= i < 12 ==> f[i] == Fires(a, b, false)[i];
    LabelsFallback(f);
  }

  /** `builds_on` needs both memories marked recurring, a shared topic and
      a later timestamp in the second memory. */
  lemma BuildsOnIff(a: Record, b: Record)
    requires RelationTags(a, b).Ok?
    ensures BuildsOn in RelationTags(a, b).value <==>
      Truthy(Field(a, "recurring_theme")) && Truthy(Field(b, "recurring_theme")) &&
      ShareTopic(a, b) == Ok(true) && Greater(Field(b, "timestamp"), Field(a, "timestamp")) == Ok(true)
  {
    var f := Fires(a, b, TimeLinkedRule(a, b));
    LabelsOfRules(f);
    assert f[2] == BuildsOnRule(a, b);
  }

  /** `evolves` only comes with `builds_on`, when the sentiment moved by
      more than 0.5. */
  lemma EvolvesNeedsBuildsOn(a: Record, b: Record)
    requires RelationTags(a, b).Ok? && Evolves in RelationTags(a, b).value
    ensures BuildsOn in RelationTags(a, b).value
    ensures Gap(a, b, "sentiment_score").Ok? && Gap(a, b, "sentiment_score").value > 0.5
  {
    var f := Fires(a, b, TimeLinkedRule(a, b));
    LabelsOfRules(f);
    assert f[3] == EvolvesRule(a, b) == Ok(true);
    assert f[2] == BuildsOnRule(a, b) == Ok(true);
  }

  /** `topic_cluster` exactly when at least two topics are shared. */
  lemma TopicClusterIff(a: Record, b: Record)
    requires RelationTags(a, b).Ok?
    ensures Shared(a, b).Ok?
    ensures TopicCluster in RelationTags(a, b).value <==> |Shared(a, b).value| >= 2
  {
    LabelsOfRules(Fires(a, b, TimeLinkedRule(a, b)));
  }

  /** `contradicts` exactly when the sentiments have opposite signs and a
      topic is shared. */
  lemma ContradictsIff(a: Record, b: Record)
    requires RelationTags(a, b).Ok?
    ensures Num(a, "sentiment_score").Ok? && Num(b, "sentiment_score").Ok?
    ensures Contradicts in RelationTags(a, b).value <==>
      Num(a, "sentiment_score").value * Num(b, "sentiment_score").value < 0.0 && ShareTopic(a, b) == Ok(true)
  {
    LabelsOfRules(Fires(a, b, TimeLinkedRule(a, b)));
  }

  /** `reaffirms` needs a shared topic and sentiment and importance both
      within 0.1 of each other. */
  lemma ReaffirmsNeeds(a: Record, b: Record)
    requires RelationTags(a, b).Ok? && Reaffirms in RelationTags(a, b).value
    ensures ShareTopic(a, b) == Ok(true)
    ensures Gap(a, b, "sentiment_score").Ok? && Gap(a, b, "sentiment_score").value < 0.1
    ensures Gap(a, b, "importance").Ok? && Gap(a, b, "importance").value < 0.1
  {
    LabelsOfRules(Fires(a, b, TimeLinkedRule(a, b)));
  }

  /** The corrected temporal rule fires exactly when the timestamps are
      one to three days apart. */
  lemma TimeLinkedIff(a: Record, b: Record)
    requires RelationTags(a, b).Ok?
    ensures TimeLinked in RelationTags(a, b).value <==> TimeLinkedRule(a, b)
  {
    LabelsOfRules(Fires(a, b, TimeLinkedRule(a, b)));
  }

  /** As written, `time_linked` never appears. */
  lemma AsWrittenNeverTimeLinked(a: Record, b: Record)
    requires RelationTagsAsWritten(a, b).Ok?
    ensures TimeLinked !in RelationTagsAsWritten(a, b).value
  {
    LabelsOfRules(Fires(a, b, false));
  }

  /** Only the temporal rule is labelled `time_linked`. */
  lemma NameTimeLinked(t: Tag)
    ensures Name(t) == "time_linked" <==> t == TimeLinked
  {
  }

  /** As written, the label list never holds the string `time_linked`. */
  lemma AsWrittenNeverTimeLinkedName(a: Record, b: Record)
    requires RelationTypeAsWritten(a, b).Ok?
    ensures "time_linked" !in RelationTypeAsWritten(a, b).value
  {
    var tags := RelationTagsAsWritten(a, b).value;
    AsWrittenNeverTimeLinked(a, b);
    forall i | 0 <= i < |tags| ensures Name(tags[i]) != "time_linked" {
      NameTimeLinked(tags[i]);
    }
  }

  /** Memories holding nothing but a timestamp trigger none of the named
      rules. */
  lemma TimestampOnlyFiresNothing(a: Record, b: Record, t: bool)
    requires a.Keys == {"timestamp"} && b.Keys == {"timestamp"}
    ensures forall i :: 0 <= i < 12 ==> Fires(a, b, t)[i] == Ok(false)
  {
    assert TopicSet(a) == Ok({}) && TopicSet(b) == Ok({});
    assert Num(a, "sentiment_score") == Ok(0.0) && Num(b, "sentiment_score") == Ok(0.0);
    assert Num(a, "importance") == Ok(0.0) && Num(b, "importance") == Ok(0.0);
    assert BuildsOnRule(a, b) == Ok(false);
    assert EvolvesRule(a, b) == Ok(false);
    assert EmotionallyLinkedRule(a, b) == Ok(false);
    assert ReaffirmsRule(a, b) == Ok(false);
  }

  /** A date and the next day, stored as ISO timestamps, are one day
      apart. */
  lemma NextDayLinked(d: DateTime, a: Record, b: Record)
    requires Valid(d) && NextDay(d).Some?
    requires a == map["timestamp" := VStr(Format(d))]
    requires b == map["timestamp" := VStr(Format(NextDay(d).value))]
    ensures TimeLinkedRule(a, b)
  {
    var e := NextDay(d).value;
    FormatParseRoundTrip(d);
    FormatParseRoundTrip(e);
    NextDayOrdinal(d);
    assert Micros(e) - Micros(d) == 86400000000;
  }

  /** Any memory and one stored a day later: the corrected rule links them,
      the code as written does not. */
  lemma TimeLinkedWitness(d: DateTime)
    requires Valid(d) && NextDay(d).Some?
    ensures var a := map["timestamp" := VStr(Format(d))];
      var b := map["timestamp" := VStr(Format(NextDay(d).value))];
      RelationTags(a, b) == Ok([TimeLinked]) &&
      RelationTagsAsWritten(a, b) == Ok([SemanticSimilarity])
  {
    var a := map["timestamp" := VStr(Format(d))];
    var b := map["timestamp" := VStr(Format(NextDay(d).value))];
    NextDayLinked(d, a, b);
    TimestampOnlyFiresNothing(a, b, true);
    TimestampOnlyFiresNothing(a, b, false);
    RunNone(Fires(a, b, false));
    RunOnlyLast(Fires(a, b, true));
  }

  /** When no rule fires, nothing is collected. */
  lemma RunNone(f: seq<Result<bool>>)
    requires |f| == 13 && f[12] == Ok(false)
    requires forall i :: 0 <= i < 12 ==> f[i] == Ok(false)
    ensures Run(f) == Ok([])
  {
    CollectNone(f, 13);
  }

  /** When only the temporal rule fires, its tag is the whole result. */
  lemma RunOnlyLast(f: seq<Result<bool>>)
    requires |f| == 13 && f[12] == Ok(true)
    requires forall i :: 0 <= i < 12 ==> f[i] == Ok(false)
    ensures Run(f) == Ok([TimeLinked])
  {
    CollectNone(f, 12);
    assert [] + [TimeLinked] == [TimeLinked];
  }
}
