/** OCEAN (Big Five) analysis: a rolling average of five scores in [0, 1]
    in which each new analysis weighs 1.2 against the count of earlier
    ones, and the trait report built from the scores. The analysing agent
    is an oracle whose answer arrives as a parameter; the `ocean` table is
    a map from user id. */
module OceanAnalysis {
  import opened Wrappers

  /** `Ocean`, the stored model. */
  datatype Ocean = Ocean(openness: real, conscientiousness: real, extraversion: real,
                         agreeableness: real, neuroticism: real, responseCount: nat)

  /** `Ocean()` */
  const Default := Ocean(0.0, 0.0, 0.0, 0.0, 0.0, 0)

  /** `OceanResponse`, one analysis of one message. */
  datatype OceanResponse = OceanResponse(openness: real, conscientiousness: real, extraversion: real,
                                         agreeableness: real, neuroticism: real)

  datatype Trait = Openness | Conscientiousness | Extraversion | Agreeableness | Neuroticism

  function Score(o: Ocean, t: Trait): real {
    match t
    case Openness => o.openness
    case Conscientiousness => o.conscientiousness
    case Extraversion => o.extraversion
    case Agreeableness => o.agreeableness
    case Neuroticism => o.neuroticism
  }

  function Observed(r: OceanResponse, t: Trait): real {
    match t
    case Openness => r.openness
    case Conscientiousness => r.conscientiousness
    case Extraversion => r.extraversion
    case Agreeableness => r.agreeableness
    case Neuroticism => r.neuroticism
  }

  /** The weight of the newest response. */
  const NewWeight: real := 1.2

  /** `update_dimension`: the first value is taken as it is; later ones
      weigh `NewWeight` against the count of earlier ones. */
  function Weighted(average: real, n: nat, x: real): real {
    if n == 0 then x else (average * n as real + x * NewWeight) / (n as real + NewWeight)
  }

  /** `update_ocean_rolling_average` */
  function Updated(o: Ocean, r: OceanResponse): Ocean {
    var n := o.responseCount;
    Ocean(Weighted(o.openness, n, r.openness),
          Weighted(o.conscientiousness, n, r.conscientiousness),
          Weighted(o.extraversion, n, r.extraversion),
          Weighted(o.agreeableness, n, r.agreeableness),
          Weighted(o.neuroticism, n, r.neuroticism),
          n + 1)
  }

  /** `get_trait_description(...)`, without the score's rounding. */
  datatype TraitDescription = TraitDescription(level: string, score: real, description: string)

  /** The key a trait has in the report. */
  function TraitName(t: Trait): string {
    match t
    case Openness => "openness"
    case Conscientiousness => "conscientiousness"
    case Extraversion => "extraversion"
    case Agreeableness => "agreeableness"
    case Neuroticism => "neuroticism"
  }

  /** `descriptions[trait][level]` */
  function Description(t: Trait, high: bool): string {
    match t
    case Openness => if high then "Curious and open to new experiences" else "Traditional and prefers routine"
    case Conscientiousness => if high then "Organized and goal-oriented" else "Flexible and spontaneous"
    case Extraversion => if high then "Outgoing and sociable" else "Reserved and introspective"
    case Agreeableness => if high then "Compassionate and cooperative" else "Direct and self-focused"
    case Neuroticism => if high then "Emotionally sensitive" else "Emotionally stable"
  }

  /** `get_trait_description` */
  function Describe(score: real, t: Trait): TraitDescription {
    var high := score >= 0.5;
    TraitDescription(if high then "High" else "Low", score, Description(t, high))
  }

  /** `get_personality_traits`: one description per trait, keyed by the
      trait's name. */
  function PersonalityTraits(o: Ocean): (r: map<string, TraitDescription>)
    ensures forall t: Trait :: TraitName(t) in r && r[TraitName(t)] == Describe(Score(o, t), t)
  {
    map[TraitName(Openness) := Describe(o.openness, Openness),
        TraitName(Conscientiousness) := Describe(o.conscientiousness, Conscientiousness),
        TraitName(Extraversion) := Describe(o.extraversion, Extraversion),
        TraitName(Agreeableness) := Describe(o.agreeableness, Agreeableness),
        TraitName(Neuroticism) := Describe(o.neuroticism, Neuroticism)]
  }

  // -----------------------------------------------------------------------
  // What the analysis promises

  /** The first update takes the new value; a later one moves the average
      towards the new value by `NewWeight / (n + NewWeight)` of the gap,
      so it lies between the two and scores in [0, 1] stay in [0, 1]. */
  lemma WeightedFacts(average: real, n: nat, x: real)
    ensures n == 0 ==> Weighted(average, n, x) == x
    ensures n > 0 ==> (Weighted(average, n, x) - average) * (n as real + NewWeight) == (x - average) * NewWeight
    ensures average <= x ==> average <= Weighted(average, n, x) <= x
    ensures x <= average ==> x <= Weighted(average, n, x) <= average
  {
    if n > 0 {
      var k := n as real + NewWeight;
      var w := Weighted(average, n, x);
      assert w * k == average * n as real + x * NewWeight;
      assert (w - average) * k == (x - average) * NewWeight;
      assert (w - x) * k == (average - x) * n as real;
      SignOfProduct(w - average, k, (x - average) * NewWeight);
      SignOfProduct(w - x, k, (average - x) * n as real);
      if average <= x {
        ProductSign(x - average, n as real);
      } else {
        ProductSign(average - x, n as real);
      }
    }
  }

  /** A product of two non-negative reals is non-negative. */
  lemma ProductSign(a: real, b: real)
    requires a >= 0.0 && b >= 0.0
    ensures a * b >= 0.0
  {
  }

  /** Multiplying by a positive real keeps the sign. */
  lemma SignOfProduct(a: real, b: real, c: real)
    requires b > 0.0 && a * b == c
    ensures (a >= 0.0 <==> c >= 0.0) && (a <= 0.0 <==> c <= 0.0)
  {
    if a < 0.0 {
      assert (-a) * b > 0.0;
    } else if a > 0.0 {
      assert a * b > 0.0;
    }
  }

  /** An update counts one more response and applies the same rule to all
      five traits; scores in [0, 1] stay there. */
  lemma UpdatedFacts(o: Ocean, r: OceanResponse, t: Trait)
    ensures Updated(o, r).responseCount == o.responseCount + 1
    ensures Score(Updated(o, r), t) == Weighted(Score(o, t), o.responseCount, Observed(r, t))
    ensures o.responseCount == 0 ==> Score(Updated(o, r), t) == Observed(r, t)
    ensures 0.0 <= Score(o, t) <= 1.0 && 0.0 <= Observed(r, t) <= 1.0 ==> 0.0 <= Score(Updated(o, r), t) <= 1.0
  {
    WeightedFacts(Score(o, t), o.responseCount, Observed(r, t));
  }

  /** The report has exactly the five traits; each is "High" exactly when
      its score is at least 0.5, and its description is the table's entry
      for that trait and level. */
  lemma PersonalityTraitsFacts(o: Ocean, t: Trait)
    ensures PersonalityTraits(o).Keys ==
      {"openness", "conscientiousness", "extraversion", "agreeableness", "neuroticism"}
    ensures TraitName(t) in PersonalityTraits(o)
    ensures var d := PersonalityTraits(o)[TraitName(t)];
      d.score == Score(o, t) &&
      (d.level == "High" <==> Score(o, t) >= 0.5) && (d.level == "Low" <==> Score(o, t) < 0.5) &&
      d.description == Description(t, Score(o, t) >= 0.5)
  {
  }

  class OceanAnalysisService {
    const userId: string
    var ocean: Ocean
    /** The `ocean` table, by user id. */
    var table: map<string, Ocean>

    /** `__init__` with a working `load_ocean`: `fetched` is what the
        repository's `get_ocean` gives, None when it fails; the model is
        the fetched one or else the default. */
    constructor(userId: string, fetched: Option<Ocean>, table: map<string, Ocean>)
      ensures this.userId == userId && this.table == table
      ensures ocean == fetched.GetOr(Default)
    {
      this.userId := userId;
      this.table := table;
      ocean := if fetched.Some? then fetched.value else Default;
    }

    /** `load_ocean` as written: with nothing fetched it calls the logging
        level constant `logging.ERROR`, an int, which raises. */
    method LoadOceanAsWritten(fetched: Option<Ocean>) returns (r: Result<()>)
      modifies this
      ensures fetched.Some? ==> r == Ok(()) && ocean == fetched.value
      ensures fetched.None? ==> r == Err(TypeError) && ocean == old(ocean)
      ensures table == old(table)
    {
      if fetched.Some? {
        ocean := fetched.value;
        r := Ok(());
      } else {
        r := Err(TypeError);
      }
    }

    /** `load_ocean` logging the miss: with nothing fetched the current
        model stays. */
    method LoadOcean(fetched: Option<Ocean>)
      modifies this
      ensures ocean == fetched.GetOr(old(ocean)) && table == old(table)
    {
      if fetched.Some? {
        ocean := fetched.value;
      }
    }

    /** `update_ocean_rolling_average` */
    method UpdateOceanRollingAverage(r: OceanResponse)
      modifies this
      ensures ocean == Updated(old(ocean), r) && table == old(table)
    {
      var oldCount := ocean.responseCount;
      var openness := Weighted(ocean.openness, oldCount, r.openness);
      var conscientiousness := Weighted(ocean.conscientiousness, oldCount, r.conscientiousness);
      var extraversion := Weighted(ocean.extraversion, oldCount, r.extraversion);
      var agreeableness := Weighted(ocean.agreeableness, oldCount, r.agreeableness);
      var neuroticism := Weighted(ocean.neuroticism, oldCount, r.neuroticism);
      ocean := Ocean(openness, conscientiousness, extraversion, agreeableness, neuroticism, oldCount + 1);
    }

    /** `save_ocean`: an upsert of the user's row; a failed write is
        logged and swallowed, leaving the table as it was. */
    method SaveOcean(writeOk: bool)
      modifies this
      ensures ocean == old(ocean)
      ensures table == if writeOk then old(table)[userId := ocean] else old(table)
    {
      if writeOk {
        table := table[userId := ocean];
      }
    }

    /** `analyze_message`: a failed agent run changes nothing and yields
        None; otherwise the averages roll, the model is saved and the
        agent's answer returned. */
    method AnalyzeMessage(message: string, agent: Result<OceanResponse>, writeOk: bool)
      returns (r: Option<OceanResponse>)
      modifies this
      ensures agent.Err? ==> r == None && ocean == old(ocean) && table == old(table)
      ensures agent.Ok? ==> (r == Some(agent.value) && ocean == Updated(old(ocean), agent.value) &&
        table == if writeOk then old(table)[userId := ocean] else old(table))
    {
      if agent.Err? {
        return None;
      }
      UpdateOceanRollingAverage(agent.value);
      SaveOcean(writeOk);
      r := Some(agent.value);
    }
  }
}
