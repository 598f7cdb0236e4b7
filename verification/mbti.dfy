/** MBTI analysis: a rolling average of four scores in [0, 1] (extraversion
    to introversion, sensing to intuition, thinking to feeling, judging to
    perceiving), the four-letter type they give and the tone prompt built
    from a type. The analysing agent is an oracle whose answer arrives as
    a parameter; the `mbti_personality` table is a map from user id. */
module MbtiAnalysis {
  import opened Wrappers
  import opened PyValues

  /** `MBTI`, the stored model. */
  datatype Mbti = Mbti(extraversionIntroversion: real, sensingIntuition: real, thinkingFeeling: real,
                       judgingPerceiving: real, messageCount: nat)

  /** `MBTI()` */
  const Default := Mbti(0.0, 0.0, 0.0, 0.0, 0)

  /** `MBTIResponse`, one analysis of one message. */
  datatype MbtiResponse = MbtiResponse(extraversionIntroversion: real, sensingIntuition: real,
                                       thinkingFeeling: real, judgingPerceiving: real)

  datatype Dimension = EI | SN | TF | JP

  function Score(m: Mbti, d: Dimension): real {
    match d
    case EI => m.extraversionIntroversion
    case SN => m.sensingIntuition
    case TF => m.thinkingFeeling
    case JP => m.judgingPerceiving
  }

  function Observed(r: MbtiResponse, d: Dimension): real {
    match d
    case EI => r.extraversionIntroversion
    case SN => r.sensingIntuition
    case TF => r.thinkingFeeling
    case JP => r.judgingPerceiving
  }

  /** One dimension's rolling average after one more value. */
  function Rolled(average: real, n: nat, x: real): real {
    (average * n as real + x) / (n + 1) as real
  }

  /** `_update_mbti_rolling_average` with the count the model stores. */
  function Averaged(m: Mbti, r: MbtiResponse): Mbti {
    var n := m.messageCount;
    Mbti(Rolled(m.extraversionIntroversion, n, r.extraversionIntroversion),
         Rolled(m.sensingIntuition, n, r.sensingIntuition),
         Rolled(m.thinkingFeeling, n, r.thinkingFeeling),
         Rolled(m.judgingPerceiving, n, r.judgingPerceiving),
         n + 1)
  }

  /** The model after a series of updates, oldest first. */
  function AveragedAll(m: Mbti, rs: seq<MbtiResponse>): Mbti {
    if rs == [] then m else Averaged(AveragedAll(m, rs[..|rs| - 1]), rs[|rs| - 1])
  }

  /** One dimension of a series of responses. */
  function Column(rs: seq<MbtiResponse>, d: Dimension): (xs: seq<real>)
    ensures |xs| == |rs| && forall i :: 0 <= i < |rs| ==> xs[i] == Observed(rs[i], d)
  {
    seq(|rs|, i requires 0 <= i < |rs| => Observed(rs[i], d))
  }

  /** One dimension's rolling average after a series of values. */
  function RollAll(average: real, n: nat, xs: seq<real>): real {
    if xs == [] then average else Rolled(RollAll(average, n, xs[..|xs| - 1]), n + |xs| - 1, xs[|xs| - 1])
  }

  function Sum(xs: seq<real>): real {
    if xs == [] then 0.0 else Sum(xs[..|xs| - 1]) + xs[|xs| - 1]
  }

  function Mean(xs: seq<real>): real
    requires xs != []
  {
    Sum(xs) / |xs| as real
  }

  /** `get_mbti_type`: one letter per dimension, the first of each pair
      for a score of at most 0.5. */
  function TypeOf(m: Mbti): (t: string)
    ensures |t| == 4
    ensures (t[0] == 'E' <==> m.extraversionIntroversion <= 0.5) && (t[0] == 'I' <==> m.extraversionIntroversion > 0.5)
    ensures (t[1] == 'S' <==> m.sensingIntuition <= 0.5) && (t[1] == 'N' <==> m.sensingIntuition > 0.5)
    ensures (t[2] == 'T' <==> m.thinkingFeeling <= 0.5) && (t[2] == 'F' <==> m.thinkingFeeling > 0.5)
    ensures (t[3] == 'J' <==> m.judgingPerceiving <= 0.5) && (t[3] == 'P' <==> m.judgingPerceiving > 0.5)
  {
    var ei := if m.extraversionIntroversion <= 0.5 then "E" else "I";
    var sn := if m.sensingIntuition <= 0.5 then "S" else "N";
    var tf := if m.thinkingFeeling <= 0.5 then "T" else "F";
    var jp := if m.judgingPerceiving <= 0.5 then "J" else "P";
    ei + sn + tf + jp
  }

  /** `mbti_tone_traits.get(letter, "")` */
  function ToneTrait(letter: char): string {
    match letter
    case 'I' => "calm, introspective, and soft-spoken"
    case 'E' => "energetic, conversational, and expressive"
    case 'S' => "practical, grounded in real-world examples"
    case 'N' => "imaginative, big-picture, and metaphorical"
    case 'T' => "logical, direct, and objective"
    case 'F' => "empathetic, affirming, and warm"
    case 'J' => "organized, clear, and structured"
    case 'P' => "casual, open-ended, and exploratory"
    case _ => ""
  }

  /** One trait per letter of the upper-cased type. */
  function Traits(mbtiType: string): (ts: seq<string>)
    ensures |ts| == |mbtiType|
    ensures forall i :: 0 <= i < |mbtiType| ==> ts[i] == ToneTrait(UpperChar(mbtiType[i]))
  {
    var upper := Upper(mbtiType);
    seq(|upper|, i requires 0 <= i < |upper| => ToneTrait(upper[i]))
  }

  /** `generate_style_prompt`: the tone of each upper-cased letter, in
      order, joined by "; " after a fixed opening. */
  function StylePrompt(mbtiType: string): (r: string)
    ensures r == "Your tone should be " +
      Join("; ", seq(|mbtiType|, i requires 0 <= i < |mbtiType| => ToneTrait(UpperChar(mbtiType[i])))) + "."
    ensures |r| > 20 && r[..20] == "Your tone should be " && r[|r| - 1] == '.'
  {
    assert Traits(mbtiType) == seq(|mbtiType|, i requires 0 <= i < |mbtiType| => ToneTrait(UpperChar(mbtiType[i])));
    "Your tone should be " + Join("; ", Traits(mbtiType)) + "."
  }

  // -----------------------------------------------------------------------
  // What the analysis promises

  /** A rolling average lies between the old average and the new value,
      so averages of scores in [0, 1] stay in [0, 1]; the first value is
      taken as it is. */
  lemma RolledBetween(average: real, n: nat, x: real)
    ensures average <= x ==> average <= Rolled(average, n, x) <= x
    ensures x <= average ==> x <= Rolled(average, n, x) <= average
    ensures n == 0 ==> Rolled(average, n, x) == x
    ensures Rolled(average, n, x) * (n as real + 1.0) == average * n as real + x
  {
    var k := n as real;
    var r := Rolled(average, n, x);
    assert r * (k + 1.0) == average * k + x;
    // r - x and r - average are the shares (average - x) * k / (k + 1)
    // and (x - average) / (k + 1) of the gap.
    assert (r - x) * (k + 1.0) == (average - x) * k;
    assert (r - average) * (k + 1.0) == x - average;
    SignOfProduct(r - x, k + 1.0, (average - x) * k);
    SignOfProduct(r - average, k + 1.0, x - average);
    if average <= x {
      ProductSign(x - average, k);
    } else {
      ProductSign(average - x, k);
    }
  }

  /** The rolled average times the new count is the old sum plus the
      new value. */
  lemma RolledTimes(average: real, n: nat, x: real)
    ensures Rolled(average, n, x) * (n as real + 1.0) == average * n as real + x
  {
  }

  /** Every dimension of an update is the rolled average of that
      dimension. */
  lemma ScoreAveraged(m: Mbti, r: MbtiResponse, d: Dimension)
    ensures Score(Averaged(m, r), d) == Rolled(Score(m, d), m.messageCount, Observed(r, d))
  {
  }

  /** A product of two non-negative reals is non-negative. */
  lemma ProductSign(a: real, b: real)
    requires a >= 0.0 && b >= 0.0
    ensures a * b >= 0.0
  {
  }

  /** Multiplying by a positive real keeps the sign. */
  lemma SignOfProduct(a: real, b: real, c: real)
    requires b > 0.0 && a * b == c
    ensures (a >= 0.0 <==> c >= 0.0) && (a <= 0.0 <==> c <= 0.0)
  {
    if a < 0.0 {
      assert (-a) * b > 0.0;
    } else if a > 0.0 {
      assert a * b > 0.0;
    }
  }

  /** Updating counts one more message and rolls every dimension the same
      way; scores in [0, 1] stay there. */
  lemma AveragedFacts(m: Mbti, r: MbtiResponse, d: Dimension)
    ensures Averaged(m, r).messageCount == m.messageCount + 1
    ensures Score(Averaged(m, r), d) == Rolled(Score(m, d), m.messageCount, Observed(r, d))
    ensures 0.0 <= Score(m, d) <= 1.0 && 0.0 <= Observed(r, d) <= 1.0 ==> 0.0 <= Score(Averaged(m, r), d) <= 1.0
  {
    RolledBetween(Score(m, d), m.messageCount, Observed(r, d));
  }

  /** After a series of values the rolling average times the count is
      the old average times its count plus the new values: the rolling
      average is the mean of everything it has seen. */
  lemma {:induction false} RollAllIsMean(average: real, n: nat, xs: seq<real>)
    ensures RollAll(average, n, xs) * (n + |xs|) as real == average * n as real + Sum(xs)
  {
    if xs == [] {
      assert (n + |xs|) as real == n as real;
    } else {
      var init := xs[..|xs| - 1];
      var last := xs[|xs| - 1];
      RollAllIsMean(average, n, init);
      var before := RollAll(average, n, init);
      RolledTimes(before, n + |init|, last);
      MeanStep(RollAll(average, n, xs), before, (n + |init|) as real, last,
               average * n as real + Sum(init), (n + |xs|) as real);
    }
  }

  /** One step of the running sum: if the old average times its count is
      the sum so far, the new average times the new count is the sum with
      the new value. */
  lemma MeanStep(next: real, average: real, n: real, x: real, sum: real, count: real)
    requires next * (n + 1.0) == average * n + x
    requires average * n == sum
    requires count == n + 1.0
    ensures next * count == sum + x
  {
  }

  /** Updating the model with a series of responses rolls each dimension
      over that dimension's values and counts every response. */
  lemma {:induction false} AveragedAllByDimension(m: Mbti, rs: seq<MbtiResponse>, d: Dimension)
    ensures AveragedAll(m, rs).messageCount == m.messageCount + |rs|
    ensures Score(AveragedAll(m, rs), d) == RollAll(Score(m, d), m.messageCount, Column(rs, d))
  {
    if rs != [] {
      var init := rs[..|rs| - 1];
      AveragedAllByDimension(m, init, d);
      ScoreAveraged(AveragedAll(m, init), rs[|rs| - 1], d);
      assert Column(rs, d)[..|rs| - 1] == Column(init, d);
    }
  }

  /** Starting from nothing, the rolling average is the mean. */
  lemma RollAllFromZero(xs: seq<real>)
    requires xs != []
    ensures RollAll(0.0, 0, xs) == Mean(xs)
  {
    RollAllIsMean(0.0, 0, xs);
    assert (0 + |xs|) as real == |xs| as real;
    DivideBack(RollAll(0.0, 0, xs), |xs| as real, Sum(xs));
  }

  /** From the default model the scores are the plain means of what the
      agent reported. */
  lemma DefaultAveragesAreMeans(rs: seq<MbtiResponse>, d: Dimension)
    requires rs != []
    ensures Score(AveragedAll(Default, rs), d) == Mean(Column(rs, d))
  {
    AveragedAllByDimension(Default, rs, d);
    assert Score(Default, d) == 0.0;
    RollAllFromZero(Column(rs, d));
  }

  /** Undoing a multiplication by a positive real. */
  lemma DivideBack(a: real, n: real, t: real)
    requires n > 0.0 && a * n == t
    ensures a == t / n
  {
  }

  /** Every letter of a computed type has a tone trait. */
  lemma TypeTraitsKnown(m: Mbti)
    ensures forall i :: 0 <= i < 4 ==> ToneTrait(UpperChar(TypeOf(m)[i])) != ""
  {
  }

  /** The prompt ignores the case of the type. */
  lemma StylePromptIgnoresCase(mbtiType: string)
    ensures StylePrompt(mbtiType) == StylePrompt(Upper(mbtiType))
  {
    assert Traits(mbtiType) == Traits(Upper(mbtiType));
  }

  /** The prompt for a four-letter type names the tone of each letter,
      in order, separated by semicolons. */
  lemma StylePromptFourLetters(mbtiType: string)
    requires |mbtiType| == 4
    ensures StylePrompt(mbtiType) ==
      "Your tone should be " + ToneTrait(UpperChar(mbtiType[0])) + "; " + ToneTrait(UpperChar(mbtiType[1])) +
      "; " + ToneTrait(UpperChar(mbtiType[2])) + "; " + ToneTrait(UpperChar(mbtiType[3])) + "."
  {
    var ts := Traits(mbtiType);
    assert ts == [ts[0], ts[1], ts[2], ts[3]];
    JoinFour("; ", ts[0], ts[1], ts[2], ts[3]);
  }

  class MbtiAnalysisService {
    const userId: string
    var mbti: Mbti
    /** The `mbti_personality` table, by user id. */
    var table: map<string, Mbti>

    /** `__init__` and `load_mbti`: `fetched` is what the repository's
        `get_mbti` gives, None when it fails; the model is the fetched one
        or else the default. */
    constructor(userId: string, fetched: Option<Mbti>, table: map<string, Mbti>)
      ensures this.userId == userId && this.table == table
      ensures mbti == fetched.GetOr(Default)
    {
      this.userId := userId;
      this.table := table;
      mbti := if fetched.Some? then fetched.value else Default;
    }

    /** `_update_mbti_rolling_average` as written: it reads
        `response_count`, which the stored model does not declare, so it
        raises before changing anything. */
    method UpdateRollingAverageAsWritten(r: MbtiResponse) returns (res: Result<()>)
      ensures res == Err(AttributeError)
    {
      res := Err(AttributeError);
    }

    /** `analyze_message` as written: the update always raises, the
        exception is caught, and nothing is updated or saved. */
    method AnalyzeMessageAsWritten(message: string, agent: Result<MbtiResponse>) returns (r: Option<MbtiResponse>)
      ensures r == None
    {
      if agent.Err? {
        return None;
      }
      var response := agent.value;
      var updated := UpdateRollingAverageAsWritten(response);
      r := None;
      if updated.Ok? {
        r := Some(response);
      }
    }

    /** `_update_mbti_rolling_average` over the stored `message_count`. */
    method UpdateRollingAverage(r: MbtiResponse)
      modifies this
      ensures mbti == Averaged(old(mbti), r) && table == old(table)
    {
      var oldCount := mbti.messageCount;
      var newCount := oldCount + 1;
      var ei := Rolled(mbti.extraversionIntroversion, oldCount, r.extraversionIntroversion);
      var sn := Rolled(mbti.sensingIntuition, oldCount, r.sensingIntuition);
      var tf := Rolled(mbti.thinkingFeeling, oldCount, r.thinkingFeeling);
      var jp := Rolled(mbti.judgingPerceiving, oldCount, r.judgingPerceiving);
      mbti := Mbti(ei, sn, tf, jp, newCount);
    }

    /** `save_mbti`: an upsert of the user's row; a failed write is logged
        and swallowed, leaving the table as it was. */
    method SaveMbti(writeOk: bool)
      modifies this
      ensures mbti == old(mbti)
      ensures table == if writeOk then old(table)[userId := mbti] else old(table)
    {
      if writeOk {
        table := table[userId := mbti];
      }
    }

    /** `analyze_message` with the update over `message_count`: a failed
        agent run changes nothing and yields None; otherwise the averages
        roll, the model is saved and the agent's answer returned. */
    method AnalyzeMessage(message: string, agent: Result<MbtiResponse>, writeOk: bool)
      returns (r: Option<MbtiResponse>)
      modifies this
      ensures agent.Err? ==> r == None && mbti == old(mbti) && table == old(table)
      ensures agent.Ok? ==> (r == Some(agent.value) && mbti == Averaged(old(mbti), agent.value) &&
        table == if writeOk then old(table)[userId := mbti] else old(table))
    {
      if agent.Err? {
        return None;
      }
      UpdateRollingAverage(agent.value);
      SaveMbti(writeOk);
      r := Some(agent.value);
    }
  }
}
