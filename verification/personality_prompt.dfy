/** The companion's personality prompt: four settings from 0 to 5, each
    picking one instruction from its own table, laid out one per line. */
module PersonalityPrompt {
  import opened PyValues

  /** The four settings, each with its own instruction table. */
  datatype Setting = Empathy | Directness | Warmth | Challenge

  /** The instruction tables by setting: `empathy_instructions`,
      `directiveness_instructions`, `warmth_instructions` and
      `challenge_instructions`. */
  function InstructionTables(s: Setting): map<int, string> {
    match s
    case Empathy => map[
      0 := "Remain emotionally neutral, focusing only on facts.",
      1 := "Slightly acknowledge emotions when appropriate.",
      2 := "Occasionally reflect the user's emotions with basic empathy.",
      3 := "Regularly mirror and validate the user's emotional state.",
      4 := "Actively empathize and validate emotional experiences with warmth.",
      5 := "Deeply tune into and mirror the user's emotions with intuitive sensitivity."]
    case Directness => map[
      0 := "Avoid offering advice or suggestions unless explicitly asked.",
      1 := "Gently ask open-ended questions to help user reflect.",
      2 := "Occasionally offer gentle suggestions if the user seems stuck.",
      3 := "Provide structured suggestions in a collaborative tone.",
      4 := "Proactively guide the user toward helpful actions or reflections.",
      5 := "Take an active role in guiding the user's growth and self-improvement journey."]
    case Warmth => map[
      0 := "Maintain a professional and emotionally neutral tone.",
      1 := "Use slightly soft and supportive language.",
      2 := "Adopt a friendly and approachable tone.",
      3 := "Use warm, encouraging language throughout interactions.",
      4 := "Speak in a nurturing, affectionate manner, like a trusted friend.",
      5 := "Convey deep emotional warmth, tenderness, and unwavering support."]
    case Challenge => map[
      0 := "Focus entirely on support without challenging any user beliefs.",
      1 := "Occasionally offer gentle nudges to consider alternative perspectives.",
      2 := "Kindly question unhelpful thought patterns when noticed.",
      3 := "Identify and name cognitive distortions while staying supportive.",
      4 := "Encourage reframing and mindset shifts with clear, compassionate challenges.",
      5 := "Actively confront and challenge self-limiting beliefs with the absolute truth even if it hurts. Red team the user's beliefs, ideas and opinions."]
  }

  /** A table for each setting. */
  type Tables = Setting -> map<int, string>

  /** Tables whose keys are exactly the levels 0 to 5, as the
      application's are. */
  predicate Shaped(tables: Tables) {
    forall s: Setting :: tables(s).Keys == {0, 1, 2, 3, 4, 5}
  }

  /** `<table>.get(level, '')` for the setting's own table. */
  function Instruction(tables: Tables, s: Setting, level: int): string {
    if level in tables(s) then tables(s)[level] else ""
  }

  /** One line of the prompt: three spaces, then the instruction. */
  function Line(tables: Tables, s: Setting, level: int): string {
    "   " + Instruction(tables, s, level)
  }

  /** `get_personality_prompt`, over the given tables. */
  function Prompt(tables: Tables, empathy: int, directness: int, warmth: int, challenge: int): string {
    Line(tables, Empathy, empathy) + "\n" + Line(tables, Directness, directness) + "\n" +
    Line(tables, Warmth, warmth) + "\n" + Line(tables, Challenge, challenge)
  }

  /** The line a setting's level gives in a prompt over tables keyed 0 to
      5: its table's entry for a level in that range, nothing for any other. */
  function LevelLine(tables: Tables, s: Setting, level: int): string
    requires Shaped(tables)
  {
    "   " + (if 0 <= level <= 5 then tables(s)[level] else "")
  }

  /** `get_personality_prompt`: the four settings' lines joined by
      newlines, each line the setting's own instruction for its level. */
  function GetPersonalityPrompt(empathy: int, directness: int, warmth: int, challenge: int): (r: string)
    ensures Shaped(InstructionTables) &&
      r == Join("\n", [LevelLine(InstructionTables, Empathy, empathy), LevelLine(InstructionTables, Directness, directness),
                       LevelLine(InstructionTables, Warmth, warmth), LevelLine(InstructionTables, Challenge, challenge)])
  {
    TablesShaped();
    PromptByLevels(InstructionTables, empathy, directness, warmth, challenge);
    Prompt(InstructionTables, empathy, directness, warmth, challenge)
  }

  /** Over tables keyed 0 to 5, the prompt is the four settings' level
      lines joined by newlines. */
  lemma PromptByLevels(tables: Tables, empathy: int, directness: int, warmth: int, challenge: int)
    requires Shaped(tables)
    ensures Prompt(tables, empathy, directness, warmth, challenge) ==
      Join("\n", [LevelLine(tables, Empathy, empathy), LevelLine(tables, Directness, directness),
                  LevelLine(tables, Warmth, warmth), LevelLine(tables, Challenge, challenge)])
  {
    InstructionLevels(tables, Empathy, empathy);
    InstructionLevels(tables, Directness, directness);
    InstructionLevels(tables, Warmth, warmth);
    InstructionLevels(tables, Challenge, challenge);
    PromptJoinsLines(tables, empathy, directness, warmth, challenge);
  }

  lemma EmpathyKeys()
    ensures InstructionTables(Empathy).Keys == {0, 1, 2, 3, 4, 5}
  {
  }

  lemma DirectnessKeys()
    ensures InstructionTables(Directness).Keys == {0, 1, 2, 3, 4, 5}
  {
  }

  lemma WarmthKeys()
    ensures InstructionTables(Warmth).Keys == {0, 1, 2, 3, 4, 5}
  {
  }

  lemma ChallengeKeys()
    ensures InstructionTables(Challenge).Keys == {0, 1, 2, 3, 4, 5}
  {
  }

  /** The application's tables are keyed by exactly the levels 0 to 5. */
  lemma TablesShaped()
    ensures Shaped(InstructionTables)
  {
    forall s: Setting
      ensures InstructionTables(s).Keys == {0, 1, 2, 3, 4, 5}
    {
      match s
      case Empathy => EmpathyKeys();
      case Directness => DirectnessKeys();
      case Warmth => WarmthKeys();
      case Challenge => ChallengeKeys();
    }
  }

  /** With tables keyed by the levels 0 to 5, a level in that range
      selects its table's entry and any other level the empty
      instruction. */
  lemma InstructionLevels(tables: Tables, s: Setting, level: int)
    requires Shaped(tables)
    ensures 0 <= level <= 5 ==> Instruction(tables, s, level) == tables(s)[level]
    ensures !(0 <= level <= 5) ==> Instruction(tables, s, level) == "" && Line(tables, s, level) == "   "
  {
  }

  /** The prompt is the four lines joined by newlines, the first chosen by
      the empathy setting from the empathy table alone, the second by the
      directness setting from its table alone, and so on. */
  lemma PromptJoinsLines(tables: Tables, empathy: int, directness: int, warmth: int, challenge: int)
    ensures Prompt(tables, empathy, directness, warmth, challenge) ==
      Join("\n", [Line(tables, Empathy, empathy), Line(tables, Directness, directness),
                  Line(tables, Warmth, warmth), Line(tables, Challenge, challenge)])
  {
    JoinFour("\n", Line(tables, Empathy, empathy), Line(tables, Directness, directness),
             Line(tables, Warmth, warmth), Line(tables, Challenge, challenge));
  }

  /** When no table entry holds a newline, the prompt splits at its
      newlines into exactly its four lines. */
  lemma PromptLines(tables: Tables, empathy: int, directness: int, warmth: int, challenge: int)
    requires forall s: Setting, level :: level in tables(s) ==> '\n' !in tables(s)[level]
    ensures Split(Prompt(tables, empathy, directness, warmth, challenge), '\n') ==
      [Line(tables, Empathy, empathy), Line(tables, Directness, directness),
       Line(tables, Warmth, warmth), Line(tables, Challenge, challenge)]
  {
    var lines := [Line(tables, Empathy, empathy), Line(tables, Directness, directness),
                  Line(tables, Warmth, warmth), Line(tables, Challenge, challenge)];
    PromptJoinsLines(tables, empathy, directness, warmth, challenge);
    forall i | 0 <= i < 4
      ensures '\n' !in lines[i]
    {
      var s := [Empathy, Directness, Warmth, Challenge][i];
      var level := [empathy, directness, warmth, challenge][i];
      assert lines[i] == "   " + Instruction(tables, s, level);
    }
    SplitJoin('\n', lines);
  }
}
