/** The table of multistep therapy flows (`flows`): sixteen flows, each
    a goal and five steps. */
module MultistepFlows {
  import opened Wrappers

  /** `Flow`; a step is its content. */
  datatype Flow = Flow(goal: string, steps: seq<string>)

  /** `flows[id]`, if the table has it. */
  function FlowOf(id: string): Option<Flow>
  {
    if id == "cbt-for-anxiety" then Some(CbtForAnxiety())
    else if id == "exposure-therapy" then Some(ExposureTherapy())
    else if id == "mindfulness-based-stress-reduction" then Some(MindfulnessBasedStressReduction())
    else if id == "prolonged-exposure" then Some(ProlongedExposure())
    else if id == "cognitive-processing-therapy" then Some(CognitiveProcessingTherapy())
    else if id == "emdr" then Some(Emdr())
    else if id == "cbt-for-depression" then Some(CbtForDepression())
    else if id == "behavioral-activation" then Some(BehavioralActivation())
    else if id == "interpersonal-psychotherapy" then Some(InterpersonalPsychotherapy())
    else if id == "mindfulness-based-cognitive-therapy" then Some(MindfulnessBasedCognitiveTherapy())
    else if id == "emotionally-focused-therapy" then Some(EmotionallyFocusedTherapy())
    else if id == "behavioral-couples-therapy" then Some(BehavioralCouplesTherapy())
    else if id == "cbt-for-low-self-esteem" then Some(CbtForLowSelfEsteem())
    else if id == "compassion-focused-therapy" then Some(CompassionFocusedTherapy())
    else if id == "complicated-grief-therapy" then Some(ComplicatedGriefTherapy())
    else if id == "grief-focused-cbt" then Some(GriefFocusedCbt())
    else None
  }

  /** `flows["cbt-for-anxiety"]` */
  function CbtForAnxiety(): (f: Flow)
    ensures |f.steps| == 5
  {
    Flow("Reducing Anxiety", [
      "Identify automatic anxious thoughts and cognitive distortions.",
      "Challenge and restructure distorted thoughts through Socratic questioning.",
      "Gradually expose the client to avoided situations or fears.",
      "Teach relaxation techniques (optional) and coping skills.",
      "Reinforce new behaviors and monitor anxiety levels across exposures."])
  }

  /** `flows["exposure-therapy"]` */
  function ExposureTherapy(): (f: Flow)
    ensures |f.steps| == 5
  {
    Flow("Reducing Anxiety", [
      "Create a fear hierarchy (rank fears from least to most intense).",
      "Teach relaxation or coping strategies if needed.",
      "Begin gradual exposure to the least feared item.",
      "Move up the hierarchy after habituation occurs.",
      "Process exposure experiences and update beliefs after each step."])
  }

  /** `flows["mindfulness-based-stress-reduction"]` */
  function MindfulnessBasedStressReduction(): (f: Flow)
    ensures |f.steps| == 5
  {
    Flow("Reducing Anxiety", [
      "Introduce the concept of mindfulness and nonjudgmental awareness.",
      "Teach formal practices (breath focus, body scan meditation).",
      "Encourage daily practice and informal mindfulness (mindful eating, walking).",
      "Guide noticing and accepting anxious thoughts without reacting.",
      "Apply mindfulness in real-world stress or anxiety situations."])
  }

  /** `flows["prolonged-exposure"]` */
  function ProlongedExposure(): (f: Flow)
    ensures |f.steps| == 5
  {
    Flow("Processing Trauma", [
      "Psychoeducation about PTSD and rationale for exposure.",
      "Construct an in vivo exposure hierarchy for trauma reminders.",
      "Conduct imaginal exposure (recount traumatic event in detail).",
      "Assign homework: listen to exposure recordings and confront avoided situations.",
      "Review progress, modify exposures, and consolidate emotional processing."])
  }

  /** `flows["cognitive-processing-therapy"]` */
  function CognitiveProcessingTherapy(): (f: Flow)
    ensures |f.steps| == 5
  {
    Flow("Processing Trauma", [
      "Explain PTSD and the role of \"stuck points\" (distorted beliefs).",
      "Have the client write a detailed trauma narrative.",
      "Identify cognitive distortions (e.g., self-blame, guilt).",
      "Use worksheets to challenge and restructure unhelpful beliefs.",
      "Reinforce adaptive beliefs and generalize skills to other life areas."])
  }

  /** `flows["emdr"]` */
  function Emdr(): (f: Flow)
    ensures |f.steps| == 5
  {
    Flow("Processing Trauma", [
      "Identify target traumatic memories and associated beliefs.",
      "Set up dual attention stimulus (eye movements, tapping, or tones).",
      "Guide client through sets of stimulation while recalling the memory.",
      "Pause to process emerging thoughts, images, or emotions.",
      "Continue until distress reduces, then install positive self-beliefs."])
  }

  /** `flows["cbt-for-depression"]` */
  function CbtForDepression(): (f: Flow)
    ensures |f.steps| == 5
  {
    Flow("Managing Depression", [
      "Identify negative automatic thoughts and cognitive distortions.",
      "Challenge and replace distorted thoughts through structured exercises.",
      "Teach behavioral activation (schedule rewarding activities).",
      "Assign homework: thought records, activity tracking.",
      "Build relapse prevention strategies by reinforcing core CBT skills."])
  }

  /** `flows["behavioral-activation"]` */
  function BehavioralActivation(): (f: Flow)
    ensures |f.steps| == 5
  {
    Flow("Managing Depression", [
      "Assess current behavior patterns and levels of engagement.",
      "Identify valued activities linked to pleasure or mastery.",
      "Create an activity schedule with small, achievable goals.",
      "Monitor mood changes related to activities.",
      "Problem-solve obstacles and increase activation progressively."])
  }

  /** `flows["interpersonal-psychotherapy"]` */
  function InterpersonalPsychotherapy(): (f: Flow)
    ensures |f.steps| == 5
  {
    Flow("Managing Depression", [
      "Map interpersonal issues contributing to depression (e.g., grief, conflict).",
      "Choose one or two key problem areas to target.",
      "Develop communication and relationship skills around the issue.",
      "Role-play and practice new interaction patterns.",
      "Consolidate interpersonal gains and plan for future challenges."])
  }

  /** `flows["mindfulness-based-cognitive-therapy"]` */
  function MindfulnessBasedCognitiveTherapy(): (f: Flow)
    ensures |f.steps| == 5
  {
    Flow("Managing Depression", [
      "Teach basic mindfulness practices (breath, body, thoughts awareness).",
      "Help clients notice early signs of depressive relapse.",
      "Train responding mindfully rather than reacting automatically.",
      "Develop skills for accepting negative emotions without judgment.",
      "Practice ongoing mindfulness to maintain emotional regulation."])
  }

  /** `flows["emotionally-focused-therapy"]` */
  function EmotionallyFocusedTherapy(): (f: Flow)
    ensures |f.steps| == 5
  {
    Flow("Improving Relationships", [
      "Identify negative interaction cycles and underlying attachment fears.",
      "Access and deepen vulnerable emotional experiences.",
      "Encourage partners to express attachment needs clearly.",
      "Facilitate new, supportive emotional responses between partners.",
      "Consolidate new cycles of positive interaction and secure bonding."])
  }

  /** `flows["behavioral-couples-therapy"]` */
  function BehavioralCouplesTherapy(): (f: Flow)
    ensures |f.steps| == 5
  {
    Flow("Improving Relationships", [
      "Assess relationship satisfaction and problematic behaviors.",
      "Train communication skills (e.g., active listening, I-statements).",
      "Introduce positive behavior exchanges (increase reinforcement).",
      "Practice problem-solving techniques for conflicts.",
      "Build maintenance plans for sustaining positive relationship patterns."])
  }

  /** `flows["cbt-for-low-self-esteem"]` */
  function CbtForLowSelfEsteem(): (f: Flow)
    ensures |f.steps| == 5
  {
    Flow("Enhancing Self-Esteem", [
      "Identify core beliefs about self-worth and their origins.",
      "Challenge global negative self-evaluations using evidence and logic.",
      "Assign behavioral experiments to test new self-beliefs.",
      "Build self-affirmation and self-compassion practices.",
      "Reinforce mastery experiences to consolidate improved self-image."])
  }

  /** `flows["compassion-focused-therapy"]` */
  function CompassionFocusedTherapy(): (f: Flow)
    ensures |f.steps| == 5
  {
    Flow("Enhancing Self-Esteem", [
      "Psychoeducation on emotion systems (threat, drive, soothe).",
      "Develop compassionate imagery (create a compassionate self).",
      "Practice soothing techniques (e.g., rhythm breathing).",
      "Engage in exercises fostering self-kindness over self-criticism.",
      "Apply compassion skills to difficult memories and daily self-talk."])
  }

  /** `flows["complicated-grief-therapy"]` */
  function ComplicatedGriefTherapy(): (f: Flow)
    ensures |f.steps| == 5
  {
    Flow("Coping with Grief and Loss", [
      "Provide psychoeducation about complicated grief.",
      "Guide imaginal revisiting exercises of the death event.",
      "Encourage situational exposures to reminders avoided after loss.",
      "Identify and restructure problematic grief-related beliefs.",
      "Support reconnection to meaningful life goals and relationships."])
  }

  /** `flows["grief-focused-cbt"]` */
  function GriefFocusedCbt(): (f: Flow)
    ensures |f.steps| == 5
  {
    Flow("Coping with Grief and Loss", [
      "Identify unhelpful grief-related thoughts and avoidance patterns.",
      "Conduct imaginal exposure to painful loss memories.",
      "Challenge distorted beliefs about guilt, self-blame, or future hopelessness.",
      "Develop a narrative that honors the lost loved one and affirms life.",
      "Rebuild life engagement through goal setting and reactivation."])
  }
}
