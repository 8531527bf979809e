/**
 The engineered behavioural signals of the procrastination predictor: the raw
 answers of one request, their slider ranges, and the fixed formulas that turn
 them into the eight derived signals fed to the model, four of which are also
 displayed.
 */
module Signals {

  /** The five task kinds offered by the task selector, in display order. */
  datatype TaskType = Study | Work | Personal | Fitness | Creative

  /** The seven days offered by the day selector, in display order. */
  datatype Day = Monday | Tuesday | Wednesday | Thursday | Friday | Saturday | Sunday

  /** The two options of the "used social media in the last hour" radio. */
  datatype Answer = Yes | No

  /** One request's raw answers. */
  datatype RawInput = RawInput(
    taskType: TaskType,
    day: Day,
    taskPriority: int,
    mood: int,
    energy: int,
    stress: int,
    usedSocialMedia: Answer,
    postSocialFeeling: int)

  /** The range every slider enforces: 1 to 5 inclusive. */
  predicate InSliderRange(x: int) {
    1 <= x <= 5
  }

  /** What the input widgets guarantee about a request. */
  predicate ValidInput(raw: RawInput) {
    && InSliderRange(raw.taskPriority)
    && InSliderRange(raw.mood)
    && InSliderRange(raw.energy)
    && InSliderRange(raw.stress)
    && InSliderRange(raw.postSocialFeeling)
  }

  /** A boolean encoded as 0 or 1, as Python's int(bool) does. */
  predicate IsFlag(x: int) {
    x == 0 || x == 1
  }

  /** The displayed label of a task type, as offered by its selector. */
  function TaskName(t: TaskType): string {
    match t
    case Study => "Study"
    case Work => "Work"
    case Personal => "Personal"
    case Fitness => "Fitness"
    case Creative => "Creative"
  }

  /** The displayed label of a day, as offered by its selector. */
  function DayName(d: Day): string {
    match d
    case Monday => "Monday"
    case Tuesday => "Tuesday"
    case Wednesday => "Wednesday"
    case Thursday => "Thursday"
    case Friday => "Friday"
    case Saturday => "Saturday"
    case Sunday => "Sunday"
  }

  /** used_social_media_num: the radio answer as 0/1. */
  function UsedSocialMediaNum(a: Answer): (n: int)
    ensures IsFlag(n)
    ensures n == 1 <==> a == Yes
  {
    if a == Yes then 1 else 0
  }

  /** is_weekend: 1 for a day listed among the weekend days, else 0. */
  function IsWeekend(d: Day): (w: int)
    ensures IsFlag(w)
    ensures w == 1 <==> DayName(d) == "Saturday" || DayName(d) == "Sunday"
  {
    if DayName(d) in ["Saturday", "Sunday"] then 1 else 0
  }

  /** emotional_load: how far stress exceeds energy. */
  function EmotionalLoad(stress: int, energy: int): (load: int)
    requires InSliderRange(stress) && InSliderRange(energy)
    ensures -4 <= load <= 4
    ensures load > 0 <==> stress > energy
    ensures load == 0 <==> stress == energy
  {
    stress - energy
  }

  /** mental_readiness: the mean of mood and energy (an exact halving). */
  function MentalReadiness(mood: int, energy: int): (readiness: real)
    requires InSliderRange(mood) && InSliderRange(energy)
    ensures 1.0 <= readiness <= 5.0
    ensures readiness - mood as real == energy as real - readiness
    ensures mood <= energy ==> mood as real <= readiness <= energy as real
    ensures energy <= mood ==> energy as real <= readiness <= mood as real
  {
    (mood + energy) as real / 2.0
  }

  /** social_media_risk: the user answered Yes and felt no better than neutral. */
  function SocialMediaRisk(used: Answer, postSocialFeeling: int): (risk: int)
    ensures IsFlag(risk)
    ensures risk == 1 <==> used == Yes && postSocialFeeling <= 3
    ensures used == No ==> risk == 0
  {
    if UsedSocialMediaNum(used) == 1 && postSocialFeeling <= 3 then 1 else 0
  }

  /** low_energy: energy at most 2. */
  function LowEnergy(energy: int): (low: int)
    ensures IsFlag(low)
    ensures low == 1 <==> energy <= 2
  {
    if energy <= 2 then 1 else 0
  }

  /** high_stress: stress at least 4. */
  function HighStress(stress: int): (high: int)
    ensures IsFlag(high)
    ensures high == 1 <==> stress >= 4
  {
    if stress >= 4 then 1 else 0
  }

  /** procrastination_risk_index: the load plus weighted risk flags. */
  function RiskIndex(load: int, socialMediaRisk: int, lowEnergy: int, highStress: int): (index: int)
    requires -4 <= load <= 4
    requires IsFlag(socialMediaRisk) && IsFlag(lowEnergy) && IsFlag(highStress)
    ensures -4 <= index <= 8
    ensures load <= index <= load + 4
  {
    load + socialMediaRisk * 2 + lowEnergy + highStress
  }

  /** The derived values of one request, each named as in the feature schema. */
  datatype EngineeredSignals = EngineeredSignals(
    usedSocialMediaNum: int,
    isWeekend: int,
    emotionalLoad: int,
    mentalReadiness: real,
    socialMediaRisk: int,
    lowEnergy: int,
    highStress: int,
    riskIndex: int)

  /** All signals of a valid request, computed in the order of the source. */
  function Engineer(raw: RawInput): (s: EngineeredSignals)
    requires ValidInput(raw)
    ensures IsFlag(s.usedSocialMediaNum) && IsFlag(s.isWeekend) && IsFlag(s.socialMediaRisk)
    ensures IsFlag(s.lowEnergy) && IsFlag(s.highStress)
    ensures -4 <= s.emotionalLoad <= 4
    ensures 1.0 <= s.mentalReadiness <= 5.0
    ensures -4 <= s.riskIndex <= 8
    ensures s.isWeekend == 1 <==> raw.day == Saturday || raw.day == Sunday
    ensures s.socialMediaRisk == 1 <==> raw.usedSocialMedia == Yes && raw.postSocialFeeling <= 3
  {
    var usedNum := UsedSocialMediaNum(raw.usedSocialMedia);
    var weekend := IsWeekend(raw.day);
    var load := EmotionalLoad(raw.stress, raw.energy);
    var readiness := MentalReadiness(raw.mood, raw.energy);
    var smRisk := SocialMediaRisk(raw.usedSocialMedia, raw.postSocialFeeling);
    var low := LowEnergy(raw.energy);
    var high := HighStress(raw.stress);
    EngineeredSignals(usedNum, weekend, load, readiness, smRisk, low, high, RiskIndex(load, smRisk, low, high))
  }

  /** The risk index reaches its extremes exactly at the extreme answers. */
  lemma RiskIndexExtremes(raw: RawInput)
    requires ValidInput(raw)
    ensures Engineer(raw).riskIndex == 8 <==>
      raw.stress == 5 && raw.energy == 1 && raw.usedSocialMedia == Yes && raw.postSocialFeeling <= 3
    ensures Engineer(raw).riskIndex == -4 <==>
      raw.stress == 1 && raw.energy == 5 && (raw.usedSocialMedia == No || raw.postSocialFeeling > 3)
  {
  }

  /** The worst-case scenario: every risk signal is raised. */
  lemma ScenarioAllRisks()
    ensures
      var s := Engineer(RawInput(Study, Monday, 3, 1, 1, 5, Yes, 2));
      && s.emotionalLoad == 4 && s.mentalReadiness == 1.0 && s.socialMediaRisk == 1
      && s.lowEnergy == 1 && s.highStress == 1 && s.riskIndex == 8 && s.isWeekend == 0
  {
  }

  /** The balanced scenario: no risk signal is raised. */
  lemma ScenarioBalanced()
    ensures
      var s := Engineer(RawInput(Work, Sunday, 3, 3, 3, 3, No, 3));
      && s.emotionalLoad == 0 && s.mentalReadiness == 3.0 && s.socialMediaRisk == 0
      && s.lowEnergy == 0 && s.highStress == 0 && s.riskIndex == 0 && s.isWeekend == 1
  {
  }
}
