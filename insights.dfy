/**
 * The rule-based part of the response: recommendations from the study
 * habits, equity risk factors from the family background, and the mission
 * insights derived from them. Each message is identified by a constructor;
 * its exact wording is given by `AdviceText` and `RiskText`.
 */
module Insights {
  import opened Selection
  import opened Inputs

  datatype Advice =
    | StudyMore | ImproveAttendance | SleepMore | AddTutoring | ExerciseMore | StrengthenFoundations
    | ContinueHabits

  function AdviceText(a: Advice): string {
    match a
    case StudyMore => "Increase weekly study time to at least 5-6 hours for better performance"
    case ImproveAttendance => "Improve attendance rate - aim for at least 85% to maximize learning"
    case SleepMore => "Ensure adequate sleep (7-8 hours) for optimal cognitive performance"
    case AddTutoring => "Consider additional tutoring sessions for personalized academic support"
    case ExerciseMore => "Include regular physical activity (2-3 hours/week) to improve focus and health"
    case StrengthenFoundations => "Focus on strengthening foundational knowledge in weak subject areas"
    case ContinueHabits => "Continue current study habits and maintain consistent performance"
  }

  /** The six recommendations, in the order their conditions are checked. */
  const AdviceOrder: seq<Advice> :=
    [StudyMore, ImproveAttendance, SleepMore, AddTutoring, ExerciseMore, StrengthenFoundations]

  /** The six recommendation conditions, in the same order. */
  function AdviceTriggers(s: StudentInput): seq<bool> {
    [ s.hoursStudied < 5.0,
      s.attendance < 80.0,
      s.sleepHours < 7.0,
      s.tutoringSessions < 1.0,
      s.physicalActivity < 2.0,
      s.previousScores < 70.0 ]
  }

  /** The recommendations: triggered ones in condition order, else the default. */
  function Recommendations(s: StudentInput): seq<Advice> {
    WithDefault(Select(AdviceTriggers(s), AdviceOrder), ContinueHabits)
  }

  /** The handler's run of conditional appends, with the default appended to an empty list. */
  method BuildRecommendations(s: StudentInput) returns (recommendations: seq<Advice>)
    ensures recommendations == Recommendations(s)
  {
    ghost var flags := AdviceTriggers(s);
    recommendations := [];
    if s.hoursStudied < 5.0 {
      recommendations := recommendations + [StudyMore];
    }
    assert recommendations == SelectUpTo(flags, AdviceOrder, 1);
    if s.attendance < 80.0 {
      recommendations := recommendations + [ImproveAttendance];
    }
    assert recommendations == SelectUpTo(flags, AdviceOrder, 2);
    if s.sleepHours < 7.0 {
      recommendations := recommendations + [SleepMore];
    }
    assert recommendations == SelectUpTo(flags, AdviceOrder, 3);
    if s.tutoringSessions < 1.0 {
      recommendations := recommendations + [AddTutoring];
    }
    assert recommendations == SelectUpTo(flags, AdviceOrder, 4);
    if s.physicalActivity < 2.0 {
      recommendations := recommendations + [ExerciseMore];
    }
    assert recommendations == SelectUpTo(flags, AdviceOrder, 5);
    if s.previousScores < 70.0 {
      recommendations := recommendations + [StrengthenFoundations];
    }
    assert recommendations == SelectUpTo(flags, AdviceOrder, 6);
    if recommendations == [] {
      recommendations := recommendations + [ContinueHabits];
    }
  }

  datatype Risk =
    | LowIncome | LimitedResources | NoInternet | LimitedParentalEducation | LowParentalInvolvement
    | NoSignificantRisk

  function RiskText(r: Risk): string {
    match r
    case LowIncome => "Low family income may limit access to educational resources and opportunities"
    case LimitedResources => "Limited access to educational resources requires community support programs"
    case NoInternet => "Lack of internet access creates significant barriers in digital learning environment"
    case LimitedParentalEducation => "Limited parental education may require additional family engagement programs"
    case LowParentalInvolvement => "Low parental involvement indicates need for family engagement initiatives"
    case NoSignificantRisk => "No significant equity risk factors identified - student has good support systems"
  }

  /** The five equity risks, in the order their conditions are checked. */
  const RiskOrder: seq<Risk> :=
    [LowIncome, LimitedResources, NoInternet, LimitedParentalEducation, LowParentalInvolvement]

  /** The five equity-risk conditions, in the same order. */
  function RiskTriggers(s: StudentInput): seq<bool> {
    [ s.familyIncome == Low,
      s.accessToResources == Low,
      s.internetAccess == No,
      s.parentalEducationLevel == HighSchool,
      s.parentalInvolvement == Low ]
  }

  /** How many equity-risk conditions hold. */
  function RiskCount(s: StudentInput): nat {
    Count(RiskTriggers(s))
  }

  /** The equity risk factors: triggered ones in condition order, else the default. */
  function EquityRisks(s: StudentInput): seq<Risk> {
    WithDefault(Select(RiskTriggers(s), RiskOrder), NoSignificantRisk)
  }

  method BuildEquityRisks(s: StudentInput) returns (risks: seq<Risk>)
    ensures risks == EquityRisks(s)
  {
    ghost var flags := RiskTriggers(s);
    risks := [];
    if s.familyIncome == Low {
      risks := risks + [LowIncome];
    }
    assert risks == SelectUpTo(flags, RiskOrder, 1);
    if s.accessToResources == Low {
      risks := risks + [LimitedResources];
    }
    assert risks == SelectUpTo(flags, RiskOrder, 2);
    if s.internetAccess == No {
      risks := risks + [NoInternet];
    }
    assert risks == SelectUpTo(flags, RiskOrder, 3);
    if s.parentalEducationLevel == HighSchool {
      risks := risks + [LimitedParentalEducation];
    }
    assert risks == SelectUpTo(flags, RiskOrder, 4);
    if s.parentalInvolvement == Low {
      risks := risks + [LowParentalInvolvement];
    }
    assert risks == SelectUpTo(flags, RiskOrder, 5);
    if risks == [] {
      risks := risks + [NoSignificantRisk];
    }
  }

  /** The three income texts, in the order of the conditional expression that picks one. */
  datatype IncomeOutlook = EconomicBarriers | ModerateEconomicImpact | SupportiveEconomics

  function IncomeText(o: IncomeOutlook): string {
    match o
    case EconomicBarriers => "Economic barriers may significantly impact educational outcomes"
    case ModerateEconomicImpact => "Moderate economic impact on educational access"
    case SupportiveEconomics => "Economic factors are supportive of educational success"
  }

  /** The three resource texts, in the order of the conditional expression that picks one. */
  datatype ResourceOutlook = CriticalLimitations | ModerateAccess | GoodAccess

  function ResourceText(o: ResourceOutlook): string {
    match o
    case CriticalLimitations => "Critical resource limitations requiring immediate intervention"
    case ModerateAccess => "Moderate resource access with room for improvement"
    case GoodAccess => "Good access to educational resources supporting success"
  }

  datatype MissionInsights = MissionInsights(
    incomeImpact: IncomeOutlook,
    resourceAccess: ResourceOutlook,
    supportNeeded: bool,
    interventionPriority: string)

  /**
   * The mission insights, computed from the input and the length of the risk
   * list as returned: the income text follows the income level and the
   * resource text the access level, one text per level.
   */
  function Mission(s: StudentInput, equityRiskFactors: seq<Risk>): (r: MissionInsights)
    ensures r.incomeImpact == EconomicBarriers <==> s.familyIncome == Low
    ensures r.incomeImpact == ModerateEconomicImpact <==> s.familyIncome == Medium
    ensures r.incomeImpact == SupportiveEconomics <==> s.familyIncome == High
    ensures r.resourceAccess == CriticalLimitations <==> s.accessToResources == Low
    ensures r.resourceAccess == ModerateAccess <==> s.accessToResources == Medium
    ensures r.resourceAccess == GoodAccess <==> s.accessToResources == High
    ensures r.supportNeeded ==> s.familyIncome == Low && r.interventionPriority == "High"
  {
    var supportNeeded := |equityRiskFactors| > 2 && s.familyIncome == Low;
    MissionInsights(
      if s.familyIncome == Low then EconomicBarriers
      else if s.familyIncome == Medium then ModerateEconomicImpact
      else SupportiveEconomics,
      if s.accessToResources == Low then CriticalLimitations
      else if s.accessToResources == Medium then ModerateAccess
      else GoodAccess,
      supportNeeded,
      if supportNeeded then "High" else if |equityRiskFactors| > 1 then "Medium" else "Low")
  }

  /** Recommendations are never empty and hold at most six entries, one per triggered condition. */
  lemma {:induction false} RecommendationsShape(s: StudentInput)
    ensures 1 <= |Recommendations(s)| <= 6
    ensures Count(AdviceTriggers(s)) > 0 ==> |Recommendations(s)| == Count(AdviceTriggers(s))
  {
    SelectLength(AdviceTriggers(s), AdviceOrder, 6);
    CountBounds(AdviceTriggers(s), 6);
  }

  /** The default message appears exactly when none of the six conditions holds, and then alone. */
  lemma {:induction false} ContinueIffNoTrigger(s: StudentInput)
    ensures ContinueHabits in Recommendations(s) <==> Count(AdviceTriggers(s)) == 0
    ensures Count(AdviceTriggers(s)) == 0 ==> Recommendations(s) == [ContinueHabits]
  {
    SelectLength(AdviceTriggers(s), AdviceOrder, 6);
    SelectMember(AdviceTriggers(s), AdviceOrder, 6, ContinueHabits);
  }

  /** Recommendation i appears exactly when condition i holds. */
  lemma {:induction false} AdviceFires(s: StudentInput, i: nat)
    requires i < 6
    ensures AdviceOrder[i] in Recommendations(s) <==> AdviceTriggers(s)[i]
  {
    SelectLength(AdviceTriggers(s), AdviceOrder, 6);
    CountBounds(AdviceTriggers(s), 6);
    SelectMember(AdviceTriggers(s), AdviceOrder, 6, AdviceOrder[i]);
  }

  /** Triggered recommendations appear in the fixed order of their conditions. */
  lemma {:induction false} AdviceInOrder(s: StudentInput, i: nat, j: nat)
    requires i < j < 6
    requires AdviceTriggers(s)[i] && AdviceTriggers(s)[j]
    ensures exists p, q ::
              0 <= p < q < |Recommendations(s)| &&
              Recommendations(s)[p] == AdviceOrder[i] && Recommendations(s)[q] == AdviceOrder[j]
  {
    var selected := Select(AdviceTriggers(s), AdviceOrder);
    SelectOrder(AdviceTriggers(s), AdviceOrder, 6, i, j);
    var p, q :| 0 <= p < q < |selected| && selected[p] == AdviceOrder[i] && selected[q] == AdviceOrder[j];
    assert Recommendations(s) == selected;
  }

  /** Risk factors are never empty and hold at most five entries, one per triggered condition. */
  lemma {:induction false} EquityRisksShape(s: StudentInput)
    ensures 1 <= |EquityRisks(s)| <= 5
    ensures RiskCount(s) <= 5
    ensures |EquityRisks(s)| == if RiskCount(s) == 0 then 1 else RiskCount(s)
  {
    SelectLength(RiskTriggers(s), RiskOrder, 5);
    CountBounds(RiskTriggers(s), 5);
  }

  /** The no-risk message appears exactly when none of the five conditions holds, and then alone. */
  lemma {:induction false} NoRiskIffNoTrigger(s: StudentInput)
    ensures NoSignificantRisk in EquityRisks(s) <==> RiskCount(s) == 0
    ensures RiskCount(s) == 0 ==> EquityRisks(s) == [NoSignificantRisk]
  {
    SelectLength(RiskTriggers(s), RiskOrder, 5);
    SelectMember(RiskTriggers(s), RiskOrder, 5, NoSignificantRisk);
  }

  /** Risk i appears exactly when risk condition i holds. */
  lemma {:induction false} RiskFires(s: StudentInput, i: nat)
    requires i < 5
    ensures RiskOrder[i] in EquityRisks(s) <==> RiskTriggers(s)[i]
  {
    SelectLength(RiskTriggers(s), RiskOrder, 5);
    CountBounds(RiskTriggers(s), 5);
    SelectMember(RiskTriggers(s), RiskOrder, 5, RiskOrder[i]);
  }

  /** Triggered risks appear in the fixed order of their conditions. */
  lemma {:induction false} RisksInOrder(s: StudentInput, i: nat, j: nat)
    requires i < j < 5
    requires RiskTriggers(s)[i] && RiskTriggers(s)[j]
    ensures exists p, q ::
              0 <= p < q < |EquityRisks(s)| &&
              EquityRisks(s)[p] == RiskOrder[i] && EquityRisks(s)[q] == RiskOrder[j]
  {
    var selected := Select(RiskTriggers(s), RiskOrder);
    SelectOrder(RiskTriggers(s), RiskOrder, 5, i, j);
    var p, q :| 0 <= p < q < |selected| && selected[p] == RiskOrder[i] && selected[q] == RiskOrder[j];
    assert EquityRisks(s) == selected;
  }

  /** Support is needed exactly for a low-income student with at least three risk conditions. */
  lemma {:induction false} SupportNeededIff(s: StudentInput)
    ensures Mission(s, EquityRisks(s)).supportNeeded <==> s.familyIncome == Low && RiskCount(s) >= 3
  {
    EquityRisksShape(s);
  }

  /**
   * Priority is High exactly when support is needed, Low exactly when at most
   * one risk condition holds (the default message alone also has length 1),
   * and Medium otherwise.
   */
  lemma {:induction false} InterventionPriority(s: StudentInput)
    ensures Mission(s, EquityRisks(s)).interventionPriority == "High" <==> Mission(s, EquityRisks(s)).supportNeeded
    ensures Mission(s, EquityRisks(s)).interventionPriority == "Low" <==> RiskCount(s) <= 1
    ensures Mission(s, EquityRisks(s)).interventionPriority == "Medium" <==>
              2 <= RiskCount(s) && !(s.familyIncome == Low && RiskCount(s) >= 3)
  {
    EquityRisksShape(s);
  }
}
