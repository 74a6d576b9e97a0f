/**
 * The prediction handler from the readiness check to the response: encode,
 * compose, assemble, scale, predict, normalise, and derive the insights.
 * The artifacts loaded at start-up are an explicit bundle; the fitted scaler
 * and regression model are opaque functions inside it.
 */
module Prediction {
  import opened Wrappers
  import opened Selection
  import opened Inputs
  import opened Features
  import opened Scoring
  import opened Insights

  /** The four start-up artifacts; each is None when loading it failed. */
  datatype Artifacts = Artifacts(
    model: Option<seq<real> -> real>,
    scaler: Option<seq<real> -> seq<real>>,
    labelEncoders: Option<map<string, LabelTable>>,
    featureNames: Option<seq<string>>)

  /** Why a request that got past the readiness check still failed. */
  datatype FailureCause =
    | MissingArtifact(name: string)  // an artifact other than the model was never loaded
    | TextInSupportScore             // the support sum met a category without an encoder
    | NonNumericFeature              // the vector holds a category without an encoder

  datatype PredictError = NotReady | PredictionFailed(cause: FailureCause)

  /** The HTTP status each failure is reported with. */
  function StatusCode(e: PredictError): int {
    match e
    case NotReady => 503
    case PredictionFailed(_) => 400
  }

  datatype PredictionResponse = PredictionResponse(
    predictedScore: real,
    performanceLevel: string,
    recommendations: seq<string>,
    equityRiskFactors: seq<string>,
    missionInsights: MissionInsights,
    confidenceLevel: string)

  function AdviceTexts(xs: seq<Advice>): seq<string> {
    seq(|xs|, i requires 0 <= i < |xs| => AdviceText(xs[i]))
  }

  function RiskTexts(xs: seq<Risk>): seq<string> {
    seq(|xs|, i requires 0 <= i < |xs| => RiskText(xs[i]))
  }

  /** Everything the response says, given the final score. */
  function Respond(score: real, s: StudentInput): PredictionResponse {
    var tier := Classify(score);
    var risks := EquityRisks(s);
    PredictionResponse(
      score, tier.performanceLevel,
      AdviceTexts(Recommendations(s)), RiskTexts(risks),
      Mission(s, risks), tier.confidence)
  }

  /** Encoding never touches the numeric columns the composed features read. */
  lemma {:induction false} EncodedComposable(s: StudentInput, encoders: map<string, LabelTable>)
    requires ValidInput(s)
    ensures var f := Encoded(InitialFrame(s), encoders);
            && f.Keys == InitialFrame(s).Keys
            && ComposableFrame(f)
            && f[TutoringSessions] == Num(s.tutoringSessions)
  {
    assert HoursStudied !in CategoricalColumns && Attendance !in CategoricalColumns;
    assert SleepHours !in CategoricalColumns && PhysicalActivity !in CategoricalColumns;
    assert TutoringSessions !in CategoricalColumns;
  }

  /**
   * After encoding, a column of the request holds a number exactly when it is
   * numeric or a categorical column that has an encoder.
   */
  lemma {:induction false} EncodedCellNumeric(s: StudentInput, encoders: map<string, LabelTable>, c: string)
    requires c in InitialFrame(s)
    ensures var f := Encoded(InitialFrame(s), encoders);
            c in f && (f[c].Num? <==> (c in CategoricalColumns ==> c in encoders))
  {
    InitialCell(s, c);
  }

  /** The request's frame, encoded and then given the engineered features the model uses. */
  function ComposedFrame(s: StudentInput, encoders: map<string, LabelTable>, featureNames: seq<string>): Option<Frame>
    requires ValidInput(s)
  {
    EncodedComposable(s, encoders);
    Composed(Encoded(InitialFrame(s), encoders), featureNames)
  }

  /**
   * The handler's steps up to the scaler: the readiness check, encoding,
   * composition and vectorisation, ending in the numeric feature vector.
   */
  function FeatureVector(a: Artifacts, s: StudentInput): (r: Result<seq<real>, PredictError>)
    requires ValidInput(s)
    ensures r == Failure(NotReady) <==> a.model.None?
    ensures r.Success? ==> a.model.Some? && a.scaler.Some? && a.labelEncoders.Some? && a.featureNames.Some?
    ensures r.Success? ==> |r.value| == |a.featureNames.value|
  {
    if a.model.None? then Failure(NotReady)
    else if a.labelEncoders.None? then Failure(PredictionFailed(MissingArtifact("label_encoders")))
    else if a.featureNames.None? then Failure(PredictionFailed(MissingArtifact("feature_names")))
    else
      var names := a.featureNames.value;
      var composed := ComposedFrame(s, a.labelEncoders.value, names);
      if composed.None? then Failure(PredictionFailed(TextInSupportScore))
      else if a.scaler.None? then Failure(PredictionFailed(MissingArtifact("scaler")))
      else
        var vector := AsNumbers(Assembled(composed.value, names));
        if vector.None? then Failure(PredictionFailed(NonNumericFeature))
        else Success(vector.value)
  }

  /** The whole handler after request validation, as one function. */
  function Pipeline(a: Artifacts, s: StudentInput): Result<PredictionResponse, PredictError>
    requires ValidInput(s)
  {
    match FeatureVector(a, s)
    case Failure(e) => Failure(e)
    case Success(vector) =>
      var raw := a.model.value(a.scaler.value(vector));
      Success(Respond(NormaliseScore(raw, s), s))
  }

  /**
   * The encoders and the training feature list fit together: every categorical
   * column the model reads has an encoder, and so do the two categorical
   * columns summed into the support score when the model uses it.
   */
  predicate Compatible(encoders: map<string, LabelTable>, featureNames: seq<string>) {
    && (forall c :: c in featureNames && c in CategoricalColumns ==> c in encoders)
    && (SupportSystemScore in featureNames ==> ParentalInvolvement in encoders && AccessToResources in encoders)
  }

  /** Composition fails exactly when the support score would add a category's text. */
  lemma {:induction false} ComposedSucceedsIff(s: StudentInput, encoders: map<string, LabelTable>, featureNames: seq<string>)
    requires ValidInput(s)
    ensures ComposedFrame(s, encoders, featureNames).Some? <==>
            (SupportSystemScore in featureNames ==> ParentalInvolvement in encoders && AccessToResources in encoders)
  {
    EncodedComposable(s, encoders);
    EncodedCellNumeric(s, encoders, ParentalInvolvement);
    EncodedCellNumeric(s, encoders, AccessToResources);
  }

  /** One entry of the composed vector is a number unless it is a categorical column without an encoder. */
  lemma {:induction false} FeatureCellNumeric(s: StudentInput, encoders: map<string, LabelTable>, featureNames: seq<string>, n: string)
    requires ValidInput(s)
    requires ComposedFrame(s, encoders, featureNames).Some?
    requires n in featureNames
    ensures FeatureCell(ComposedFrame(s, encoders, featureNames).value, n).Num? <==>
            (n in CategoricalColumns ==> n in encoders)
  {
    EncodedComposable(s, encoders);
    var composed := ComposedFrame(s, encoders, featureNames).value;
    if n in ComposedFeatures {
      assert n !in CategoricalColumns;
      assert n == StudyEfficiency || n == SupportSystemScore || n == WellbeingScore;
    } else if n in composed {
      EncodedCellNumeric(s, encoders, n);
    } else {
      assert n !in CategoricalColumns by {
        assert forall c :: c in CategoricalColumns ==> c in InitialFrame(s);
      }
    }
  }

  /**
   * Once composed, the feature vector is all numbers exactly when every
   * categorical column among the feature names has an encoder.
   */
  lemma {:induction false} VectorNumericIff(s: StudentInput, encoders: map<string, LabelTable>, featureNames: seq<string>)
    requires ValidInput(s)
    requires ComposedFrame(s, encoders, featureNames).Some?
    ensures AsNumbers(Assembled(ComposedFrame(s, encoders, featureNames).value, featureNames)).Some? <==>
            forall c :: c in featureNames && c in CategoricalColumns ==> c in encoders
  {
    var composed := ComposedFrame(s, encoders, featureNames).value;
    var cells := Assembled(composed, featureNames);
    forall i | 0 <= i < |cells|
      ensures cells[i].Num? <==> (featureNames[i] in CategoricalColumns ==> featureNames[i] in encoders)
    {
      FeatureCellNumeric(s, encoders, featureNames, featureNames[i]);
    }
    if forall c :: c in featureNames && c in CategoricalColumns ==> c in encoders {
      assert forall i :: 0 <= i < |cells| ==> cells[i].Num?;
    } else {
      var c :| c in featureNames && c in CategoricalColumns && c !in encoders;
      var i :| 0 <= i < |featureNames| && featureNames[i] == c;
      assert !cells[i].Num?;
    }
  }

  /**
   * With all four artifacts loaded, a valid request succeeds exactly when the
   * encoders and the feature list are compatible; the request's own values,
   * unseen categories included, never make it fail.
   */
  lemma {:induction false} PipelineSucceedsIff(a: Artifacts, s: StudentInput)
    requires ValidInput(s)
    requires a.model.Some? && a.scaler.Some? && a.labelEncoders.Some? && a.featureNames.Some?
    ensures Pipeline(a, s).Success? <==> Compatible(a.labelEncoders.value, a.featureNames.value)
  {
    var encoders, names := a.labelEncoders.value, a.featureNames.value;
    ComposedSucceedsIff(s, encoders, names);
    if ComposedFrame(s, encoders, names).Some? {
      VectorNumericIff(s, encoders, names);
    }
  }

  /**
   * The handler: refuse with 503 before any work when the model is missing,
   * otherwise run the steps in order; the first failing step ends the request
   * with a 400.
   */
  method PredictStudentPerformance(a: Artifacts, s: StudentInput) returns (r: Result<PredictionResponse, PredictError>)
    requires ValidInput(s)
    ensures r == Pipeline(a, s)
    ensures r == Failure(NotReady) <==> a.model.None?
    ensures r.Failure? ==> StatusCode(r.error) == (if a.model.None? then 503 else 400)
    ensures r.Success? ==> 0.0 <= r.value.predictedScore <= 100.0
  {
    if a.model.None? {
      return Failure(NotReady);
    }
    if a.labelEncoders.None? {
      return Failure(PredictionFailed(MissingArtifact("label_encoders")));
    }
    var frame := EncodeCategoricals(InitialFrame(s), a.labelEncoders.value);
    if a.featureNames.None? {
      return Failure(PredictionFailed(MissingArtifact("feature_names")));
    }
    var names := a.featureNames.value;
    EncodedComposable(s, a.labelEncoders.value);
    var composed := ComposeFeatures(frame, names);
    if composed.None? {
      return Failure(PredictionFailed(TextInSupportScore));
    }
    frame := composed.value;
    var cells := AssembleFeatures(frame, names);
    if a.scaler.None? {
      return Failure(PredictionFailed(MissingArtifact("scaler")));
    }
    var vector := AsNumbers(cells);
    if vector.None? {
      return Failure(PredictionFailed(NonNumericFeature));
    }
    var raw := a.model.value(a.scaler.value(vector.value));
    var prediction := NormaliseScore(raw, s);
    var tier := Classify(prediction);
    var recommendations := BuildRecommendations(s);
    var risks := BuildEquityRisks(s);
    var mission := Mission(s, risks);
    r := Success(PredictionResponse(
      prediction, tier.performanceLevel,
      AdviceTexts(recommendations), RiskTexts(risks),
      mission, tier.confidence));
  }

  /**
   * Only a missing model is reported as "not ready"; a missing encoder table,
   * scaler or feature list surfaces later, inside the handler, as a 400.
   */
  lemma MissingArtifactFails(a: Artifacts, s: StudentInput)
    requires ValidInput(s)
    requires a.model.Some?
    requires a.labelEncoders.None? || a.featureNames.None? || a.scaler.None?
    ensures Pipeline(a, s).Failure? && StatusCode(Pipeline(a, s).error) == 400
    ensures a.labelEncoders.None? ==> Pipeline(a, s).error == PredictionFailed(MissingArtifact("label_encoders"))
  {
  }

  /** Whether a prediction succeeds depends on the artifacts only, never on the (valid) request. */
  lemma {:induction false} SuccessIndependentOfInput(a: Artifacts, s: StudentInput, t: StudentInput)
    requires ValidInput(s) && ValidInput(t)
    ensures Pipeline(a, s).Success? <==> Pipeline(a, t).Success?
  {
    if a.model.Some? && a.scaler.Some? && a.labelEncoders.Some? && a.featureNames.Some? {
      PipelineSucceedsIff(a, s);
      PipelineSucceedsIff(a, t);
    }
  }

  /** A successful response is the one built from its own score, and that score lies within 0..100. */
  lemma PipelineResponds(a: Artifacts, s: StudentInput)
    requires ValidInput(s)
    requires Pipeline(a, s).Success?
    ensures 0.0 <= Pipeline(a, s).value.predictedScore <= 100.0
    ensures Pipeline(a, s).value == Respond(Pipeline(a, s).value.predictedScore, s)
  {
  }

  /**
   * What every response promises: a level and a confidence that match the
   * score's band, between one and six recommendations, between one and five
   * equity messages, support flagged exactly for a low-income student with at
   * least three risk factors, and the critical income and resource texts
   * exactly for low income and low access.
   */
  lemma {:induction false} RespondShape(score: real, s: StudentInput)
    ensures var r := Respond(score, s);
            && (r.performanceLevel == "Excellent" <==> score >= 85.0)
            && (r.confidenceLevel == "High" <==> score >= 75.0)
            && (r.confidenceLevel == "Low" <==> score < 50.0)
            && 1 <= |r.recommendations| <= 6
            && 1 <= |r.equityRiskFactors| <= 5
            && (r.missionInsights.supportNeeded <==> s.familyIncome == Low && RiskCount(s) >= 3)
            && (r.missionInsights.interventionPriority == "High" <==> r.missionInsights.supportNeeded)
            && (r.missionInsights.incomeImpact == EconomicBarriers <==> s.familyIncome == Low)
            && (r.missionInsights.incomeImpact == SupportiveEconomics <==> s.familyIncome == High)
            && (r.missionInsights.resourceAccess == CriticalLimitations <==> s.accessToResources == Low)
            && (r.missionInsights.resourceAccess == GoodAccess <==> s.accessToResources == High)
  {
    RecommendationsShape(s);
    EquityRisksShape(s);
    SupportNeededIff(s);
    InterventionPriority(s);
  }

  /**
   * A model whose every output is beyond 1000 in magnitude is never trusted:
   * each successful response then carries the clamped rule-based estimate.
   */
  lemma DegenerateModelFallsBack(a: Artifacts, s: StudentInput)
    requires ValidInput(s)
    requires a.model.Some? && forall v :: Degenerate(a.model.value(v))
    requires Pipeline(a, s).Success?
    ensures Pipeline(a, s).value.predictedScore == Clamp(FallbackScore(s))
  {
  }

  /** The low-income profile sent by the API's client script (summative/API/test_api.py:54-66). */
  const LowIncomeStudent := StudentInput(4.0, 75.0, Low, Low, 6.5, 65.0, 0.5, Low, HighSchool, No, 1.5)

  /** The privileged profile sent by the API's client script (summative/API/test_api.py:89-101). */
  const PrivilegedStudent := StudentInput(8.0, 95.0, High, High, 8.0, 85.0, 3.0, High, Postgraduate, Yes, 4.0)

  /** Both profiles pass validation; the rule-based estimates are 39 and 77. */
  lemma ProfileEstimates()
    ensures ValidInput(LowIncomeStudent) && FallbackScore(LowIncomeStudent) == 39.0
    ensures ValidInput(PrivilegedStudent) && FallbackScore(PrivilegedStudent) == 77.0
  {
  }

  /** The low-income profile draws every recommendation and every equity risk, and support first. */
  lemma {:induction false} LowIncomeInsights()
    ensures |Recommendations(LowIncomeStudent)| == 6
    ensures |EquityRisks(LowIncomeStudent)| == 5
    ensures Mission(LowIncomeStudent, EquityRisks(LowIncomeStudent)).supportNeeded
  {
    var s := LowIncomeStudent;
    CountFull(AdviceTriggers(s), 6);
    CountFull(RiskTriggers(s), 5);
    RecommendationsShape(s);
    EquityRisksShape(s);
    SupportNeededIff(s);
  }

  /**
   * The low-income profile is a valid request, its rule-based estimate is 39,
   * and any successful prediction for it triggers every recommendation and
   * every equity risk and needs support with high priority.
   */
  lemma {:induction false} LowIncomeProfile(a: Artifacts)
    ensures ValidInput(LowIncomeStudent)
    ensures FallbackScore(LowIncomeStudent) == 39.0
    ensures Pipeline(a, LowIncomeStudent).Success? ==>
              var r := Pipeline(a, LowIncomeStudent).value;
              && |r.recommendations| == 6
              && |r.equityRiskFactors| == 5
              && r.missionInsights.supportNeeded
              && r.missionInsights.interventionPriority == "High"
  {
    ProfileEstimates();
    LowIncomeInsights();
    if Pipeline(a, LowIncomeStudent).Success? {
      PipelineResponds(a, LowIncomeStudent);
    }
  }

  /** The privileged profile draws one reassuring message of each kind and no support. */
  lemma {:induction false} PrivilegedInsights()
    ensures Recommendations(PrivilegedStudent) == [ContinueHabits]
    ensures EquityRisks(PrivilegedStudent) == [NoSignificantRisk]
    ensures Mission(PrivilegedStudent, [NoSignificantRisk]).interventionPriority == "Low"
  {
    var s := PrivilegedStudent;
    CountBounds(AdviceTriggers(s), 6);
    CountBounds(RiskTriggers(s), 5);
    ContinueIffNoTrigger(s);
    NoRiskIffNoTrigger(s);
  }

  /**
   * The privileged profile is a valid request, its rule-based estimate is 77,
   * and any successful prediction for it triggers nothing: no support, low
   * priority.
   */
  lemma {:induction false} PrivilegedProfile(a: Artifacts)
    ensures ValidInput(PrivilegedStudent)
    ensures FallbackScore(PrivilegedStudent) == 77.0
    ensures Pipeline(a, PrivilegedStudent).Success? ==>
              var r := Pipeline(a, PrivilegedStudent).value;
              && r.recommendations == [AdviceText(ContinueHabits)]
              && r.equityRiskFactors == [RiskText(NoSignificantRisk)]
              && !r.missionInsights.supportNeeded
              && r.missionInsights.interventionPriority == "Low"
  {
    ProfileEstimates();
    PrivilegedInsights();
    if Pipeline(a, PrivilegedStudent).Success? {
      PipelineResponds(a, PrivilegedStudent);
    }
  }
}
