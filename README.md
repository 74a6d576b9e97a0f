# Student performance prediction — a verified model of the prediction handler

This project models the `/predict` endpoint of the Student Performance Prediction API
(`summative/API/prediction.py`). A request carries eleven fields about a student. Six are
numeric, each with a declared range. Five are categorical, each restricted to fixed
literals. The handler does the following:

- It refuses with 503 when the regression model was never loaded.
- It turns the request into a one-row frame.
- It label-encodes the five categorical columns with the encoders saved at training time.
  An unseen category becomes 0.
- It adds the engineered features `Study_Efficiency`, `Support_System_Score` and
  `Wellbeing_Score`, but only those the model was trained with.
- It lays the frame out in training feature order, using 0.0 for a missing feature.
- It scales the vector and asks the model for a raw score.
- It replaces a degenerate raw score (magnitude above 1000) with a rule-based estimate,
  then clamps the score into [0, 100].
- From the request it derives a performance tier and confidence, up to six
  recommendations, up to five equity-risk messages and the mission insights.

Any exception after the readiness check becomes a 400.

The modules follow the handler's stages:

| module | file | what it holds |
|---|---|---|
| `Wrappers` | `wrappers.dfy` | `Option`, `Result` |
| `Selection` | `selection.dfy` | "append the item when its condition holds", as a function over flags and items, with its count, order and membership lemmas |
| `Inputs` | `inputs.dfy` | the request body, its field bounds and literal validators |
| `Features` | `features.dfy` | the working frame (`map<string, Cell>`), the encoding loop, feature composition, vector assembly |
| `Scoring` | `scoring.dfy` | clamp, fallback estimate, normaliser, tier ladder |
| `Insights` | `insights.dfy` | recommendations, equity risks, mission insights |
| `Prediction` | `prediction.dfy` | the artifact bundle, the handler as one function (`Pipeline`) and as the step-by-step method, the end-to-end lemmas, the two test profiles |

The fitted scaler and the regression model are opaque functions inside the `Artifacts`
bundle, and nothing is assumed about them. Every score property holds whatever they return.
A frame cell is either a number or a piece of text. A categorical column without an
encoder keeps its text. If that text meets the support-score sum or the numeric vector,
the handler fails with 400, and the model reports that as a failure cause.

## Model

| member | source | states |
|---|---|---|
| `Inputs.ValidateSound` | summative/API/prediction.py:73-168 | a request that validates satisfies every numeric range, and its categorical values are exactly the accepted literals |
| `Inputs.ValidateReportsViolations` | summative/API/prediction.py:73-168 | a rejected request reports at least one field, and a field is reported exactly when its range or its literal check fails |
| `Inputs.ValidateRender` | summative/API/prediction.py:69-168 | every in-range input, written out as a request body, is accepted and read back unchanged |
| `Inputs.ParseLevel` | summative/API/prediction.py:130-152 | a level is accepted exactly when it is one of 'Low', 'Medium', 'High', and it reads back as the same literal |
| `Inputs.ParseEducation` | summative/API/prediction.py:154-160 | accepted exactly for 'High School', 'College', 'Postgraduate', and reads back as the same literal |
| `Inputs.ParseInternet` | summative/API/prediction.py:162-168 | accepted exactly for 'Yes', 'No', and reads back as the same literal |
| `Features.InitialCell` | summative/API/prediction.py:255-267 | the request frame holds text in exactly the five categorical columns |
| `Features.EncodeCategoricals` | summative/API/prediction.py:275-287 | the loop keeps every column; a categorical column with an encoder gets its category's code, or 0 when the category is unseen; every other column is unchanged |
| `Features.SupportScore` | summative/API/prediction.py:298-306 | the support sum is defined exactly when none of its three present columns still holds text |
| `Features.Composed` | summative/API/prediction.py:293-312 | composition fails exactly when `Support_System_Score` is wanted and its sum meets text; otherwise it adds exactly the engineered features named in the feature list, with their formulas, and leaves every other column unchanged |
| `Features.ComposeFeatures` | summative/API/prediction.py:293-312 | the in-place composition computes `Features.Composed` |
| `Features.AssembleFeatures` | summative/API/prediction.py:319-325 | the vector has one entry per feature name, in order: the frame's value when present, else 0.0 |
| `Features.AsNumbers` | summative/API/prediction.py:328-333 | the vector converts to numbers exactly when every entry is a number, and the values are kept |
| `Scoring.Clamp` | summative/API/prediction.py:355-359 | the result lies in [0, 100], equals the input inside it, and is the nearer bound outside it |
| `Scoring.NormaliseScore` | summative/API/prediction.py:345-359 | for every raw output the final prediction lies in [0, 100]; a raw value in [0, 100] is kept; a non-degenerate value above 100 or below 0 becomes 100 or 0 |
| `Scoring.DegenerateUsesFallback` | summative/API/prediction.py:345-356 | on the fallback path the prediction depends only on previous scores, hours studied, attendance, family income and resource access |
| `Scoring.DirectPathIgnoresInput` | summative/API/prediction.py:357-359 | on the direct path the prediction depends only on the raw output |
| `Scoring.FallbackRange` | summative/API/prediction.py:348-354 | for an in-range input the rule-based estimate lies in [-8, 102] |
| `Scoring.FallbackMonotone` | summative/API/prediction.py:348-354 | the rule-based estimate never drops when a weighted input or an adjustment grows |
| `Scoring.NormaliseIdempotent` | summative/API/prediction.py:345-359 | normalising an already normalised score changes nothing |
| `Scoring.Classify` | summative/API/prediction.py:364-378 | each of the five levels holds exactly on its score band (85/75/65/50); confidence is High exactly from 75, Low exactly below 50, Medium in between |
| `Scoring.ClassifyBoundary` | summative/API/prediction.py:364-369 | 85 is Excellent/High, 84.99 is Good/High |
| `Insights.BuildRecommendations` | summative/API/prediction.py:381-397 | the run of conditional appends builds `Insights.Recommendations` |
| `Insights.RecommendationsShape` | summative/API/prediction.py:381-397 | there are between one and six recommendations, one per condition that holds when any holds |
| `Insights.ContinueIffNoTrigger` | summative/API/prediction.py:395-397 | the "continue current habits" message appears exactly when none of the six conditions holds, and then alone |
| `Insights.AdviceFires` | summative/API/prediction.py:383-393 | each of the six messages appears exactly when its condition holds |
| `Insights.AdviceInOrder` | summative/API/prediction.py:383-393 | triggered messages appear in the order of their conditions |
| `Insights.BuildEquityRisks` | summative/API/prediction.py:400-414 | the run of conditional appends builds `Insights.EquityRisks` |
| `Insights.EquityRisksShape` | summative/API/prediction.py:400-414 | there are between one and five risk messages, one per condition that holds when any holds |
| `Insights.NoRiskIffNoTrigger` | summative/API/prediction.py:413-414 | the "no significant risk" message appears exactly when none of the five conditions holds, and then alone |
| `Insights.RiskFires` | summative/API/prediction.py:402-411 | each of the five risk messages appears exactly when its condition holds |
| `Insights.RisksInOrder` | summative/API/prediction.py:402-411 | triggered risk messages appear in the order of their conditions |
| `Insights.SupportNeededIff` | summative/API/prediction.py:425 | support is needed exactly for a low-income student with at least three risk conditions |
| `Insights.Mission` | summative/API/prediction.py:417-428 | the income text is the "economic barriers" one exactly for low income, the "moderate" one exactly for medium, the "supportive" one exactly for high; likewise the resource text follows the access level; support is only ever flagged for low income, and then with High priority |
| `Insights.InterventionPriority` | summative/API/prediction.py:427-428 | priority is High exactly when support is needed, Low exactly when at most one risk condition holds, Medium otherwise |
| `Prediction.FeatureVector` | summative/API/prediction.py:247-325 | the handler reports "not ready" exactly when the model is missing; a vector is produced only when all four artifacts are loaded, with one entry per training feature |
| `Prediction.PredictStudentPerformance` | summative/API/prediction.py:246-447 | the step-by-step handler computes `Prediction.Pipeline`; it answers 503 exactly when the model is missing and 400 for any other failure; a successful score lies in [0, 100] |
| `Prediction.EncodedComposable` | summative/API/prediction.py:275-312 | encoding never touches the numeric columns that the engineered features read |
| `Prediction.EncodedCellNumeric` | summative/API/prediction.py:275-287 | after encoding, a request column holds a number exactly when it is numeric or has an encoder |
| `Prediction.ComposedSucceedsIff` | summative/API/prediction.py:298-306 | composition of a request's frame fails exactly when `Support_System_Score` is wanted but parental involvement or resource access has no encoder |
| `Prediction.FeatureCellNumeric` | summative/API/prediction.py:319-325 | a vector entry is a number unless it names a categorical column without an encoder |
| `Prediction.VectorNumericIff` | summative/API/prediction.py:319-333 | the vector is all numbers exactly when every categorical feature name has an encoder |
| `Prediction.PipelineSucceedsIff` | summative/API/prediction.py:253-447 | with all artifacts loaded, a valid request succeeds exactly when the encoders fit the feature list; an unseen category never makes it fail |
| `Prediction.MissingArtifactFails` | summative/API/prediction.py:247-251 | a missing encoder table, feature list or scaler, with the model loaded, is a 400 failure, not a 503 |
| `Prediction.SuccessIndependentOfInput` | summative/API/prediction.py:253-447 | whether a prediction succeeds depends on the artifacts only, never on the valid request |
| `Prediction.PipelineResponds` | summative/API/prediction.py:342-444 | a successful response is built from its own score, and that score lies in [0, 100] |
| `Prediction.RespondShape` | summative/API/prediction.py:364-444 | the response's level and confidence match the score's band; it has one to six recommendations and one to five risk messages; support and High priority go exactly to low-income students with at least three risks; the "economic barriers" and "supportive" income texts go exactly to low and high income, the "critical limitations" and "good access" resource texts exactly to low and high access |
| `Prediction.DegenerateModelFallsBack` | summative/API/prediction.py:345-356 | a model whose every output exceeds 1000 in magnitude yields the clamped rule-based estimate |
| `Prediction.ProfileEstimates` | summative/API/test_api.py:54-66 | both test profiles are valid requests; their rule-based estimates are 39 and 77 |
| `Prediction.LowIncomeInsights` | summative/API/test_api.py:54-66 | the low-income profile draws all six recommendations, all five risks, and support |
| `Prediction.LowIncomeProfile` | summative/API/test_api.py:54-66 | any successful prediction for the low-income profile lists six recommendations and five risks, and asks for support with High priority |
| `Prediction.PrivilegedInsights` | summative/API/test_api.py:89-101 | the privileged profile draws only the "continue" and "no significant risk" messages, and Low priority |
| `Prediction.PrivilegedProfile` | summative/API/test_api.py:89-101 | any successful prediction for the privileged profile gives those two single messages, no support and Low priority |

## Left out

- The HTTP layer: the FastAPI app, CORS, the `/`, `/health` and `/model-info` routes, the
  422 handler and the server entry point. `Inputs.Validate` stands in for request-body
  validation; a rejected body never reaches the handler.
- Loading the artifacts from disk at start-up. Each artifact is an `Option` in
  `Prediction.Artifacts`: `None` means loading failed.
- The scaler and the regression model themselves. They are functions with no contract,
  and a mismatch between vector length and scaler is not modelled as a failure.
- `round(prediction, 2)` in the response, and floating point in general. Numbers are
  exact reals, and NaN and infinities do not arise. The tier is computed from the
  unrounded score, as in the source.
- The debug output and the pandas and numpy mechanics. The frame is a map from column
  name to cell, and a column's text becomes the failure causes `TextInSupportScore` and
  `NonNumericFeature`. The exception message in the 400 detail is not modelled.
- Readiness: the handler refuses with 503 only when the model is missing
  (summative/API/prediction.py:247-251); the `/health` route is the one that counts all
  four artifacts (summative/API/prediction.py:208). A missing encoder table, feature list
  or scaler raises inside the handler's `try` and comes back as 400
  (`Prediction.MissingArtifactFails`).
- The response's message strings are constructors: `Insights.Advice`, `Insights.Risk`,
  `Insights.IncomeOutlook` and `Insights.ResourceOutlook`. Each is mapped to the source's
  exact text by `AdviceText`, `RiskText`, `IncomeText` and `ResourceText`.
