# Procrastination predictor: feature pipeline model

This project models the deterministic core of a single-page procrastination
risk estimator. For each request it:

- derives engineered behavioural signals from the user's slider and selector
  answers;
- aligns them with the column schema the classifier was trained on (a base
  frame of thirteen columns, zero-filled one-hot columns, the chosen task
  type's and day's columns set to 1, projection into schema order);
- queries the classifier for a label and a probability;
- builds the rule-based list of reasons with its "balanced" fallback.

Modules:

- `Signals` (`signals.dfy`) holds the raw answers and the formulas of the
  eight derived signals fed to the model, four of which are also displayed.
  These are pure expressions in the source, so they are functions here.
- `FeatureFrame` (`feature_frame.dfy`) builds the frame. The source mutates a
  one-row frame in place, so this part is written as methods over a
  `map<string, real>`:
  - `ZeroFill` is a loop with invariants.
  - `ActivateOneHot` holds the two conditional assignments.
  - `BuildFeatureVector` composes the steps.
  - `ZeroFill` and `ActivateOneHot` each state their whole new map in terms
    of the map they were given.
  - `BuildFeatureVector` is proved equal to an independent reference
    definition, `FeatureVector`, which says column by column what the aligned
    vector holds.
- `Prediction` (`prediction.dfy`):
  - The trained classifier is a `Model` value holding two given functions,
    `predict` and `predict_proba` for class 1.
  - `Explain` builds the reason list by successive appends, as the source does.
  - `Selected` and `Rationale` are its specification.

Notes on details of the code the model keeps:

- The one-hot activation tests membership among the frame's columns, which are
  the schema's columns plus the thirteen base names, not the schema alone.
  `ActivationTestIsSchemaTest` proves that the two tests agree, because no
  `task_type_`/`day_of_week_` name is a base name. `BuildFeatureVector` keeps
  the frame test, as the code does.
- The rules fire on Python truthiness of the integer signals
  (`social_media_risk`, `low_energy`, `high_stress` non-zero), so `Fired`
  tests `!= 0`.
- `mental_readiness` is an exact halving, modelled as a `real`. Every other
  frame value is an integer cast to `real`.
- Determinism of the vector: `BuildFeatureVector` ensures its result equals
  the function `FeatureVector(raw, schema)`. Two builds from the same inputs
  and schema therefore give the same vector.

## Model

| member | source | states |
|---|---|---|
| Signals.UsedSocialMediaNum | app.py:74 | the answer encodes as a 0/1 flag, 1 exactly for "Yes" |
| Signals.IsWeekend | app.py:75 | is_weekend is a 0/1 flag, 1 exactly when the day is Saturday or Sunday |
| Signals.EmotionalLoad | app.py:77 | for slider inputs the load lies in [-4, 4]; it is positive exactly when stress exceeds energy and zero exactly when they are equal |
| Signals.MentalReadiness | app.py:78 | readiness is the midpoint of mood and energy: equidistant from both, between them, hence within [1, 5] |
| Signals.SocialMediaRisk | app.py:79 | the risk flag is 1 iff the user answered Yes and the post-use feeling is at most 3; with answer No it is 0 whatever the feeling |
| Signals.LowEnergy | app.py:80 | low_energy is a 0/1 flag, 1 exactly when energy is at most 2 |
| Signals.HighStress | app.py:81 | high_stress is a 0/1 flag, 1 exactly when stress is at least 4 |
| Signals.RiskIndex | app.py:83-88 | with load in [-4, 4] and 0/1 flags, the index lies in [-4, 8] and exceeds the load by between 0 and 4 |
| Signals.Engineer | app.py:74-88 | for valid answers all signals together: flags are 0/1, load in [-4, 4], readiness in [1, 5], index in [-4, 8], with the weekend and social-media conditions as iffs on the raw answers |
| Signals.RiskIndexExtremes | app.py:77-88 | the index is 8 exactly for stress 5, energy 1 and a draining social-media answer; it is -4 exactly for stress 1, energy 5 and no such answer |
| Signals.ScenarioAllRisks | app.py:74-88 | worst-case answers give load 4, readiness 1.0, every flag 1 and index 8 |
| Signals.ScenarioBalanced | app.py:74-88 | neutral answers with no social media give load 0, readiness 3.0, every risk flag 0 and index 0 |
| FeatureFrame.Lower | app.py:127-128 | lower-casing keeps the length and lower-cases each character |
| FeatureFrame.BaseFrame | app.py:104-118 | the starting frame has exactly the thirteen base columns |
| FeatureFrame.ZeroFill | app.py:121-124 | afterwards every schema column is present; columns already present keep their values; only missing schema columns are added, each with value 0 |
| FeatureFrame.ActivateOneHot | app.py:127-134 | no column is added; the task and day columns are set to 1 when present; every other column keeps its value |
| FeatureFrame.Project | app.py:137 | the vector has the schema's length and holds, at position i, the frame's value for the schema's i-th column |
| FeatureFrame.BuildFeatureVector | app.py:104-137 | the built vector has the schema's length and equals the reference vector, so the projection never misses a column and two builds agree |
| FeatureFrame.TaskColumn | app.py:127 | the task column is `task_type_` followed by the task's label lower-cased character by character; it lies in the task-type field and not in the day-of-week field |
| FeatureFrame.DayColumn | app.py:128 | the day column is `day_of_week_` followed by the day's label lower-cased character by character; it lies in the day-of-week field and not in the task-type field |
| FeatureFrame.BaseOutsideFields | app.py:104-118 | no base column lies in either one-hot field |
| FeatureFrame.FeatureVectorColumns | app.py:104-137 | each schema position holds its base column's engineered value, 1 for the chosen task/day column, else 0; base columns outside the schema are dropped |
| FeatureFrame.OneHotIndicator | app.py:127-134 | within the task (day) field the vector is 1 on the chosen task's (day's) column and 0 on every other column of that field |
| FeatureFrame.AtMostOneActive | app.py:127-134 | with distinct schema columns, at most one task-type column and at most one day-of-week column is 1 |
| FeatureFrame.ReferenceLevelAllZero | app.py:127-134 | when the chosen category's column is absent (the dropped reference level), every column of that field is 0 |
| FeatureFrame.ActivationTestIsSchemaTest | app.py:130-134 | testing a one-hot column against the frame's columns (schema plus base) is the same as testing it against the schema |
| Prediction.Fired | app.py:157-164 | there is one firing condition per rule reason |
| Prediction.Selected | app.py:155-164 | selection yields at most as many elements as the list, all drawn from it |
| Prediction.SelectedMembership | app.py:155-164 | in a list without repeats, an element is selected iff its flag is set |
| Prediction.SelectedOrder | app.py:155-164 | of two selected elements, the one earlier in the list comes first |
| Prediction.ReasonsDistinct | app.py:155-170 | the four reasons and the fallback are pairwise different |
| Prediction.RationaleMembership | app.py:155-170 | each rule reason is shown iff its rule fires; the fallback is shown iff no rule fires, and then alone; no line is shown twice |
| Prediction.SelectedDistinct | app.py:155-164 | selecting from a list without repeats gives a list without repeats |
| Prediction.RationaleOrder | app.py:155-164 | fired reasons are shown in the fixed rule order |
| Prediction.LowEnergyAndHighStressCiteLoad | app.py:159-164 | for valid answers, an explanation citing low energy and high stress also cites stress being higher than energy |
| Prediction.ScenarioAllReasons | app.py:155-164 | worst-case answers show all four reasons in order |
| Prediction.ScenarioOnlyFallback | app.py:166-170 | neutral answers show only the fallback |
| Prediction.Label | app.py:149-152 | the label is high risk exactly when the classifier predicts class 1 |
| Prediction.Explain | app.py:155-170 | the appended reasons, or the fallback, equal the rationale; at least one line is shown |
| Prediction.Predict | app.py:145-170 | the label is high risk iff the classifier predicts 1 on the aligned vector; the probability is its class-1 probability on that vector; the reasons are the rationale of the signals |

## Left out

- Training (app.py:8-30) is not modelled. It reads a CSV file, one-hot encodes
  it with pandas and fits a random forest. The fitted classifier is a `Model`
  value of two given functions, and the trained column list is the `schema`
  parameter.
- The process-wide memoization of training is not modelled. The model and
  schema are passed in explicitly.
- The input widgets, the page text and the display calls are not modelled.
  The slider ranges become the precondition `ValidInput`. The selectors and
  the radio become the datatypes `TaskType`, `Day` and `Answer`.
- The 2-decimal formatting of the probability is not modelled. It is
  floating-point presentation.
- Predict: the probability is not bounded to [0, 1]. The classifier is opaque
  here, so that bound is the classifier's promise and not this code's.
- Lower: models ASCII lower-casing only. The category labels are ASCII, so
  full Unicode case mapping is not needed.
- Column names are not checked against the training data's spelling. The
  one-hot columns come from the categories as spelled in the training
  dataset. The code looks them up as `task_type_<label lower-cased>` and
  `day_of_week_<label lower-cased>`. The dataset is not part of this model, so
  whether it spells its categories in lower case is not checked. If it does
  not, no one-hot column would ever match, and `ReferenceLevelAllZero`
  describes every request.
- A pandas frame also orders its columns. The model keeps only the column
  names and values, because the final projection fixes the schema order
  whatever order the frame had.
