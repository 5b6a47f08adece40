# Nutrition recommendation service: a Dafny model

This project models the core of a small service that predicts a child's calorie level and recommends a nutrition plan for it. The service has three parts:

- **Serving** (`backend/app.py`). `calculate_bmi` computes weight over height in metres squared. `predict_nutrition` handles one request:
  - builds a one-row feature frame;
  - replaces each categorical column with its label encoder's code;
  - runs the classifier and decodes the label through the target encoder;
  - looks up the nutrition plan;
  - stores one `Prediction` record and returns the response.

  `get_prediction_history` lists one user's records, newest first, each reduced to BMI, calorie level and date.
- **Rule table** (`backend/nutrition_rules.py`). A fixed dictionary maps the calorie levels `Low`, `Medium` and `High` to plans. The lookup is `.get`, so any other label gives `None`.
- **Dataset preparation** (`backend/data_preparation.py`). It checks that the eight required columns are present, keeps the rows with `5 <= Age <= 17` and projects to the seven training columns.

Files and modules:

- `wrappers.dfy` (`Wrappers`): `Option` and `Result`.
- `frames.dfy` (`Frames`): DataFrame cells and named columns.
- `label_encoder.dfy` (`LabelEncoding`): a fitted encoder is its `classes_` sequence, and a class's code is its position. `Transform` fails on an unseen value, as scikit-learn's `transform` raises. `InverseTransform` fails on a code outside the vocabulary.
- `nutrition_rules.dfy` (`NutritionRules`): the rule table and its lookup.
- `data_preparation.dfy` (`DataPreparation`): the column check, the age filter and the projection.
- `app.dfy` (`App`): BMI, the feature frame, the encoder loop, the prediction store, `PredictNutrition` and the history.
- `column_agreement.dfy` (`ColumnAgreement`): the column order is written out in both the preparation and the serving code, and this module proves the two lists agree.

Inputs to the model:

- The trained artifacts are a parameter `Artifacts`. It holds the classifier as a function from the encoded frame to a label code, plus the feature encoders and the target encoder.
- The authenticated user's id, the creation timestamp and `round(bmi, 2)` are also parameters.
- The database session is a `PredictionStore` object. Its `records` field is reassigned on each commit.

The code has none of the guards one might expect, and the model follows the code:

- `calculate_bmi` has no height guard. Only a zero height fails, through the division (`DivisionByZero`). A negative height gives the same BMI as its absolute value.
- An unseen category makes `encoder.transform` raise, and nothing catches it. The model returns a failure with no response and no stored record. It has no "rejected input" translation.
- A calorie level with no plan does not fail. The response carries `None` (JSON `null`) as its recommendation.

## Model

| member | source | states |
|---|---|---|
| Frames.FindColumn | backend/app.py:107-108 | `input_df[col]` gives the position of the column with that name, and fails (KeyError) exactly when no column has that name |
| LabelEncoding.IndexOf | backend/app.py:108 | the code of a value is its first position in the vocabulary; there is none exactly when the value was never seen |
| LabelEncoding.Transform | backend/app.py:108 | `encoder.transform` succeeds exactly on a string in the vocabulary, and that string sits at the returned code |
| LabelEncoding.InverseTransform | backend/app.py:111 | `inverse_transform` succeeds exactly on codes inside the vocabulary, and always yields one of its classes |
| LabelEncoding.DecodeAfterEncode | backend/app.py:107-111 | decoding the code of a seen value gives back that value |
| LabelEncoding.EncodeAfterDecode | backend/app.py:107-111 | on a duplicate-free vocabulary, encoding a decoded class gives back its code |
| NutritionRules.GetNutritionRecommendation | backend/nutrition_rules.py:1-36 | a plan exactly for the labels "Low", "Medium" and "High"; every plan has guidance text and exactly the four meal slots Breakfast, Lunch, Dinner, Snacks in that order, none empty |
| NutritionRules.LowPlanContent | backend/nutrition_rules.py:7-15 | the Low plan's guidance and its four meals, slots and food lists word for word and in order |
| NutritionRules.MediumPlanContent | backend/nutrition_rules.py:16-24 | the Medium plan's guidance and its four meals, slots and food lists word for word and in order |
| NutritionRules.HighPlanContent | backend/nutrition_rules.py:25-33 | the High plan's guidance and its four meals, slots and food lists word for word and in order |
| NutritionRules.DistinctGuidance | backend/nutrition_rules.py:7-33 | the three plans' Daily_Guidance strings are pairwise different |
| NutritionRules.CaseVariantsHaveNoPlan | backend/nutrition_rules.py:36 | other spellings ("low", "LOW", "") find no plan and return None rather than raising |
| DataPreparation.MissingColumns | backend/data_preparation.py:14-25 | the missing set is exactly the required columns absent from the frame (each absent one is in it, nothing else is), and is empty exactly when every required column is present |
| DataPreparation.FilterByAge | backend/data_preparation.py:29 | a row is kept exactly when it is in the input and its Age lies in [5, 17], both ends included |
| DataPreparation.FilterByAgeAppend | backend/data_preparation.py:29 | filtering a concatenation is the concatenation of the filtered parts, so kept rows keep their relative order |
| DataPreparation.KeepBounds | backend/data_preparation.py:29 | ages 5 and 17 are kept, and ages 4 and 18 are dropped |
| DataPreparation.Project | backend/data_preparation.py:31-41 | each row is restricted to the output columns, with cell values unchanged |
| DataPreparation.Prepare | backend/data_preparation.py:14-41 | fails exactly when a required column is missing (reported with the missing set) or an Age cell is text; otherwise its columns are the seven output columns in order, with one row per kept row and cells copied unchanged |
| DataPreparation.PreparedRowsHaveOutputColumns | backend/data_preparation.py:31-41 | on a well-formed frame every output row has exactly the seven output columns |
| DataPreparation.PreparedDropsDailyCalories | backend/data_preparation.py:21-41 | Daily_Calories is required but is neither a column nor a cell of the output |
| App.CalculateBmi | backend/app.py:71-73 | BMI times height in metres squared is the weight; a positive weight gives a positive BMI; the only precondition is a non-zero height |
| App.BmiExample | backend/app.py:71-73 | 20 kg at 100 cm gives exactly 20 |
| App.BmiIgnoresHeightSign | backend/app.py:71-73 | there is no positivity guard: a negated height gives the same BMI |
| App.InputFrame | backend/app.py:98-105 | the frame's columns are Age, Gender, Height_cm, Weight_kg, BMI, Activity_Level in that order, with distinct names; each holds the request's value and BMI holds the computed BMI |
| App.EncodedRow | backend/app.py:107-108 | column names are unchanged; columns without an encoder are untouched; each encoded column holds a code that decodes back to its original string |
| App.EncodeFeatures | backend/app.py:107-108 | the loop finishes exactly when every encoder can transform its column, and then yields the encoded frame; otherwise the error names an encoder column that is missing or whose value is unseen |
| App.PredictionStore.Add | backend/app.py:129-130 | exactly the given record is appended to the store |
| App.PredictionStore.History | backend/app.py:139-162 | the /history result's dates never increase; every entry is the projection of a stored record of that user; every such record's projection appears; and the entries are the projections of a newest-first arrangement of exactly the user's records, each as often as stored |
| App.PredictNutrition | backend/app.py:83-136 | zero height fails; an unencodable frame fails with an encoder error; otherwise the response is the rounded BMI, the target encoder's decoding of the model's output and that level's plan, or a failure if the code is unseen. On failure nothing is stored. On success exactly one record is appended, echoing the five input fields with the user id, the timestamp and the response's BMI and level |
| App.PredictTwice | backend/app.py:83-136 | two identical requests get identical responses, and two successful ones store two records |
| App.RecordsOf | backend/app.py:148-150 | each record of the user appears as often as it is stored, and records of other users not at all |
| App.Insert | backend/app.py:151 | insertion adds exactly the one record to the sequence's multiset |
| App.InsertNewestFirst | backend/app.py:151 | insertion keeps a newest-first sequence newest first |
| App.SortNewestFirst | backend/app.py:151 | the result is a permutation of the input with created_at non-increasing |
| App.UserHistory | backend/app.py:148-162 | history dates never increase along the list |
| App.HistoryOnlyOwnRecords | backend/app.py:148-162 | every history entry is the (bmi, calorie_level, date) projection of a stored record of that user, never of another user |
| App.HistoryHasAllOwnRecords | backend/app.py:148-162 | every stored record of the user shows in the history |
| App.HistoryLength | backend/app.py:148-162 | the history has one entry per stored record of the user |
| App.Entries | backend/app.py:155-162 | the projection keeps the length and shows each record as its (bmi, calorie_level, date) in the same position |
| App.HistoryPairsRecords | backend/app.py:148-162 | the history pairs entries with the user's records one to one: it is the projection of a newest-first permutation of exactly those records |
| ColumnAgreement.TrainingColumnsMatchServing | backend/data_preparation.py:31-41 | the processed columns are the serving feature columns followed by Calorie_Level |
| ColumnAgreement.ServingFrameMatchesTraining | backend/app.py:98-105 | every serving frame's columns are the first six processed columns, in the same order |

## Left out

- Framework plumbing in `backend/app.py`: the FastAPI app, CORS, the router, the health check, and the `get_db` session lifecycle.
- Loading the artifacts with `joblib.load`. The artifacts are a parameter instead.
- Authentication. `get_current_user` lives in a module that is not part of this model, so the user id is a parameter.
- The clock. `datetime.utcnow()` is replaced by a timestamp parameter.
- Floating point. BMI is computed over reals, and `round(bmi, 2)` is a parameter function applied identically to the record and the response.
- CalculateBmi: states real-number division, not IEEE-754 double rounding. A float overflow or underflow is not modelled.
- The classifier is an arbitrary function of the encoded frame. Random-forest internals and scikit-learn's feature-name checks are not modelled.
- EncodeFeatures: iterates the encoder map in an arbitrary order, not the dictionary's insertion order. Which failing column is reported on a multi-column failure is therefore not fixed. Only that it is a genuinely failing encoder column is stated.
- A non-string cell given to an encoder counts as an unseen value. The vocabularies are strings, as the training code fits them only on text columns.
- The database-assigned `id` of a `Prediction` and the ORM relationship to `User` (`backend/models.py`).
- SortNewestFirst: among records with equal `created_at`, the model places the earlier-stored first. SQL leaves that order open, so the contract promises only a permutation that is newest first.
- The database's transactions and concurrent sessions. Each commit is one atomic append to `PredictionStore.records`.
- Prepare: has no missing values (NaN). pandas would drop a NaN Age through the mask, and the model has no NaN cell.
- CSV reading and writing and the prints in `backend/data_preparation.py`. A table value stands for the frame.
- Model training (`backend/train_model.py`), the pydantic and ORM declarations (`backend/schemas.py`, `backend/models.py`, `backend/database.py`) and the React front end (`frontend/nutrition-ui/src/App.jsx`). `backend/train_model.py` is used only as background: encoders are fitted on the text columns and the target after dropping Calorie_Level.
- Determinism of the rule lookup needs no lemma, because the lookup is a Dafny function over a constant table.
