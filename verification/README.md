# Fraud detection API — prediction pipeline model

A Dafny model of the request pipeline of the DigitalBank fraud detection API
(`3_Code_Source/fraud_detection_api/fraud_detection_api.py`). The model covers
the two inference routes. `POST /predict` turns a transaction body into a
five-number feature vector, has a classifier score it, and labels the score
with a risk tier, a display colour, a confidence label and a recommendation.
`POST /predict/batch` applies that route to each element of a list.

The classifier is not modelled. It is a parameter of the model: a value of
the datatype `Api.Classifier`, with the number of features it was fitted on,
the library's check of a vector's values, its fraud/non-fraud decision and
its fraud probability. The only assumption about the probability is that it
lies in [0, 1]. The two label encoders are `map<string, int>`.
Whether the start-up loading of these artifacts succeeded is an
`Option<Artifacts>`, where `None` stands for the process-wide "model not
loaded" flag.

Modules:

- `Wrappers` — `Option` and `Result`.
- `Risk` — the tier/colour chain, the confidence rule, `get_recommendation`,
  and the band, monotonicity and agreement lemmas.
- `Features` — the request body, label encoding with its fallback to code 0,
  and assembly of the raw fields in their fixed order.
- `Api` — the prediction reply, its HTTP status, and lemmas about the
  `features` bypass and the 400/500 split.
- `Batch` — the batch route as a loop, and the count of its error records.

The model uses the code's own tier labels: FAIBLE, MOYEN, ÉLEVÉ, CRITIQUE.
An unconvertible raw field gets 500; only an absent one (a `KeyError`) gets
400. The Python evaluation order decides which of the two a body gets when
several fields are bad: the first field of `amount, merchant_category,
location, hour_of_day, day_of_week` that is absent or unconvertible wins.

## Model

| member | source | states |
|---|---|---|
| Risk.RiskLevelOf | 3_Code_Source/fraud_detection_api/fraud_detection_api.py:165-177 | the chosen tier is the one band that contains the score (CRITIQUE from 0.8, ÉLEVÉ from 0.5 below 0.8, MOYEN from 0.3 below 0.5, FAIBLE below 0.3); the colour is the legend's colour for that tier (red/orange/yellow/green) |
| Risk.ConfidenceOf | 3_Code_Source/fraud_detection_api/fraud_detection_api.py:188 | confidence is high iff the score is above 0.8 or below 0.2, and medium iff it is within [0.2, 0.8] |
| Risk.RecommendationOf | 3_Code_Source/fraud_detection_api/fraud_detection_api.py:302-311 | the recommendation chain yields the advice for the score's tier: BLOQUER for CRITIQUE, VÉRIFICATION for ÉLEVÉ, SURVEILLANCE for MOYEN, AUTORISER for FAIBLE |
| Risk.BandsPartitionScores | 3_Code_Source/fraud_detection_api/fraud_detection_api.py:165-177 | every score lies in some tier band, and in no more than one |
| Risk.TierMonotone | 3_Code_Source/fraud_detection_api/fraud_detection_api.py:165-177 | a higher score never gets a less severe tier |
| Risk.TierThresholds | 3_Code_Source/fraud_detection_api/fraud_detection_api.py:166-172 | the tier is at least CRITIQUE / ÉLEVÉ / MOYEN exactly when the score reaches 0.8 / 0.5 / 0.3, so each band is closed below |
| Risk.LabelsDetermineTier | 3_Code_Source/fraud_detection_api/fraud_detection_api.py:165-189 | two scores get the same colour, and likewise the same recommendation, iff they get the same tier |
| Risk.ConfidenceAcrossTiers | 3_Code_Source/fraud_detection_api/fraud_detection_api.py:165-188 | MOYEN and ÉLEVÉ are always of medium confidence; FAIBLE is of high confidence iff the score is below 0.2; CRITIQUE is of medium confidence iff the score is exactly 0.8 |
| Risk.ResponseStringsIdentifyTier | 3_Code_Source/fraud_detection_api/fraud_detection_api.py:165-177 | the `risk_level` label, the `risk_color` name and the recommendation text are each different for different tiers, so each one identifies the tier |
| Risk.CriticalThresholdIsMediumConfidence | 3_Code_Source/fraud_detection_api/fraud_detection_api.py:166-189 | the score 0.8 is CRITIQUE with recommendation BLOQUER but only medium confidence |
| Features.Encode | 3_Code_Source/fraud_detection_api/fraud_detection_api.py:137-149 | a label in the encoder's vocabulary gets its code; any other label gets 0; encoding is total, so it never fails the request |
| Features.EncodeInRange | 3_Code_Source/fraud_detection_api/train_fraud.py:54-58 | for an encoder fitted on a non-empty class list, every code used, the fallback included, is a position in that list |
| Features.UnknownCollidesWithFirstClass | 3_Code_Source/fraud_detection_api/fraud_detection_api.py:139-142 | an unknown label is encoded exactly like the first class of a fitted encoder, which is a different, known label |
| Features.Assemble | 3_Code_Source/fraud_detection_api/fraud_detection_api.py:129-158 | a vector built from raw fields has all five fields present and is exactly [amount, category code, location code, hour, day] |
| Features.AssembleFollowsFieldOrder | 3_Code_Source/fraud_detection_api/fraud_detection_api.py:130-134 | assembly succeeds iff all five raw fields are present and convertible; otherwise it reports the first unusable field in reading order, as missing if absent and as unconvertible otherwise |
| Features.CompleteOrFirstIncomplete | 3_Code_Source/fraud_detection_api/fraud_detection_api.py:130-134 | either all raw fields are usable, or exactly one field is the first unusable one |
| Api.Score | 3_Code_Source/fraud_detection_api/fraud_detection_api.py:160-190 | for a vector the classifier takes, the scored response carries the caller's transaction id, the classifier's decision and score, and tier, colour, confidence and recommendation consistent with that score |
| Api.Predict | 3_Code_Source/fraud_detection_api/fraud_detection_api.py:119-203 | 503 iff the artifacts are not loaded; 500 for a non-object body and for a vector the classifier refuses; a 400 comes only from the raw-field path, names a required field and lists all five required fields; a 200 carries a consistent prediction with the body's transaction id |
| Api.FeaturesBypassAssembly | 3_Code_Source/fraud_detection_api/fraud_detection_api.py:126-127 | through `Features.ClassifierInput`, a `features` list makes the reply independent of the raw fields and the encoders; it is 200 iff the list has the classifier's width and passes its value check, and then the reply is exactly the prediction (decision, score and labels) of that list unchanged |
| Api.MalformedFeatures | 3_Code_Source/fraud_detection_api/fraud_detection_api.py:126-127 | a `features` value that cannot be made into a numeric vector gets 500, whatever the raw fields hold |
| Api.RawFieldsReachClassifier | 3_Code_Source/fraud_detection_api/fraud_detection_api.py:129-163 | without a `features` key and with all raw fields usable, `Features.ClassifierInput` gives the classifier [amount, category code, location code, hour, day]; the reply is 200 with that vector's prediction iff the classifier was fitted on five features and takes the vector; otherwise it is 500 (wrong width, or refused); unknown labels (code 0) never cause a failure |
| Api.MissingFieldStatus | 3_Code_Source/fraud_detection_api/fraud_detection_api.py:196-203 | on the raw-field path, if the first unusable field is absent the reply is 400 naming it with the five required fields; if it is unconvertible the reply is 500 |
| Api.MissingFieldIsFirstAbsent | 3_Code_Source/fraud_detection_api/fraud_detection_api.py:196-200 | every 400 reply names the first unusable raw field, and that field is absent from the body |
| Batch.EntryFor | 3_Code_Source/fraud_detection_api/fraud_detection_api.py:236-241 | an item's entry is its prediction iff the single route answers 200 for it; otherwise it is an error record that holds the item unchanged |
| Batch.PredictBatch | 3_Code_Source/fraud_detection_api/fraud_detection_api.py:223-247 | 503 iff not loaded; 500 for a non-object body; 400 iff the list is absent or empty; otherwise always 200 (a report), with one entry per item in input order, with the total equal to the number of items |
| Batch.ReportCounts | 3_Code_Source/fraud_detection_api/fraud_detection_api.py:233-244 | of N items of which M are rejected by the single route, the report has exactly M error records and N − M predictions |

## Left out

- Artifact loading with joblib and `open` (lines 25-45) is modelled only by its outcome, `Option<Artifacts>`.
- The classifier's internals (a random forest from the training script) are left out. It is a parameter; its score is assumed to lie in [0, 1]. A vector whose length differs from its width is refused with 500. So is a vector its value check refuses, such as one with a value that is not finite in single precision. The value check is a parameter too.
- Amounts are unbounded reals. Which amounts the classifier refuses is decided by its value check, not by the model.
- The training script is left out. It is CSV loading, model fitting, metrics and file export done by library calls. Only the shape of a fitted label encoder is used, in `Features.FittedOn`.
- The `/`, `/health`, `/model/info` and `/test` routes are left out. They return fixed or metadata responses and have no decision logic.
- Flask routing, CORS, logging and the warning logged for an unknown label are left out. They do not change any reply.
- The `fraud_probability` percentage string and the `timestamp` fields are left out. They involve float formatting and the clock.
- Conversion of JSON values with `float()`, `int()`, `str()` and numpy `reshape` is not modelled. Each numeric field is already converted, or marked unconvertible (500). A present `features` value stands for any array whose row-major flattening is that vector, since it is reshaped to one row. A ragged or non-numeric value is unconvertible.
- Scores are exact reals, not IEEE doubles. The comparisons with 0.2, 0.3, 0.5 and 0.8 use the exact decimal values.
- Batch.PredictBatch: a `transactions` value that is neither a list nor null is not modelled. A falsy one (`0`, `""`, `{}`, `false`) gets 400. A truthy one is iterated over or raises.
- Api.Predict: transaction ids are modelled as strings only. The code passes any JSON value through unchanged.
- Api.Predict: a request body that is not JSON, which the framework rejects, is folded into the non-object case (500).
