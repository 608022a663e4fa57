# Churn dashboard feature encoder, modelled in Dafny

The dashboard collects one customer's attributes through sidebar widgets. It
encodes them as the numeric feature row its pretrained churn classifier
expects, and turns the predicted churn probability into a risk message and a
business-impact estimate. This project models the deterministic parts of that
pipeline and proves their properties:

- `reindex.dfy`, module `Alignment`: aligning a one-row record with the
  model's ordered feature schema. The row gets one cell per schema column, in
  schema order. A column the record lacks is filled with 0, and record keys
  outside the schema are dropped.
- `encoder.dfy`, module `FeatureEncoder`: the raw form selections (`RawInput`)
  and the encoded record (`Encode`), a map from column name to value. It
  holds:
  - thirteen yes/no flags, each 1 exactly when the answer equals its positive
    value;
  - drop-first one-hot indicators for internet service, contract and payment
    method;
  - five tenure-bucket indicators;
  - the slider values and the derived `AvgCharges = total / (tenure + 1)`.

  `GetUserInput` composes the encoder with the alignment. The column names
  are the exact strings app.py:55-83 writes. This includes the en dash
  (U+2013) in the bucket names.
- `business.dfy`, module `BusinessImpact`: the three-way risk tier on the
  predicted probability, the expected loss `prob * cost` and the projected
  savings `loss * rate / 100`.

Everything is pure: each operation is a function, and each property is a
function contract or a lemma. Integers from the sliders stay `int`/`nat`.
Python's true division and the float results are modelled as exact `real`
arithmetic.

Two behaviours of the code that are easy to misread, and that the model follows:

- Out-of-domain categorical answers are not a failure in the code. Every
  comparison is an equality test, so any string other than the positive
  value encodes as 0. For the one-hot fields this means an unknown answer
  looks exactly like the baseline. The model keeps categorical answers as
  strings, so the lemmas cover every string.
- A tenure of exactly 60 falls in the `49–60 months` bucket. The
  `60+ months` bucket means tenure greater than 60.

## Model

| member | source | states |
|---|---|---|
| `Alignment.Reindex` | app.py:86-88 | The row has one cell per schema entry. Cell i is labelled schema[i]. It carries the record's value when the record has that key, and 0 otherwise (the `fill_value=0` lookup is the helper `FillValue`; `Columns` is a helper that lists a row's labels). |
| `Alignment.ReindexColumnsAreSchema` | app.py:88 | The row's column labels are exactly the schema, in the schema's order. |
| `Alignment.ReindexDropsUnknownKeys` | app.py:88 | A name that the schema does not list, in particular any record key outside the schema, labels no cell of the row. |
| `Alignment.ReindexIgnoresKeysOutsideSchema` | app.py:87-88 | Removing every record key outside the schema before aligning leaves the row unchanged. |
| `Alignment.ReindexAppend` | app.py:88 | Aligning against a concatenated schema is the concatenation of aligning against each part. |
| `FeatureEncoder.Flag` | app.py:55-77 | A binary indicator is 0 or 1, and it is 1 exactly when the selection equals the designated positive string. |
| `FeatureEncoder.AvgCharges` | app.py:51-52 | The derived charge times (tenure + 1) is the total, so it is defined for every tenure from 0 up. Tenure 0 gives the total itself. A non-negative total gives a value between 0 and the total. |
| `FeatureEncoder.Encode` | app.py:54-84 | Every entry of the record outside the four numeric columns is 0 or 1. |
| `FeatureEncoder.EncodeKeys` | app.py:54-84 | A name is a key of the record exactly when it is one of the column names the dashboard writes (`RecordColumns`). |
| `FeatureEncoder.NumericColumnsCarryValues` | app.py:52-83 | `tenure`, `MonthlyCharges` and `TotalCharges` hold the slider values unchanged. `AvgCharges` holds the derived average charge. |
| `FeatureEncoder.GenderSeniorFlagsMatchPositive` | app.py:55-56 | `gender` is 1 exactly for "Male". `SeniorCitizen` is 1 exactly for "Yes". Otherwise each is 0. |
| `FeatureEncoder.HouseholdFlagsMatchPositive` | app.py:57-68 | `Partner`, `Dependents` and `PaperlessBilling` are each 1 exactly for "Yes", and 0 otherwise. |
| `FeatureEncoder.PhoneFlagsMatchPositive` | app.py:60-61 | `PhoneService` and `MultipleLines` are each 1 exactly for "Yes". "No phone service" gives 0. |
| `FeatureEncoder.ProtectionFlagsMatchPositive` | app.py:62-64 | `OnlineSecurity`, `OnlineBackup` and `DeviceProtection` are each 1 exactly for "Yes". "No internet service" gives 0. |
| `FeatureEncoder.SupportStreamingFlagsMatchPositive` | app.py:65-67 | `TechSupport`, `StreamingTV` and `StreamingMovies` are each 1 exactly for "Yes". "No internet service" gives 0. |
| `FeatureEncoder.NoServiceEncodesAsNo` | app.py:42-67 | Replacing every "No internet service" or "No phone service" answer by "No" gives the same record. The encoding cannot tell them apart. |
| `FeatureEncoder.InternetServiceOneHot` | app.py:71-72 | Each internet indicator is 1 exactly for its own value, and at most one is 1. "DSL" gives both 0. Every offered answer can be read back from the indicators. |
| `FeatureEncoder.ContractOneHot` | app.py:73-74 | Each contract indicator is 1 exactly for its own value, and at most one is 1. "Month-to-month" gives both 0. Every offered answer can be read back. |
| `FeatureEncoder.PaymentMethodOneHot` | app.py:75-77 | Each payment indicator is 1 exactly for its own value, and at most one is 1. "Bank transfer (automatic)" gives all three 0. Every offered answer can be read back. |
| `FeatureEncoder.TenureBucketsFollowBand` | app.py:78-82 | Each bucket indicator is 1 exactly when the tenure lies in that bucket's band of a partition of the tenures. |
| `FeatureEncoder.TenureBucketsExclusive` | app.py:78-82 | No bucket is set for tenure 0 to 6, and exactly one is set for any longer tenure. Beyond 60 months only `60+ months` is set. |
| `FeatureEncoder.GetUserInput` | app.py:51-90 | The model row has exactly the schema's columns in order. An encoded column carries its encoded value, and any other column is 0. Every value is 0 or 1 except in the four numeric columns. |
| `BusinessImpact.Tier` | app.py:107-112 | High risk iff prob > 0.6, moderate iff 0.3 < prob <= 0.6, low iff prob <= 0.3, so exactly one tier applies. |
| `BusinessImpact.TierMonotone` | app.py:107-112 | A higher probability never gives a lower tier. |
| `BusinessImpact.ExpectedLoss` | app.py:98 | For a probability in [0, 1] and a non-negative cost, the loss lies between 0 and the cost. It is 0 when the probability or the cost is 0. |
| `BusinessImpact.ExpectedSaved` | app.py:99 | The savings times 100 equal the loss times the rate. For a rate from 0 to 100 and a non-negative loss, the savings lie between 0 and the loss. |
| `BusinessImpact.ImpactBounds` | app.py:98-99 | Within the widget bounds of app.py:17-18: 0 <= savings <= loss <= cost. |

## Left out

- The Streamlit page, the widgets, metrics, messages and layout (app.py:12-50, 97, 102-112, 120-126) are UI. Only the values they produce are modelled: the select-box answers and slider values form `RawInput`, and the tier is returned rather than displayed.
- Loading the classifier and the feature list from disk (app.py:9-10) is file I/O. The feature schema is a parameter of `GetUserInput` and `Reindex`.
- That the names in `RecordColumns` match the names in the stored feature list is an assumption about that external file, not something the model can state. A name that does not match is silently filled with 0 by the alignment, as `GetUserInput` states.
- The classifier's probability call (app.py:96) is opaque inference. The churn probability is an input of the business rules.
- The SHAP explanation and its plot (app.py:117-123) are a third-party attribution library.
- pandas internals: the one-row DataFrame is a sequence of labelled cells, and column dtypes are not modelled. The Python dict's insertion order is not modelled either (`Encode` returns a map), because alignment replaces it with the schema's order.
- Floating point: thresholds, divisions and products are exact reals. A probability on the IEEE boundary of 0.6 or 0.3 may compare differently in the source. The `:.2%` and `:.2f` formatting is not modelled.
- Negative tenure is not modelled, because its slider starts at 0. In the source, -1 would divide by zero.
- The upper slider bounds (tenure 72, monthly 20-120, total 0-9000) are not assumed anywhere. The proved properties hold without them.
- Input validation with a dedicated error is not modelled. The code has none: unknown answers encode as 0, as stated above.
