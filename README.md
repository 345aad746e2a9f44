# Heart-risk screening: a Dafny model

This project models the decision logic of an at-home heart-risk screening app. It has three parts.

- **The prediction form** (`PredictionForm.jsx`), a React component. It holds four pieces of state: `form`, `result`, `loading` and `error`. Its three handlers are modelled as methods of the class `PredictionForm.Component`:
  - `handleChange` edits one field;
  - `estimateMaxHeartRate` pre-fills the heart rate as 220 minus the age;
  - `handleSubmit` checks that the form is complete, applies the four inclusive range guardrails in order, resets the state, builds the 8-key payload and handles the request's outcome.

  The checks and the payload mapping are also stated as pure functions (`Validate`, `MakePayload`), and the methods are proved against them.
- **The prediction service** (`backend/app.py`, `predict`), modelled as the function `Backend.Predict`:
  - the list of model columns missing from the request, which gives a 400;
  - the probability-to-tier rule, with thresholds 0.40 and 0.65, and the advice for each tier;
  - the 500 response for any exception.
- **The result card** (`ResultCard.jsx`): the theme for each risk label, the four recommendations for each label (none for any other label), and the percentage.

Two supporting modules:

- `JsNumber` models the JavaScript built-ins the form depends on. `Number(s)` is a left-to-right scanner over the text: surrounding white space is ignored, blank text is 0, a signed run of decimal digits is its value, and anything else is NaN. NaN is `None`, and every comparison with NaN is false. It also models `isNaN` and `toString()`.
- `Pipeline` connects the three parts:
  - what the client does with each response the service can send;
  - the fact that the form's payload always passes the service's key check.

The trained model, the network and the JSON codec are parameters:

- the model's answer, or the exception it raised, is a `Backend.Inference`;
- the end of a request is a `Wire.Outcome`: a decoded reply, or an exception;
- `HandleSubmit` takes the server as a function from payload to outcome.

Behaviour of the code that is easy to misread:

- A service `error` field and a transport failure end with the same "Failed to connect…" message.
- A reply whose `risk` is not one of the three labels gets no recommendations.
- The age guardrail does not check that the age is a whole number, and a non-numeric value passes every guardrail, because NaN compares false.
- A successful reply does not clear `error` (the code only calls `setResult`). The error is empty at that point when nothing happened while the request was pending, and `HandleSubmit` proves this. An estimate requested without a usable age in the meantime leaves its message, and `Resolve` keeps it, so the card is shown alongside that message.
- Nothing in `handleSubmit` itself rules out a second submit while one is pending; only `disabled={loading}` on the button does. Hence the `!loading` precondition on `Submit` and `HandleSubmit`.

## Model

| member | source | states |
|---|---|---|
| PredictionForm.Component.constructor | frontend/src/components/prediction/PredictionForm.jsx:18-31 | The component starts with all eight fields empty, no result, not loading and no error. |
| PredictionForm.Form.With | frontend/src/components/prediction/PredictionForm.jsx:34 | `{ ...form, [field]: value }` sets that one field to the value; the other seven keep their values. |
| PredictionForm.Component.HandleChange | frontend/src/components/prediction/PredictionForm.jsx:33-36 | Sets exactly the edited field. The other fields, `result` and `loading` are unchanged, and `error` is empty afterwards. |
| PredictionForm.Component.EstimateMaxHeartRate | frontend/src/components/prediction/PredictionForm.jsx:39-47 | With an empty or non-numeric age: sets the "enter your age first" message and leaves the form unchanged. Otherwise: sets `thalach` to the decimal text of 220 − age, clears the error and leaves the other fields unchanged. |
| PredictionForm.EstimateReadsBack | frontend/src/components/prediction/PredictionForm.jsx:44-45 | The written estimate reads back as 220 − age. For every age that passes the age guardrail, the estimate passes the heart-rate guardrail. |
| PredictionForm.EstimateExample | frontend/src/components/prediction/PredictionForm.jsx:40-45 | An age of "40" gives "180"; an empty age gives no estimate. |
| PredictionForm.IncompleteIff | frontend/src/components/prediction/PredictionForm.jsx:51 | The completeness test holds exactly when some one of the eight values is the empty string. |
| PredictionForm.UnfilledIff | frontend/src/components/prediction/PredictionForm.jsx:51-56 | A submission is refused as incomplete if and only if some field is empty. This check comes before every guardrail. |
| PredictionForm.FirstTrippedGuardrailWins | frontend/src/components/prediction/PredictionForm.jsx:64-81 | On a complete form, a guardrail's refusal is returned exactly when that guardrail trips and every earlier one (age, then bp, then cholesterol, then heart rate) passes. |
| PredictionForm.AcceptedIffNoGuardrailTrips | frontend/src/components/prediction/PredictionForm.jsx:64-81 | A complete form is accepted if and only if none of the four guardrails trips. |
| PredictionForm.InclusiveBounds | frontend/src/components/prediction/PredictionForm.jsx:59-81 | A whole number in a guarded field trips its guardrail exactly when it is below the lower bound or above the upper bound. The bounds are age [18,100], bp [80,250], cholesterol [100,600] and heart rate [60,220]. |
| PredictionForm.AgeBoundaryValues | frontend/src/components/prediction/PredictionForm.jsx:64-67 | "18" and "100" pass the age guardrail; "17" and "101" trip it. |
| PredictionForm.NonNumericAgePasses | frontend/src/components/prediction/PredictionForm.jsx:59-67 | A non-numeric age is not refused: the form is accepted and the age is sent as NaN. |
| JsNumber.BlankIsZero | frontend/src/components/prediction/PredictionForm.jsx:59-62 | `Number` of a value made only of white space is 0, not NaN. |
| JsNumber.ToNumberOfIntToString | frontend/src/components/prediction/PredictionForm.jsx:44-45 | `Number(n.toString())` is `n` for every integer `n`. |
| PredictionForm.AcceptedPayload | frontend/src/components/prediction/PredictionForm.jsx:89-98 | In the payload of an accepted form: the four guarded numbers are the parsed values, each in its range or NaN. `sex` is 1 exactly when gender is "male" and 0 otherwise; `fbs` is 1 exactly when sugar is "true" and 0 otherwise. `cp` and `exang` are the numeric codes. |
| PredictionForm.ExamplePayload | frontend/src/components/prediction/PredictionForm.jsx:51-98 | A concrete filled-in form and the exact payload it produces. |
| PredictionForm.Component.Submit | frontend/src/components/prediction/PredictionForm.jsx:49-98 | A refused form sends nothing: it sets the first failing message and keeps `result` and `loading`. An accepted form clears `result` and `error`, sets `loading`, and sends exactly `Validate(form)`'s payload. |
| PredictionForm.Component.Resolve | frontend/src/components/prediction/PredictionForm.jsx:109-124 | A reply without a truthy `error` becomes the result. A reply with one, or an exception, leaves no result and sets the one "Failed to connect…" message. `loading` is false after every outcome. |
| PredictionForm.Component.HandleSubmit | frontend/src/components/prediction/PredictionForm.jsx:49-125 | The whole handler, when no other event arrives while the request is pending. A refused form keeps the earlier result. A successful request stores the reply with an empty error. A failed request leaves no result and the generic message. `loading` ends false every time. |
| Backend.MissingKeys | backend/app.py:20 | The missing keys are exactly the columns absent from the request body, and there are never more of them than columns. |
| Backend.MissingKeysConcat | backend/app.py:20 | The missing keys keep column order: for a concatenation of column lists, they are the first list's missing keys followed by the second's. |
| Backend.Predict | backend/app.py:16-48 | The status is 400 exactly when a column is absent, and then the body is the error listing the missing keys and no model is consulted. It is 500 exactly when the columns are present and the model raised, with the exception text as the error. It is 200 exactly when the model answered; the body then has exactly the keys prediction, risk, probability and recommendation, with the tier and advice of the probability. |
| Backend.TierBands | backend/app.py:30-38 | Low if and only if p < 0.40; Medium if and only if 0.40 ≤ p < 0.65; High if and only if p ≥ 0.65. |
| Backend.TierBoundaries | backend/app.py:30-38 | 0.39 is Low, 0.40 Medium, 0.64 Medium and 0.65 High: a probability on a threshold takes the higher tier. |
| Backend.TierMonotone | backend/app.py:30-38 | p ≤ q implies tier(p) ≤ tier(q) under Low < Medium < High. |
| Backend.AdviceAndNamePerTier | backend/app.py:30-38 | Each tier has its own label and its own one-line advice: two tiers share either only when they are the same tier. |
| ResultCard.ThemeFor | frontend/src/components/prediction/ResultCard.jsx:15-38 | High gets the red token set, Medium the yellow set, and Low or any unrecognised label the green set, each if and only if. This is the fallback the comment intends. |
| ResultCard.ThemeAsWrittenFailsOnUnrecognised | frontend/src/components/prediction/ResultCard.jsx:38 | The lookup as written agrees with `ThemeFor` on the three labels and fails on every other label, for example the risk "". |
| ResultCard.Recommendations | frontend/src/components/prediction/ResultCard.jsx:41-66 | Exactly four recommendations for High, Medium and Low; the empty list exactly for any other label. |
| ResultCard.PerLabelTables | frontend/src/components/prediction/ResultCard.jsx:15-66 | The themes of High, Medium and Low are pairwise distinct, and only an unrecognised label shares Low's theme. The four recommendation lists are pairwise distinct. |
| ResultCard.Percent | frontend/src/components/prediction/ResultCard.jsx:12 | The percentage exists exactly when the probability does, and lies in [0,100] when the probability lies in [0,1]. |
| ResultCard.PresentationFollowsRisk | frontend/src/components/prediction/ResultCard.jsx:69 | Label, theme and recommendations depend on `result.risk` only, never on the probability. |
| Pipeline.TierNamesRecognised | backend/app.py:30-38 | Each tier name the service sends is a label the card recognises, and distinct tiers get distinct labels. |
| Pipeline.PredictionShown | frontend/src/components/prediction/PredictionForm.jsx:109-116 | A 200 reply is kept as the result. The card shows the tier's label, its theme and its four recommendations, and the probability × 100. |
| Pipeline.MissingColumnsFailOnClient | backend/app.py:21-22 | A 400 reply always has a non-empty message, so the client treats it as a failed request. |
| Pipeline.ExceptionFailsOnClient | backend/app.py:47-48 | An exception with a non-empty text gives a 500 reply that the client treats as a failed request. |
| Pipeline.EmptyExceptionTextShownAsResult | frontend/src/components/prediction/PredictionForm.jsx:112-116 | A 500 reply whose error text is empty passes the truthiness test and is stored as a result. It has an unrecognised label and no recommendations, and the theme lookup as written fails on it. |
| Pipeline.PayloadPassesKeyCheck | frontend/src/components/prediction/PredictionForm.jsx:89-98 | Whenever the service's columns are among the form's eight payload keys, no key is missing and the reply is never a 400. `backend/train_model.py:47` saves the columns; they are the CSV's columns other than the dropped ones. |

## Left out

- The `fetch` call, JSON encoding and decoding, Flask routing and CORS are network I/O. A request's end is the three-way `Wire.Outcome` (a reply with an error, a reply without one, or an exception), and the server is a parameter of `HandleSubmit`.
- `joblib.load`, the pandas frame, `scaler.transform`, `model.predict` and `predict_proba` are foreign library calls. Their result or exception is the `Backend.Inference` input.
- The training script's learning and file I/O are not part of this model. The CSV is not available, so the column list is a parameter of `Backend.Predict`.
- The `.toFixed(1)` formatting is floating-point text formatting. `ResultCard.Percent` stops at `probability * 100`.
- Probabilities and thresholds are exact reals. Double rounding near 0.40 and 0.65 is not modelled.
- ToNumber: `Number(s)` is modelled on integers only. Decimal points, exponents, hex/octal/binary literals and "Infinity" all read as NaN, although JavaScript gives them values. White space is limited to the Latin-1 characters and U+FEFF. JavaScript numbers are doubles, but the model's are unbounded integers. So integers above 2^53 do not round, and `toString` never switches to exponent form (JavaScript does from 1e21).
- Validate: because of ToNumber, a decimal or exponent value in a guarded field passes its guardrail as NaN even where JavaScript refuses it. For example, age "17.5" is accepted here but refused by the age guardrail, and bp "1e3" is accepted here but trips the bp guardrail. The same holds for `Submit` and `HandleSubmit`, and the payload sends such a value as NaN instead of its number. Verdicts on optionally signed whole numbers agree with the source.
- EstimatedThalach: a decimal age such as "40.5" gives no estimate and the "enter your age first" message here, where JavaScript writes "179.5". An age beyond 2^53 gives the exact difference here, where JavaScript rounds: for "9007199254740993" JavaScript writes "-9007199254740772" and the model writes "-9007199254740773". The same holds for `EstimateMaxHeartRate`.
- QuotedItems: the 400 message reproduces Python's list `repr` only for column names without a quote or backslash. For other names Python switches quote characters or escapes, and that is not modelled. None of the form's eight payload keys contains either.
- Only the parts of a reply the client reads are modelled: `error`, `risk` and `probability`. A non-string `error` value, and risk labels that name inherited object properties (such as "toString"), are not modelled.
- `handleChange` takes a field from a fixed set of eight; the source accepts any key string.
- The component is modelled with one state update per handler. React's batching, re-rendering and stale closures are not modelled. `HandleSubmit` assumes no other event arrives while the request is pending; `Submit` and `Resolve` model the two halves separately.
- A body that is `null`, a number or a boolean makes `col not in data` raise, which gives the 500 at `backend/app.py:48`. For an array body, `in` tests its elements, and for a string body it tests substrings. `Predict`'s `present` then stands for the column names that test finds. Bodies of these kinds are not modelled separately.
- `Prediction.jsx`, the dashboard, resources, layout, navigation and preloader files hold no decision logic and are not part of this model. JSX markup and animations are not part of this model either.

## Findings

| source | as written | input that shows it | evidently intended | confidence | as-written member | corrected member |
|---|---|---|---|---|---|---|
| frontend/src/components/prediction/ResultCard.jsx:38 | The fallback `\|\| theme.Low` reads the `const theme` inside its own initializer, so for an unrecognised label it throws a ReferenceError instead of falling back. | A result whose `risk` is not High, Medium or Low. One example: a 500 reply `{"error": ""}`, which passes the client's truthiness test (`Pipeline.EmptyExceptionTextShownAsResult`). | The green (Low) theme for every unrecognised label, as the comment says. | high; not executed | ResultCard.ThemeAsWritten, ResultCard.ThemeAsWrittenFailsOnUnrecognised | ResultCard.ThemeFor |
