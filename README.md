# Insurance-cost form: feature-vector encoder

The repository serves one web page where an applicant's age, sex, body-mass
index, number of children, smoker status and region are submitted, and shows
the insurance cost that a pre-trained regression model predicts for them. The
only logic of its own is in the request handler `home` of
`Sessions/Day12/app.py`: on a POST it reads the six form fields, parses the
three numeric ones, turns `sex` and `smoker` into 0/1 flags by exact comparison
with `"male"` and `"yes"`, one-hot encodes `region` over `northeast`,
`northwest`, `southeast`, `southwest` (any other text gives four zero flags),
and lays the nine values out as age, sex, bmi, children, smoker, NE, NW, SE, SW
before calling the model. Any other request method (GET, and HEAD, which the
framework adds to a route that lists GET) produces no prediction.

The model is three modules:

- `Wrappers` (`wrappers.dfy`): `Option` and a failure-compatible `Result`.
- `FeatureEncoding` (`encoding.dfy`): the parsed applicant, the flags, the
  region one-hot flags with a general one-hot reference definition, and the
  nine-entry vector.
- `RequestHandler` (`handler.dfy`): the form as a `map<string, string>`,
  reading the fields in the handler's order with the first missing or
  unparsable field ending the request, the POST / non-POST branch, and the
  prediction.

Numbers are `real`. Python's `float` on a field's text is a parameter
`parse: string -> Option<real>` (None where `float` raises), and the fitted
model is a parameter `predict: seq<real> -> real`. The flags are the reals
`0.0` and `1.0`, since NumPy stores the mixed list as floating point.

## Model

| member | source | states |
|---|---|---|
| FeatureEncoding.Flag | Sessions/Day12/app.py:16-26 | the `1 if c else 0` indicator is 0 or 1, and 1 exactly when the condition holds |
| FeatureEncoding.SexFlag | Sessions/Day12/app.py:16 | the sex flag is 0 or 1, 1 exactly for the text "male" and 0 for every other text |
| FeatureEncoding.SmokerFlag | Sessions/Day12/app.py:19 | the smoker flag is 0 or 1, 1 exactly for the text "yes" and 0 for every other text |
| FeatureEncoding.OneHot | Sessions/Day12/app.py:23-26 | reference one-hot encoding: one 0/1 flag per category, in category order, set exactly where the category equals the value |
| FeatureEncoding.OneHotOnes | Sessions/Day12/app.py:23-26 | over pairwise distinct categories, exactly one flag is set when the value is a category and none otherwise |
| FeatureEncoding.RegionsDistinct | Sessions/Day12/app.py:23-26 | the four region names compared against are pairwise distinct |
| FeatureEncoding.RegionFlags | Sessions/Day12/app.py:22-26 | the four literal comparisons give four flags equal to the one-hot encoding over northeast, northwest, southeast, southwest; one flag is set for a known region and none for any other text |
| FeatureEncoding.RegionFlagsSeparate | Sessions/Day12/app.py:22-26 | two regions get the same flags exactly when they are equal or both unrecognised, so unknown regions are indistinguishable from each other and from no region |
| FeatureEncoding.Encode | Sessions/Day12/app.py:29-31 | the vector has nine entries; entries 0, 2, 3 are age, bmi, children unchanged; entry 1 is set iff sex is "male"; entry 4 iff smoker is "yes"; entry 5+i iff region is the i-th region name; all flags are 0 or 1 and at most one region flag is set |
| FeatureEncoding.RegionFlagsExclusive | Sessions/Day12/app.py:23-31 | no two of the region entries 5 to 8 of an encoded vector are both 1 |
| FeatureEncoding.EncodeSeparates | Sessions/Day12/app.py:15-31 | two applicants encode to the same vector exactly when their numbers agree, they agree on "male" and on "yes", and their regions are equal or both unrecognised |
| FeatureEncoding.ExampleEncoding | Sessions/Day12/app.py:15-31 | age 30, male, bmi 25.0, 2 children, non-smoker, southeast encodes to [30, 1, 25, 2, 0, 0, 0, 1, 0] |
| RequestHandler.Field | Sessions/Day12/app.py:22 | reading a form field succeeds exactly when it is present, with its text; otherwise it fails naming the field as missing |
| RequestHandler.Number | Sessions/Day12/app.py:15 | reading a numeric field succeeds exactly when it is present and parses, with the parsed number; it fails as missing when absent and as malformed when present but unparsable |
| RequestHandler.ReadApplicant | Sessions/Day12/app.py:15-22 | the six fields read succeed exactly when all are present and the three numeric ones parse, giving the parsed applicant; a failure names the first field in reading order (age, sex, bmi, children, smoker, region) that does not read, as missing exactly when it is absent |
| RequestHandler.Features | Sessions/Day12/app.py:12-31 | a GET or HEAD builds no vector; a POST succeeds exactly when the form is complete, and then builds the encoding of the applicant whose age, bmi and children are the parsed form numbers and whose sex, smoker and region are the form texts (a well-formed nine-entry vector); otherwise it fails with the field-reading error |
| RequestHandler.Home | Sessions/Day12/app.py:12-34 | a GET or HEAD yields no prediction; a prediction exists only for a POST and is the model applied to the built vector, which for a complete form is the encoding of the submitted fields; a failed POST fails with the same error |
| RequestHandler.NonPostIgnoresFormAndModel | Sessions/Day12/app.py:12-13 | a GET or HEAD gives no prediction whatever the form, the parser and the model |
| RequestHandler.PostFailsIff | Sessions/Day12/app.py:15-22 | a POST fails exactly when some field is missing or some numeric field does not parse |
| RequestHandler.MissingAgeFails | Sessions/Day12/app.py:15 | a POST without an age fails with the age reported missing rather than defaulting |
| RequestHandler.ExampleRequest | Sessions/Day12/app.py:15-34 | the example form builds [30, 1, 25, 2, 0, 0, 0, 1, 0] and its prediction is the model's output on that vector, for any parser reading "30", "25.0", "2" as those numbers |

## Left out

- Flask set-up, routing, `render_template` and `app.run` (Sessions/Day12/app.py:1, 5, 10, 36, 38-39): web framework plumbing; the model stops at the prediction value handed to the template.
- `joblib.load` of the pickled model from a fixed path (Sessions/Day12/app.py:8): file I/O of a foreign artefact; the loaded model is the `predict` parameter, so it is fixed and read-only by construction.
- `model.predict` (Sessions/Day12/app.py:34): the fitted scikit-learn model is not visible; it is an uninterpreted function parameter, which also makes the prediction deterministic for a fixed model and vector.
- Python `float` parsing and IEEE floating point (Sessions/Day12/app.py:15, 17, 18): parsing is the `parse` parameter and numbers are exact reals.
- The 1×9 `np.array` wrapping (Sessions/Day12/app.py:29-31): the row is a nine-entry sequence.
- HTTP responses: a missing field (the form's `KeyError`) and an unparsable number (the `ValueError` of `float`) are kept apart as `MissingField` and `Malformed`, but the status code or error page they turn into depends on the framework's configuration (with `app.run(debug=True)` both surface as unhandled exceptions) and is not modelled.
- OPTIONS requests: the framework answers them itself without calling the handler, so `Method` has only GET, HEAD and POST; HEAD takes the same no-prediction branch as GET.
- Repeated form keys: the form is a map with one text per field name, not a multi-valued dictionary.
