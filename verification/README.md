# HerbalLink decision layer in Dafny

HerbalLink is a small web application: registered users upload a photo of
a plant leaf or of a skin lesion and get back a predicted class (a leaf
species or a skin condition) with static advice, and every prediction is
written to a scan log. This project models the decision layer of its
`app.py`, with the web framework, the document database, the password
hashing library and the neural networks abstracted away:

- `Upload` (upload.dfy): `allowed_file` — split the name at its last dot,
  lower-case the extension, accept `png`, `jpg`, `jpeg` — and the stored
  upload name `<millis>_<original name>`.
- `ClassList` (class_list.dfy): the comprehension that reads the skin
  model's class file: every line stripped of whitespace as Python's
  `str.strip()` does, blank lines dropped, order kept.
- `Inference` (inference.dfy): `predict_leaf_image` and
  `predict_skin_image` over a given score vector: first arg-max, class
  table with out-of-range fallback, the thresholds (10 on a 0–100 scale
  for leaves, 0.05 on a 0–1 scale for skin) and the "no model" sentinels.
- `Knowledge` (knowledge.dfy): the `leaf_info` and `recommendations`
  tables and their lookups with defaults.
- `Credentials` (credentials.dfy): salted password hashes, with the key
  derivation as an unknown function `kdf` and the salt as a parameter.
- `App` (app.dfy): class `AppState` holding the user collection (a map
  keyed by email), the session (an optional `{email, fullname}`) and the
  scan log (a sequence), with the handlers `register`, `login`, `logout`,
  the `login_required` guard, the scan pages and the two prediction
  endpoints as methods. Its invariant `Valid()` says every user is filed
  under its own email (so emails are unique) and a logged-in session names
  a registered user.
- `Scenarios` (scenarios.dfy): request sequences against a fresh state
  (register, log in, log out; a duplicate email and a wrong password; a
  refused `leaf.txt` upload and a prediction with no leaf model loaded).

Two details of the skin endpoint are easy to miss. The skin scan record
does not store the recommendation; only the JSON answer carries it
(app.py:267-272). A skin result below the threshold is labelled
`"unknown"` and so gets the table's `"No recommendation."` (with a full
stop), not the lookup default `"No recommendation"`.

## Model

| member | source | states |
|---|---|---|
| Upload.Lower | app.py:117 | same length, no ASCII capital left, every other character unchanged |
| Upload.AllowedFile | app.py:116-117 | an allowed name contains a dot and has at least four characters |
| Upload.RSplitDot | app.py:117 | splits at a dot exactly when the name has one; the parts rebuild the name and the tail has no dot |
| Upload.RSplitDotOf | app.py:117 | `stem + "." + ext` with a dot-free `ext` splits into exactly `stem` and `ext` |
| Upload.AllowedFileIff | app.py:116-117 | a name is allowed exactly when it has a last dot and the text after it lower-cases to png, jpg or jpeg (both directions) |
| Upload.RejectedNames | app.py:116-117 | `""`, `"noext"`, `"leaf.txt"` and `"photo.png."` are refused |
| Upload.AcceptedNames | app.py:116-117 | `"A.JPG"`, `"archive.tar.png"` and `"leaf.png"` are accepted: case-insensitive, last dot only |
| Upload.Decimal | app.py:242 | the millisecond stamp renders as a non-empty string of decimal digits |
| Upload.DecimalRoundTrip | app.py:242 | reading the rendered stamp back gives the stamp |
| Upload.SavedName | app.py:242 | the stored name is a digit prefix, an underscore and the original name |
| Upload.SavedNameInjective | app.py:262 | two uploads share a stored name only with the same stamp and the same original name |
| ClassList.TrimStart | app.py:78 | drops exactly the leading whitespace: a suffix that starts with a non-space, everything dropped is whitespace |
| ClassList.TrimEnd | app.py:78 | drops exactly the trailing whitespace: a prefix that ends with a non-space, everything dropped is whitespace |
| ClassList.Strip | app.py:78 | never longer than the line, and a non-empty result has no whitespace at either end |
| ClassList.StripSpec | app.py:78 | a stripped line is the contiguous part between its leading and trailing whitespace, with no whitespace at either end |
| ClassList.StripEmpty | app.py:78 | a line strips to nothing exactly when it is all whitespace |
| ClassList.StripIdempotent | app.py:78 | stripping twice is stripping once |
| ClassList.StrippedLines | app.py:78 | one stripped text per line |
| ClassList.KeepNonEmpty | app.py:78 | never more names than given, and never an empty name |
| ClassList.KeepNonEmptyAppend | app.py:78 | filtering two blocks and concatenating is filtering their concatenation |
| ClassList.KeepNonEmptyMembers | app.py:78 | the filter keeps exactly the non-empty names |
| ClassList.ParseClassLines | app.py:78 | never more classes than lines, and never an empty class name |
| ClassList.ParseOneLine | app.py:78 | one line yields its stripped text, or nothing when that is empty |
| ClassList.ParseClassLinesAppend | app.py:78 | the classes of two blocks of lines are the two lists concatenated in order |
| ClassList.ParseClassLinesMembers | app.py:78 | a name is a class exactly when it is non-empty and some line strips to it |
| ClassList.ParsedClassesStripped | app.py:78 | every class is already stripped |
| Inference.ArgMax | app.py:126 | the index holds the largest score and every earlier score is strictly smaller |
| Inference.FirstMaximumUnique | app.py:126 | only one index is the first maximum |
| Inference.MaxScore | app.py:127 | the maximum is one of the scores and no score exceeds it |
| Inference.MaxScoreAtArgMax | app.py:126-127 | the confidence is the score at the predicted index |
| Inference.LeafName | app.py:128 | the name for any index, in range or not, is in the leaf class table |
| Inference.ClassifyLeaf | app.py:119-131 | a fault exactly when a loaded model cannot read the image or gives no scores; the label is a leaf class or "Not a Leaf"; with a model, "Not a Leaf" exactly when confidence < 10 |
| Inference.LeafWithoutModel | app.py:120-121 | with no leaf model the answer is ("Unknown", 0) for any input |
| Inference.LeafBelowThreshold | app.py:127-130 | below 10 percent the label is "Not a Leaf" whatever the arg-max and the confidence is still 100 × the maximum |
| Inference.LeafAtOrAboveThreshold | app.py:126-131 | otherwise the label is the class name at the first maximal index ("Unknown" from index 12 on) and the confidence 100 × its score |
| Inference.LeafConfidenceIsPercentage | app.py:127 | probabilities as scores give a confidence between 0 and 100 |
| Inference.SkinName | app.py:142 | the name for any index is a listed class or "unknown" |
| Inference.ClassifySkin | app.py:133-145 | a fault exactly when a loaded model with classes cannot read the image or gives no scores; the label is a listed class or "unknown"; the confidence is 0 or at least 0.05 |
| Inference.SkinWithoutModel | app.py:134-135 | with no skin model or no class list the answer is ("unknown", 0) |
| Inference.SkinBelowThreshold | app.py:141-144 | a maximum below 0.05 gives ("unknown", 0) whatever the arg-max |
| Inference.SkinAtOrAboveThreshold | app.py:140-145 | otherwise the label is the class at the first maximal index ("unknown" past the list) and the confidence is that score |
| Knowledge.LeafAdviceFor | app.py:246 | the uses read "No info", and the disease list is empty, exactly for labels outside the leaf table |
| Knowledge.LeafAdviceDefaults | app.py:86-103 | "Not a Leaf", "Unknown" and "Bhrami" get the default advice |
| Knowledge.LeafClassesCovered | app.py:55-58 | every leaf class except "Bhrami" and "Unknown" has an entry in the leaf table |
| Knowledge.RecommendationFor | app.py:266 | the answer is "No recommendation" exactly for conditions outside the table, and never empty |
| Knowledge.RecommendationDefaults | app.py:105-111 | "unknown" is in the table with the text "No recommendation.", which differs from the lookup default |
| Credentials.Hash | app.py:203 | the hash keeps the given salt and verifies the password it was made from |
| Credentials.VerifiesIsRehash | app.py:216 | a password verifies exactly when hashing it again with the stored salt gives back the stored record |
| Credentials.VerifiesHash | app.py:216 | a hash verifies its own password under any salt, and another password only on a digest collision |
| App.AppState.constructor | app.py:51-81 | empty collections, no session, the load flags as given, and the class list parsed from the class file when there is one, else empty |
| App.AppState.Admitted | app.py:148-155 | the guard lets a handler run exactly when the session holds a user, and then that user is registered under the session's email |
| App.AppState.ScanPage | app.py:169-182 | a guarded page renders with a user and redirects to login with "Please login first" without one |
| App.AppState.Register | app.py:184-207 | a missing field (absent or empty, `Filled`), then mismatched confirmation, then taken email, each leaving the users unchanged; else exactly one new user under the email with the hashed password, others untouched; emails stay unique |
| App.AppState.Login | app.py:210-221 | the session becomes {email, stored name} exactly when a user is filed under the email and the password verifies; the greeting then names the stored full name, or the email when that is empty (`WelcomeName`); otherwise session and users unchanged and the answer is "Invalid credentials" |
| App.AppState.Logout | app.py:224-228 | the session holds no user afterwards, whatever it held before |
| App.AppState.PredictLeaf | app.py:233-253 | no user, no file, an empty or disallowed name, a failed save or a model fault log nothing (a server error for the last two); otherwise exactly one record with stored name `<millis>_<filename>` and the leaf table's uses and diseases for the label |
| App.AppState.PredictSkin | app.py:255-272 | no user, no image, a failed save or a model fault log nothing ("No image" answer without an image, a server error for the last two); no extension check; otherwise exactly one record with the stored name, the recommendation from the table in the answer |
| Scenarios.RegisterLoginLogout | app.py:184-228 | register then log in reaches the scan page; after logging out twice the guard redirects |
| Scenarios.DuplicateAndWrongPassword | app.py:197-221 | a second registration of an email is refused; a login whose password does not verify sets no session |
| Scenarios.LoggedIn | app.py:184-221 | registering "a@x.com" and logging in with the same password leaves a valid state with a user in the session and an empty scan log |
| Scenarios.LeafTextFileRefused | app.py:239-240 | logged in, "leaf.txt" is refused as an invalid file and nothing is logged |
| Scenarios.LeafWithoutModelLogged | app.py:245-252 | with no leaf model an image gets ("Unknown", "No info", [], 0) and is logged once under `<millis>_leaf.png` |

## Left out

- `convert_to_tflite.py`: an offline model conversion with no logic of its own.
- Image loading, resizing, the division by 255 and `model.predict`: the model's output is a given score vector. Scores are exact reals; float32 rounding and NaN (numpy's arg-max returns the first NaN) are not modelled.
- Failures inside the prediction endpoints are inputs: `saved` is false when `file.save` raises (app.py:244, 264; for instance a name such as `a/b.png` whose directory does not exist), and the score vector is `None` when a loaded model's `load_img` cannot read the file (app.py:122, 136; for instance non-image bytes). Each of these, and an empty score vector that numpy's arg-max rejects, is answered `ServerError` with nothing logged; which exception was raised and the file left on disk after a failed prediction are not modelled.
- Model and class-file loading at startup: the constructor takes whether each model loaded and the class file's lines (None when the file is missing or unreadable). Splitting the file into lines and newline translation are not modelled.
- Upload.Lower: lower-cases ASCII letters only, where Python lower-cases all of Unicode. This never changes an `allowed_file` answer. The only characters Python's `str.lower()` maps into ASCII letters are U+0130 (to `i` followed by U+0307) and the Kelvin sign U+212A (to `k`), and neither `i` nor `k` occurs in png, jpg or jpeg.
- The document database: `find_one`/`insert_one` become map lookup and update and sequence append. The `/scans` route (sort by timestamp, limit 200) is a database query and is not modelled.
- Password hashing internals: the key derivation is the parameter `kdf`, the random salt of each hash a parameter of `Register`.
- Flask routing, templates, `jsonify`, cookies and the bytes written to the uploads directory (only whether the save succeeded is an input): handlers return a `Reply`. The GET forms of `/register` and `/login`, `/` and `/explore` only render or redirect and are not modelled.
- Form fields missing from a login request (None in Python) are not modelled: `Login` takes strings. A multipart part without a file name is not modelled either.
- The clock: the millisecond stamp and the record timestamp are parameters. The conversion of a naive UTC time through `timestamp()` is not modelled, and the stamp is a natural number.
- One session: the model holds the session of one browser, with no expiry.
- Requests run one at a time. `register` looks up the email (app.py:197) and inserts the user (app.py:200) as two separate database calls, with no unique index and no lock, so two concurrent registrations of one email can both succeed; email uniqueness is proved for sequential requests only.
- Environment configuration and `app.run`.
