# Potato disease classification: a verified model of the upload flow

This project models, in Dafny, the logic of a potato-leaf classification
service and its browser client:

- the service's upload validation (content type `image/…` and an
  extension whitelist taken Python `splitext`-style from the lower-cased
  file name), the guard order of `/predict` and `/predict/batch`, the batch
  loop that appends one result per file, and the success/failure counts;
- the four interactive React components (`ImageUploader`, `BatchUploader`,
  `ApiTester`, `HealthStatus`) as classes whose fields are the components'
  state cells. Each asynchronous handler is a `Begin…` method plus a
  `Succeed…`/`Fail…` completion, and a `Handle…` method composing them for
  one run (sequential, not concurrent);
- the pure label, colour and chart-data mappings, including the bar chart of
  `PredictionChart`.

Files: `Wrappers.dfy` (Option, Result), `Web.dfy` (browser files, multipart
form, the `detail || fallback` error message), `Api.dfy` (api/main.py),
`Labels.dfy` (`getClassColor` and `translateClassName`, written out
identically in both uploaders, and BatchUploader's `translateStatus` and
`getStatusColor`), `PredictionChart.dfy`, `BatchUploader.dfy`, `ImageUploader.dfy`,
`ApiTester.dfy`, `HealthStatus.dfy`.

Image decoding and model inference are an oracle: for each upload an
`Api.Inference` either fails (`DecodeFailed`, the 400 raised by
`read_file_as_image`; `ModelFailed`, any other exception) or yields a class
index in 0..2, a confidence and three scores. The batch endpoint takes the
oracle as a function `Upload -> Inference`.

Main facts proved:

- A format-rejected batch entry has `error` but no `status`. So
  `successful_predictions + failed_predictions + (rejected files) == total_files`,
  and the two counts add up to the total exactly when no file was rejected
  by `validate_image` (`Api.BatchCounts`). A single text file gives one
  result and zero on both counters (`Api.RejectedFileIsUncounted`). The
  results table still shows such rows as errors, so it shows
  `failed + rejected` error rows (`BatchUploader.ErrorRowsOfServerResponse`).
- `validate_image` accepts exactly the uploads with an `image/` content type
  whose lower-cased name ends in a whitelisted suffix preceded by a stem
  that is not all dots (`Api.ValidateImageAccepts`).
- A missing content type makes `validate_image` raise. In `/predict` that is
  outside the `try`, so the framework answers 500. In the batch loop it is
  inside, so the entry gets `status: 'error'` and is counted as a failure.
- The clients' completions write unconditionally. A file dropped while a
  prediction is in flight is overwritten on screen by the older response
  (`ImageUploader.StaleResponseOverwrites`). Nothing in the code discards
  stale responses, and the model follows the code.
- After `ApiTester.handleTest` completes, exactly one of `response`/`error`
  is set. The error alert's headline shows `statusText || message`
  (`ApiTester.ErrorHeadline`); the server's `detail` appears only inside the
  JSON dump of the response body, whose rendering is not modelled.

## Model

| member | source | states |
|---|---|---|
| `Api.ExtensionWhitelisted` | api/main.py:90-91 | the splitext extension of a name is whitelisted iff the name ends with a supported suffix whose stem in the last path component is not made of dots alone |
| `Api.ValidateImage` | api/main.py:85-91 | validation raises exactly when the upload has no content type |
| `Api.ValidateImageAccepts` | api/main.py:85-91 | accepted iff the content type starts with `image/` and the lower-cased name ends with a whitelisted extension |
| `Api.NonImageTypeRejected` | api/main.py:87-88 | a content type outside `image/` is rejected whatever the filename |
| `Api.UpperCaseNameAccepted` | api/main.py:90-91 | `LEAF.PNG` with `image/png` is accepted (the name is lower-cased first) |
| `Api.ShortTiffRejected` | api/main.py:38 | `x.tif` is rejected: `.tif` is not in the whitelist |
| `Api.HiddenNameRejected` | api/main.py:90-91 | `.png` alone has no extension under splitext and is rejected |
| `Api.ClassProbabilities` | api/main.py:157-160 | the probability dictionary is keyed by exactly the three class names, in class order, with the model's scores |
| `Api.Predict` | api/main.py:93-127 | 503 before anything else when the model is not loaded; 400 with the unsupported-format detail iff validation rejects; a missing content type is a plain 500; a failed decode or inference is a 500 `Prediction error: …` of the exception; success iff validated and inferred, with the upload's filename, `CLASS_NAMES[classIndex]`, the oracle's confidence and its scores keyed by the three classes |
| `Api.UndecodableImageIs500` | api/main.py:105-127 | an undecodable image surfaces as 500 `Prediction error: 400: Invalid image format: …`, never as the inner 400 |
| `Api.EntryFor` | api/main.py:141-175 | each entry carries the file's filename; no `status` iff rejected by format; `success` iff validated and inferred; success entries carry `CLASS_NAMES[classIndex]`, the oracle's confidence and its scores keyed by the three classes, and no error; all others carry an error and no prediction: the unsupported-format text for a rejection, the `NoneType` message for a missing content type, the exception text for a failed inference |
| `Api.Entries` | api/main.py:138-175 | one entry per file, in upload order, each the entry of that file |
| `Api.PredictBatchOutcome` | api/main.py:129-136 | 503 first when the model is not loaded, then 400 for more than ten files; a response iff loaded and at most ten files, and that response is the aggregate of the per-file entries (`BatchResponseFor`), with total_files and the result count equal to the number of files |
| `Api.PredictBatch` | api/main.py:129-183 | the loop with its `continue` builds exactly the specified response: guards, one entry per file, and the two counts |
| `Api.CountsPartition` | api/main.py:177-181 | with statuses only `success`/`error`/absent, successes + failures + unstated entries equal the number of entries |
| `Api.UnstatedAreRejected` | api/main.py:142-147 | the entries without a `status` are exactly the format-rejected files |
| `Api.BatchCounts` | api/main.py:177-181 | successful + failed + rejected == total_files; successful + failed <= total_files, with equality iff no file was rejected by validation |
| `Api.RejectedFileIsUncounted` | api/main.py:142-147 | a lone `text/plain` file yields one result and zero successes and zero failures |
| `Api.HealthCheck` | api/main.py:53-63 | status is `healthy` iff the model loaded, else `unhealthy`; the TensorFlow version is passed through; supported classes and formats are the constants |
| `Api.Classes` | api/main.py:65-76 | the three classes, their count, and one description per class in class order |
| `Web.ErrorMessage` | frontend/src/components/BatchUploader.js:69 | the server `detail` when it is a non-empty string, otherwise the fallback; never empty when the fallback is not |
| `Web.BuildForm` | frontend/src/components/BatchUploader.js:56-59 | one `files` part per selected file, in selection order |
| `Labels.ClassColor` | frontend/src/components/BatchUploader.js:75-82 | Healthy is green, Early Blight orange, Late Blight red, and the neutral colour exactly for any other label |
| `Labels.TranslateClassName` | frontend/src/components/BatchUploader.js:87-94 | Healthy becomes `Saine`, Early Blight `Mildiou Précoce`, Late Blight `Brûlure Tardive`; unknown labels pass through unchanged |
| `Labels.TranslateStatus` | frontend/src/components/BatchUploader.js:96-102 | `success` becomes `succès`, `error` becomes `erreur`; any other status passes through unchanged |
| `Labels.StatusColor` | frontend/src/components/BatchUploader.js:84-86 | green iff the status is `success`, red for everything else |
| `Labels.KnownClassesDistinguished` | frontend/src/components/BatchUploader.js:75-94 | the three classes get pairwise different colours and translations |
| `Labels.ServerClassesKnown` | api/main.py:37 | every class the service can predict has a colour other than the neutral one and a translation |
| `PredictionChart.Bars` | frontend/src/components/PredictionChart.js:8-12 | one bar per probability entry, in order, labelled with the key, valued at probability × 100 |
| `PredictionChart.ChartData` | frontend/src/components/PredictionChart.js:6-12 | absent probabilities give no data; otherwise exactly the bars of the entries (key and probability × 100, in entry order) |
| `PredictionChart.ChartRoundTrip` | frontend/src/components/PredictionChart.js:8-12 | reading labels and value / 100 back from the bars gives the original entries |
| `PredictionChart.BarColor` | frontend/src/components/PredictionChart.js:14-20 | the blue default exactly for labels other than the three classes |
| `PredictionChart.Cells` | frontend/src/components/PredictionChart.js:39-41 | one cell per data entry, filled with the bar colour of that entry's class |
| `PredictionChart.BarColorFollowsClassColor` | frontend/src/components/PredictionChart.js:14-20 | two labels share a bar colour iff they share a chip colour |
| `BatchUploader.Component.constructor` | frontend/src/components/BatchUploader.js:30-33 | no files, no results, not loading, no error |
| `BatchUploader.Component.OnDrop` | frontend/src/components/BatchUploader.js:35-39 | the dropped list (possibly empty) replaces the files; results and error cleared; loading kept |
| `BatchUploader.Component.BeginBatchPredict` | frontend/src/components/BatchUploader.js:50-59 | with no files nothing changes and no request is made; otherwise loading set, error cleared, results kept, one form part per file in order |
| `BatchUploader.Component.SucceedBatchPredict` | frontend/src/components/BatchUploader.js:61-72 | the response becomes the results; loading ends; files and error kept |
| `BatchUploader.Component.FailBatchPredict` | frontend/src/components/BatchUploader.js:68-72 | `detail` or the default message becomes the error; loading ends; earlier results kept |
| `BatchUploader.Component.HandleBatchPredict` | frontend/src/components/BatchUploader.js:50-73 | a full run: no-op without files; otherwise not loading afterwards, results replaced on success, and on failure the old results kept and the error set to the server's `detail`, else the default message |
| `BatchUploader.Component.SubmitButton` | frontend/src/components/BatchUploader.js:130-151 | the button exists iff files are selected and is disabled iff loading |
| `BatchUploader.RowStatus` | frontend/src/components/BatchUploader.js:217-218 | a truthy `status` is shown as is; otherwise `error` iff the entry has a truthy error, else `success` |
| `BatchUploader.StatusChip` | frontend/src/components/BatchUploader.js:216-220 | the chip's caption is the translated row status and its colour the status colour: green iff the row status is `success`, red otherwise |
| `BatchUploader.ClassCell` | frontend/src/components/BatchUploader.js:222-231 | a translated, coloured chip iff the entry has a truthy class, else its error text or `N/A` |
| `BatchUploader.ConfidenceCell` | frontend/src/components/BatchUploader.js:234 | `N/A` iff the confidence is absent or zero; otherwise the confidence × 100 |
| `BatchUploader.ProbabilityLines` | frontend/src/components/BatchUploader.js:244-248 | one line per probability entry, in order, with the translated class and probability × 100 |
| `BatchUploader.DetailsCell` | frontend/src/components/BatchUploader.js:237-252 | the accordion exists iff the entry has probabilities, and its lines are those entries translated and in percent, in order |
| `BatchUploader.RowStatusOfServerEntry` | frontend/src/components/BatchUploader.js:217-218 | an entry produced by the service shows `success` iff its status is `success`, and `error` otherwise, including format rejections without a status |
| `BatchUploader.ErrorRowsOfServerResponse` | frontend/src/components/BatchUploader.js:212-220 | the table shows total − successful error rows, that is failed + rejected: more than the "failed" counter whenever a file was rejected |
| `ImageUploader.Component.constructor` | frontend/src/components/ImageUploader.js:24-28 | all cells empty and not loading |
| `ImageUploader.Component.OnDrop` | frontend/src/components/ImageUploader.js:30-38 | an empty drop changes nothing; otherwise the first file and its preview URL are set, prediction and error cleared, loading kept |
| `ImageUploader.Component.BeginPredict` | frontend/src/components/ImageUploader.js:48-55 | without a file nothing changes; otherwise loading set, error cleared, the previous prediction kept, the form is the single `file` part |
| `ImageUploader.Component.SucceedPredict` | frontend/src/components/ImageUploader.js:57-67 | the response becomes the prediction; loading ends; file, preview and error kept |
| `ImageUploader.Component.FailPredict` | frontend/src/components/ImageUploader.js:64-67 | `detail` or the default message becomes the error; loading ends; prediction kept |
| `ImageUploader.Component.HandlePredict` | frontend/src/components/ImageUploader.js:48-68 | a full run: no-op without a file; otherwise not loading afterwards, prediction replaced on success, and on failure the stale prediction kept beside the server's `detail`, else the default message, as the error |
| `ImageUploader.Component.PredictButton` | frontend/src/components/ImageUploader.js:115-134 | the button exists iff a preview is set and is disabled iff loading |
| `ImageUploader.StaleResponseOverwrites` | frontend/src/components/ImageUploader.js:30-66 | dropping a second file while the first is being predicted, then completing, leaves the second file selected with the first file's prediction shown |
| `ImageUploader.ConfidenceColor` | frontend/src/components/ImageUploader.js:70-74 | green iff confidence >= 0.8, red iff below 0.6, never the neutral colour |
| `ImageUploader.ConfidenceColorMonotone` | frontend/src/components/ImageUploader.js:70-74 | a higher confidence never gets a worse colour |
| `ImageUploader.ChartOfServerPrediction` | frontend/src/components/ImageUploader.js:194 | any prediction from the service charts as three bars in class order, coloured orange, red, green |
| `ApiTester.EndpointPaths` | frontend/src/components/ApiTester.js:22-30 | the paths are `/`, `/ping`, `/health`, `/classes`, and the initial selection is among them |
| `ApiTester.EndpointsAreFourGets` | frontend/src/components/ApiTester.js:22-27 | four endpoints, all GET |
| `ApiTester.ErrorRecordOf` | frontend/src/components/ApiTester.js:52-58 | the message is kept; status, status text and body are present iff the error carried a response, and are taken from it |
| `ApiTester.ErrorHeadline` | frontend/src/components/ApiTester.js:109 | the alert shows the status text when truthy, otherwise the error message |
| `ApiTester.Component.constructor` | frontend/src/components/ApiTester.js:30-33 | `/ping` selected, no records, not loading |
| `ApiTester.Component.SelectEndpoint` | frontend/src/components/ApiTester.js:78 | only the selection changes |
| `ApiTester.Component.BeginTest` | frontend/src/components/ApiTester.js:35-42 | both records cleared, loading set, the URL is the base URL followed by the selected path, the selection unchanged |
| `ApiTester.Component.SucceedTest` | frontend/src/components/ApiTester.js:40-61 | the response record holds data, status, text, headers and end − start time; loading ends |
| `ApiTester.Component.FailTest` | frontend/src/components/ApiTester.js:52-61 | the error record is built from the error; loading ends; the response is untouched |
| `ApiTester.Component.HandleTest` | frontend/src/components/ApiTester.js:35-62 | a full run requests base URL + selected path and leaves exactly one record set, not loading, the selection unchanged; an answer is stored whole (data, status, status text, headers, end − start), an error as the record built from its message and response |
| `HealthStatus.StatusColor` | frontend/src/components/HealthStatus.js:58-67 | green iff `healthy`, red iff `unhealthy`, orange otherwise |
| `HealthStatus.StatusIcon` | frontend/src/components/HealthStatus.js:47-56 | the icon's colour is always the status colour |
| `HealthStatus.ClassCount` | frontend/src/components/HealthStatus.js:159 | 0 when `supported_classes` is absent, else its length |
| `HealthStatus.ServiceHealthDisplay` | api/main.py:56-60 | against this service the chip is green iff the model loaded, never orange, and three classes are shown |
| `HealthStatus.Component.constructor` | frontend/src/components/HealthStatus.js:20-23 | no health, no error, no check time, loading |
| `HealthStatus.Component.BeginFetch` | frontend/src/components/HealthStatus.js:25-27 | loading set and error cleared; health and check time kept |
| `HealthStatus.Component.SucceedFetch` | frontend/src/components/HealthStatus.js:30-37 | the data replace the health and the check time is recorded; loading ends |
| `HealthStatus.Component.FailFetch` | frontend/src/components/HealthStatus.js:33-37 | the fixed connection message becomes the error; health and check time kept; loading ends |
| `HealthStatus.Component.FetchHealth` | frontend/src/components/HealthStatus.js:25-38 | after a full run nothing is loading; success renders the card with the new data and time; failure renders only the error alert while the old data are kept |
| `HealthStatus.Component.Render` | frontend/src/components/HealthStatus.js:69-173 | the error alert alone iff there is an error; otherwise the spinner iff loading, the panel iff not loading and health is known, and the last check time |

## Left out

- TensorFlow model loading, `MODEL.predict`, numpy `argmax`/`max` and PIL
  decoding: foreign calls on float tensors, replaced by the `Inference`
  oracle. The `await file.read()` itself cannot fail in the model.
- FastAPI app creation, CORS middleware, route decorators and the uvicorn
  entry point: framework plumbing. The `/` banner and `/ping` are not
  modelled: one is a constant dictionary, the other only reads the clock.
- Request validation: both upload fields are required (`File(...)`), so a
  request with no `file` part, or no `files` part, is answered 422 by the
  framework before the endpoint body, and so before the 503 model guard.
  `Api.Predict` and `Api.PredictBatchOutcome` take the uploads as already
  parsed; `Api.PredictBatchOutcome` on an empty list describes a call the
  deployed endpoint never makes.
- An exception no handler catches becomes a plain 500 `Internal Server
  Error` in the model; that answer comes from the framework, not from
  api/main.py.
- `str()` of the decoding HTTPException is rendered `"<status>: <detail>"`,
  as the framework's exception class does; other exception texts are the
  oracle's.
- `Api.Lower`: lower-cases ASCII letters only; Python's full Unicode case
  mapping is not modelled.
- `Api.Extension`: follows the POSIX `os.path.splitext` (separator `/`);
  the Windows flavour with `\` and drive letters is not modelled.
- `filename` is a plain string: a multipart part without a filename never
  reaches these endpoints as an upload.
- Every `timestamp` field, `datetime.now`, `Date.now`, `new Date`,
  `toLocaleString` and `toFixed`: clock reads and float formatting. The
  clock readings the components use are parameters (`SucceedTest`'s start
  and end times, `SucceedFetch`'s `now`); percentages stay exact reals.
- Floating point: probabilities, confidences and percentages are reals, so
  rounding such as `0.07 * 100` is not modelled, nor is `NaN` in the
  falsy confidence check.
- axios, `FormData` transport and `URL.createObjectURL`. A request is a
  `Reply` fed to the completion method; the object URL is a parameter of
  `ImageUploader.Component.OnDrop`. Response bodies the tester only
  displays are an opaque `Json` value.
- `Web.ErrorMessage`: treats `detail` as a string. A non-string `detail`,
  such as a framework validation error list, is not modelled.
- react-dropzone's `accept` and `maxFiles` enforcement: library code.
  Nothing here bounds the client's selection; the service's 10-file guard is
  modelled.
- The 30-second `setInterval` polling of `HealthStatus` and its teardown:
  timers and lifecycle hooks. `FetchHealth` models one run of the handler.
- Overlapping requests: every handler is modelled as one `Begin…` followed
  by one completion. Interleavings are shown only by
  `ImageUploader.StaleResponseOverwrites`.
- MUI and recharts rendering beyond the view functions listed above, the
  file-size text of `ImageUploader`, the tab shell and theme of
  frontend/src/App.js, and the differing base URLs and route prefixes
  across files (deployment configuration).
