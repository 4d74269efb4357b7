# SentimenKopi upload-and-analyse workflow, modelled in Dafny

This is a model of the client side of SentimenKopi. There the user uploads a CSV of coffee-shop reviews and names the column that holds the review text. The page sends both to a remote analysis service. It then shows the returned summary, suggestions, sentiment pie chart, word cloud and data preview, and offers the processed CSV for download.

Three modules:

- `Wrappers` (`wrappers.dfy`) holds `Option`, which stands for JavaScript's `null`/`undefined`.
- `Api` (`api.dfy`) models the endpoint resolver, src/lib/api.ts:
  - `ApiBase` chooses the base address from the page's host name.
  - `BuildUrl` joins a path to that base. It then applies the query parameters one by one in a `for` loop, with `URLSearchParams.set` semantics (WHATWG URL Standard, section 6.2, `set()`). The loop is proved against the fold `ApplyParams`. Lemmas about that fold show three things:
    - every parameter name ends up exactly once, carrying its last value;
    - the pairs of all other names keep their values and their relative order;
    - no other names appear.
- `IndexPage` (`index_page.dfy`) models the `Index` component, src/pages/Index.tsx:
  - The class `Index` has the component's twelve state fields and one handler method per event: drag, drop, file pick, column name, submit and download.
  - Submit is split at the `await`. `BeginSubmit` validates, turns loading on and hides old results before the request, and returns the request. `CompleteSubmit` takes the request's `Outcome` and runs the success, `catch` and `finally` code. `HandleSubmit` runs both.
  - Each method's new state is tied to a pure transition of the `View` value (`Begun`, `Finished`, `Submitted`). The properties are proved as lemmas about those transitions: validation, ends-idle, the server-error and failure messages, the success decoding, wholesale replacement of results, and idempotence.
  - The derived values are pure functions: the pie-chart slices, the word-cloud data URI, the preview guard and the export file name.

The network is an input. `Outcome` is `Ok(payload)` for a successful reply already decoded from JSON. It is `HttpError(detail)` for a reply whose status is not ok; `detail` is None when the error body is missing, not JSON or has no `detail`. It is `Failure(message)` for any exception thrown while sending or decoding. The page's host name is a constructor parameter of `Index`, None when there is no browser window.

JavaScript truthiness is written out wherever the code tests a value with `||`:

- An empty `csv_data` or `wordcloud_image` becomes null.
- An empty `detail` falls back to "Terjadi kesalahan pada server.".
- An empty exception message falls back to "Gagal memproses permintaan.".
- A count of 0 and a missing count both give a slice of 0.

In three places the code behaves differently from what a reader might expect; the model follows the code:

- Only the empty column name is rejected. A whitespace-only name passes validation and is sent.
- The error is reset to null at the start of every submit, and not only on valid input.
- The results fields are replaced only on success. After a failed submit the previous results stay in the state, hidden because `resultsVisible` is false.

## Model

| member | source | states |
|---|---|---|
| `Api.ApiBase` | src/lib/api.ts:3-6 | the base is "http://127.0.0.1:8000" exactly when the host is "localhost" or "127.0.0.1" (a missing window counts as neither); otherwise it is the production run.app address |
| `Api.SetParam` | src/lib/api.ts:12 | after `set(name, value)` the name carries exactly `[value]`; the pairs of every other name are unchanged and in the same order; the names are the old ones plus `name` |
| `Api.SetParamAppends` | src/lib/api.ts:12 | when the name is absent, `set` appends the pair at the end |
| `Api.SetParamReplacesFirst` | src/lib/api.ts:12 | when the name first occurs at index i, `set` gives the pairs before i, then the new pair at i, then the rest with every other pair of that name removed |
| `Api.ApplyParamsSetsEach` | src/lib/api.ts:11-13 | after the loop each name of `params` occurs exactly once in the query, with the value of its last entry in `params` |
| `Api.ApplyParamsKeepsOthers` | src/lib/api.ts:9-13 | pairs whose names are not among the parameters are unchanged and keep their relative order |
| `Api.ApplyParamsNames` | src/lib/api.ts:11-13 | the query's names afterwards are exactly the path's names plus the parameters' names |
| `Api.BuildUrl` | src/lib/api.ts:8-16 | the `for` loop's URL has base `API_BASE` and the given path; without `params` the path's query is untouched; with `params` it equals the fold of `set`, each parameter name occurs once with its last value, and the other pairs keep their values and order |
| `IndexPage.PieData` | src/pages/Index.tsx:36-43 | no counts give no slices; counts give exactly three slices, "positive", "neutral", "negative" in that order, each with its count (0 when missing or falsy) and its colour variable |
| `IndexPage.PieDataTotal` | src/pages/Index.tsx:39-41 | the slice values add up to positive + neutral + negative, missing counts as 0 (and to 0 without counts) |
| `IndexPage.WordcloudUri` | src/pages/Index.tsx:104 | an image exists exactly when the reply's image text is present and non-empty; it starts with "data:image/png;base64,", and the rest is the reply's text unchanged |
| `IndexPage.PreviewRows` | src/pages/Index.tsx:106 | preview rows are kept, unchanged, exactly when the reply's `preview_data` is an array |
| `IndexPage.ThrownMessage` | src/pages/Index.tsx:91-97 | the message thrown for a reply that is not ok is non-empty: the body's `detail` when present and non-empty, otherwise "Terjadi kesalahan pada server." |
| `IndexPage.CaughtMessage` | src/pages/Index.tsx:108-109 | the shown error is non-empty: the exception's message when present and non-empty, otherwise "Gagal memproses permintaan." |
| `IndexPage.StripCsvExtension` | src/pages/Index.tsx:121 | a name ending in lower-case ".csv" is its stem plus ".csv"; any other name is kept whole |
| `IndexPage.ExportName` | src/pages/Index.tsx:121-122 | the download name ends in "_sentimen.csv", and what precedes it is the upload's name with one trailing ".csv" removed |
| `IndexPage.ExportNameReplacesExtension` | src/pages/Index.tsx:121-122 | `stem + ".csv"` downloads as `stem + "_sentimen.csv"`; only one extension is removed |
| `IndexPage.ExportNameKeepsOtherNames` | src/pages/Index.tsx:121-122 | a name not ending in ".csv" (".CSV" included) downloads as the name plus "_sentimen.csv" |
| `IndexPage.ExportNameExampleWithExtension` | src/pages/Index.tsx:121-122 | "reviews.csv" downloads as "reviews_sentimen.csv" |
| `IndexPage.ExportNameExampleWithoutExtension` | src/pages/Index.tsx:121-122 | "data" downloads as "data_sentimen.csv" |
| `IndexPage.SubmitRequest` | src/pages/Index.tsx:71-89 | a request is sent exactly when there is a file and the column name is non-empty; it carries that file and goes to `API_BASE` + "/process_and_suggest" with the single query pair text_column = the column name |
| `IndexPage.SubmitRejectsInvalid` | src/pages/Index.tsx:69-74 | without a file or with an empty column name, only the error changes, to the fixed validation message; loading and result visibility are untouched, and no request is sent |
| `IndexPage.BegunBeforeRequest` | src/pages/Index.tsx:69-84 | on valid input the state when the request goes out has the error cleared, loading on and results hidden, and nothing else changed |
| `IndexPage.SubmitEndsIdle` | src/pages/Index.tsx:110-112 | after a submit, loading is off whenever validation passed, whatever the outcome; a rejected submit leaves it as it was |
| `IndexPage.SubmitKeepsInput` | src/pages/Index.tsx:67-113 | a submit never changes the selected file, the column name or the drag flag |
| `IndexPage.SubmitServerError` | src/pages/Index.tsx:91-112 | a reply that is not ok: the error is the body's non-empty `detail`, else the server fallback; results stay hidden, all result fields are unchanged, loading is off |
| `IndexPage.SubmitFailure` | src/pages/Index.tsx:108-112 | a thrown failure: the error is its non-empty message, else "Gagal memproses permintaan."; results stay hidden and unchanged, loading is off |
| `IndexPage.SubmitSuccess` | src/pages/Index.tsx:100-107 | on success: no error, results visible, loading off; summary and suggestions are the payload text or ""; the CSV is the payload text when non-empty or else null; the image is the prefixed payload image when non-empty; the counts are the payload's; the preview is kept only if it is an array |
| `IndexPage.SuccessSupersedes` | src/pages/Index.tsx:100-107 | two states with the same input reach the same state after the same successful reply; no earlier result survives a success |
| `IndexPage.SubmitIdempotent` | src/pages/Index.tsx:67-113 | a second submit with unchanged input and the same reply leaves the state of the first |
| `IndexPage.Index.constructor` | src/pages/Index.tsx:13-24 | every state field starts at its `useState` initial value |
| `IndexPage.Index.OnDragHover` | src/pages/Index.tsx:197-198 | drag-enter/over raise the drag flag and change nothing else |
| `IndexPage.Index.OnDragLeave` | src/pages/Index.tsx:199 | drag-leave clears the drag flag and changes nothing else |
| `IndexPage.Index.OnDrop` | src/pages/Index.tsx:52-60 | a drop always clears the drag flag; the file becomes the first dropped file when there is one and is kept otherwise; nothing else changes |
| `IndexPage.Index.OnFileChange` | src/pages/Index.tsx:62-65 | the file becomes the first picked file, or none when the list is missing or empty; nothing else changes |
| `IndexPage.Index.OnTextColumnChange` | src/pages/Index.tsx:236 | the column name becomes the typed value verbatim; nothing else changes |
| `IndexPage.Index.BeginSubmit` | src/pages/Index.tsx:67-89 | the state becomes `Begun` of the old state, and the returned request is `SubmitRequest` of it, its URL built by `Api.BuildUrl` |
| `IndexPage.Index.CompleteSubmit` | src/pages/Index.tsx:91-112 | the state becomes `Finished` of the old state and the outcome, with the `finally` step included |
| `IndexPage.Index.HandleSubmit` | src/pages/Index.tsx:67-113 | one whole submit moves the state to `Submitted` of the old state and the outcome, and returns the request that was sent |
| `IndexPage.Index.HandleDownload` | src/pages/Index.tsx:115-127 | a download is produced exactly when the CSV text is present and non-empty and a file is selected; it carries that CSV text verbatim, the MIME type "text/csv;charset=utf-8;" and the export name of the file |

## Left out

- The `fetch` call, the `FormData` body and `response.json()` decoding are not modelled. The response reaches the model as an `Outcome` value. The file's bytes are carried in the request but never inspected.
- The payload is typed the way the service documents it: text fields are strings and `sentiment_counts` is an object. A JSON reply whose members have other types is not modelled. Examples are a numeric `summary` turned into text by `toString()`, or a `detail` that is an array (the shown message would be its `String()` form).
- The URL is kept as base, path and a list of query pairs. The relative `path` argument arrives already split into its path and its query. Three parts of URL handling are not modelled: percent-encoding, the serialisation by `toString()`, and relative-reference resolution (dot segments, paths without a leading "/", "//" references). The only call site passes "/process_and_suggest".
- Api.BuildUrl: `params` is the list that `Object.entries` yields, taken in the order given. JavaScript's own key order (integer-like keys first) is not modelled.
- The toast effect that fires when `error` changes (src/pages/Index.tsx:46-50) is not modelled. Whether it fires depends on React's batched rendering and its comparison of dependencies. Neither is part of the model.
- React's batching of state updates is not modelled either. The handlers are sequential assignments to fields, and a submit's two halves (`BeginSubmit`, `CompleteSubmit`) are each atomic.
- Several submits interleaving is not modelled. The source prevents it by disabling the submit button while `loading` is true (src/pages/Index.tsx:240). Nothing in the model relies on that.
- The browser download plumbing is not modelled: the `Blob`, `URL.createObjectURL`/`revokeObjectURL`, and creating and clicking the anchor. `HandleDownload` returns the file it would save.
- A preview row is a list of column name and cell text pairs in key order. Cells of other JSON types, and their rendering with `String(row[key] ?? "")`, are not represented. The preview rows are only passed through to the table.
- The JSX layout, page metadata, chart colours configuration (`pieConfig`) and the canonical-URL lookup are presentation only.
