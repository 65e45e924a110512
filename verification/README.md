# Digital-pathology demo shell: state containers in Dafny

The application is a client-side shell for a Ki-67 image-analysis demo. Apart from its views, it is a few
React contexts and one upload component. This project models that state and proves what the code
guarantees about it:

- **Analysis state machine** (`analysis_context.dfy`, module `AnalysisContext`). One shared
  `AnalysisState` record holds the selected files, results, active tab, status and error. There are five
  setters, each replacing one field. `startAnalysis` is split into three steps:
  - `Begin`: status becomes processing, the error is cleared, and the selection the callback closed over
    is returned as the job.
  - `Succeed`: one fabricated result per job file, in order, then status complete.
  - `Fail`: the catch branch.

  `StartAnalysis` runs one whole, non-overlapping call. Each `Math.random()` value is a real in [0,1)
  supplied in a `RandomDraw`. The cell counts are `Floor(u * n)`, so their bounds are proved rather than
  assumed.
- **Upload validation** (`file_upload.dfy`, module `FileUpload`). `processFiles` accepts or rejects a batch
  as a whole: a batch is rejected if any file's MIME type does not start with `image/`. The module also
  models the picker's null guard, the drop handler, and the guard on the start button (rendered only with
  a selection, disabled while processing, and run only after the user confirms).
- **Session store** (`auth_context.dfy`, module `AuthContext`). It holds a login flag. The browser's
  `localStorage` is a `map<string, string>` in its own object, so it outlives a provider. The store has a
  mount-time restore, a login against one fixed credential pair, and a logout.
- **Preferences** (`language_context.dfy`, `dark_mode_context.dfy`). Each holds one two-valued field with an
  involutive toggle. A ghost toggle counter ties the value to the number of toggles since mount.
- `types.dfy` (module `Types`) holds the records of `types.ts`.

Behaviour the model takes from the code as written, which a reader might not expect:
- `startAnalysis` does not reject an empty selection. It completes with no results (`EmptySelectionScenario`).
- A rejected upload leaves the previous selection in place; it does not empty it. A rejected batch leaves
  zero files selected only on a fresh page (`MixedBatchScenario`).
- Within one mounted provider, no code path returns the status to `idle`; only `setStatus` could.
- A failed analysis keeps the previous results (`FailureKeepsResultsScenario`).

## Model

| member | source | states |
|---|---|---|
| `AnalysisContext.RandomCount` | context/AnalysisContext.tsx:56-62 | `Math.floor(Math.random() * n)` is a count in [0, n-1] |
| `AnalysisContext.MakeResult` | context/AnalysisContext.tsx:53-65 | a fabricated result carries the file's name; total in [0,499], positive in [0,99], negative in [0,399] in both groups; ratios in [0,1); the original image is the file's object URL; the analysed image is the fixed placeholder |
| `AnalysisContext.BuildResults` | context/AnalysisContext.tsx:53-65 | the mapped batch has exactly one result per file; result i is named after file i, in order; every result is in range and carries the placeholder |
| `AnalysisContext.AnalysisProvider.constructor` | context/AnalysisContext.tsx:19-25 | the initial state has no files, no results, tab `Ki67`, status idle and no error |
| `AnalysisContext.AnalysisProvider.SetSelectedFiles` | context/AnalysisContext.tsx:27-29 | replaces the selection; the other four fields, status included, are unchanged |
| `AnalysisContext.AnalysisProvider.SetAnalysisResults` | context/AnalysisContext.tsx:31-33 | replaces the results; nothing else changes |
| `AnalysisContext.AnalysisProvider.SetActiveTab` | context/AnalysisContext.tsx:35-37 | replaces the active tab; nothing else changes |
| `AnalysisContext.AnalysisProvider.SetStatus` | context/AnalysisContext.tsx:39-41 | replaces the status; nothing else changes |
| `AnalysisContext.AnalysisProvider.SetError` | context/AnalysisContext.tsx:43-45 | replaces the error; nothing else changes |
| `AnalysisContext.AnalysisProvider.Begin` | context/AnalysisContext.tsx:47-53 | status becomes processing and the error is cleared before any result exists; the job is the selection at the time of the call |
| `AnalysisContext.AnalysisProvider.Succeed` | context/AnalysisContext.tsx:53-67 | the results become the job's mapped batch outright (no merge); the results have the same length as the job and are named after it in order; status becomes complete; selection, tab and error stay |
| `AnalysisContext.AnalysisProvider.Fail` | context/AnalysisContext.tsx:68-71 | the error becomes the fixed message and status becomes error; results, selection and tab stay |
| `AnalysisContext.AnalysisProvider.StartAnalysis` | context/AnalysisContext.tsx:47-72 | one run ends either complete, with no error and one result per file selected at the start, or in error with the fixed message and the old results |
| `AnalysisContext.ThreeImagesScenario` | context/AnalysisContext.tsx:47-67 | three selected images yield status complete, no error and three results named after the files |
| `AnalysisContext.EmptySelectionScenario` | context/AnalysisContext.tsx:47-67 | an empty selection is not rejected: status complete and no results |
| `AnalysisContext.SnapshotScenario` | context/AnalysisContext.tsx:47-72 | replacing the selection while the work is pending does not change which files the results describe |
| `AnalysisContext.FailureKeepsResultsScenario` | context/AnalysisContext.tsx:66-71 | after a success then a failure, the earlier results and the selection are still there next to the error |
| `FileUpload.InvalidFiles` | components/FileUpload.tsx:22-23 | an element of the result is a non-image file of the batch, and every non-image file of the batch is in the result; it is empty iff every file's type starts with `image/` |
| `FileUpload.RejectionMessage` | components/FileUpload.tsx:24-26 | the Spanish text exactly when the language is Spanish, the English text otherwise |
| `FileUpload.FileUpload.constructor` | components/FileUpload.tsx:15-18 | the component mounts with no error and no previews and keeps the language current at mount |
| `FileUpload.FileUpload.ProcessFiles` | components/FileUpload.tsx:20-47 | a batch with any non-image is rejected whole: error set, selection, previews and the rest of the analysis state unchanged; otherwise the batch, in order, becomes the selection, there is one preview per file, and the error is null |
| `FileUpload.FileUpload.OnChange` | components/FileUpload.tsx:66-70 | a null file list changes nothing; otherwise `processFiles` runs in the current language |
| `FileUpload.FileUpload.OnDrop` | components/FileUpload.tsx:82-87 | corrected drop handler: `processFiles` in the current language |
| `FileUpload.FileUpload.OnDropAsWritten` | components/FileUpload.tsx:82-87 | drop handler as written: a rejection is worded in the language current at mount |
| `FileUpload.FileUpload.ClickStartAnalysis` | components/FileUpload.tsx:89-111 | an analysis begins iff the button is rendered (selection non-empty, lines 152-156), enabled (status not processing) and the user confirms; otherwise the analysis state is unchanged |
| `FileUpload.MixedBatchScenario` | components/FileUpload.tsx:20-40 | two images and a PDF picked on a fresh page: nothing selected, no previews, status idle, Spanish message |
| `FileUpload.EmptyBatchScenario` | components/FileUpload.tsx:20-47 | an empty file list contains no invalid file, so it is accepted and empties the selection |
| `FileUpload.StaleDropLanguageWitness` | components/FileUpload.tsx:82-87 | mount in Spanish, switch to English, drop a PDF: as written the message is Spanish, while the corrected handler gives the English one |
| `FileUpload.UploadAndAnalyseScenario` | components/FileUpload.tsx:107-110 | three images uploaded, start confirmed, work finished: status complete and results in file order |
| `AuthContext.LocalStorage.SetItem` | context/AuthContext.tsx:43 | stores a value under a key; other keys stay |
| `AuthContext.LocalStorage.RemoveItem` | context/AuthContext.tsx:77 | removes a key; other keys stay |
| `AuthContext.AuthProvider.constructor` | context/AuthContext.tsx:28 | the session starts logged out, whatever storage holds |
| `AuthContext.AuthProvider.RestoreSession` | context/AuthContext.tsx:32-38 | the flag is set exactly when storage holds the string `true` under `isLoggedIn`; any other value, or none, leaves it; from mount the flag then agrees with storage |
| `AuthContext.AuthProvider.Login` | context/AuthContext.tsx:40-73 | returns true exactly for `candidate` with the fixed password; success sets the flag and stores `isLoggedIn -> true`; failure changes neither the flag nor storage |
| `AuthContext.AuthProvider.Logout` | context/AuthContext.tsx:75-77 | the flag is false and the `isLoggedIn` key is removed, whatever the prior state |
| `AuthContext.LoginIsRestored` | context/AuthContext.tsx:32-43 | storage written by a successful login is restored as logged in |
| `AuthContext.LogoutIsNotRestored` | context/AuthContext.tsx:32-77 | storage after a logout is restored as logged out |
| `AuthContext.LogoutIdempotent` | context/AuthContext.tsx:75-77 | a second logout leaves storage as the first left it |
| `AuthContext.ReloadAfterLoginScenario` | context/AuthContext.tsx:28-43 | from empty storage, after a login attempt and a reload, the session is logged in exactly when the credentials matched |
| `AuthContext.ReloadAfterLogoutScenario` | context/AuthContext.tsx:28-77 | after login, logout and a reload, the session is logged out |
| `LanguageContext.Toggled` | context/LanguageContext.tsx:26-28 | a toggle always changes the language (`es` to `en`, `en` to `es`) |
| `LanguageContext.ToggledTwice` | context/LanguageContext.tsx:26-28 | toggling twice restores the language |
| `LanguageContext.ToggledTimesParity` | context/LanguageContext.tsx:26-28 | n toggles act as none when n is even and as one when n is odd |
| `LanguageContext.LanguageProvider.constructor` | context/LanguageContext.tsx:24 | the initial language is `es` |
| `LanguageContext.LanguageProvider.ToggleLanguage` | context/LanguageContext.tsx:26-28 | the language becomes the toggled one and stays what the toggle count makes of `es` |
| `LanguageContext.LanguageProvider.SpanishIffEvenToggles` | context/LanguageContext.tsx:24-28 | the language is `es` exactly after an even number of toggles |
| `DarkModeContext.FlippedTimesParity` | context/DarkModeContext.tsx:25-27 | n toggles act as none when n is even and as a negation when n is odd |
| `DarkModeContext.FlippedTwice` | context/DarkModeContext.tsx:25-27 | toggling twice restores the value |
| `DarkModeContext.DarkModeProvider.constructor` | context/DarkModeContext.tsx:23 | dark mode starts off |
| `DarkModeContext.DarkModeProvider.ToggleDarkMode` | context/DarkModeContext.tsx:25-27 | toggling negates the value, and the value stays what the toggle count makes of `false` |
| `DarkModeContext.DarkModeProvider.OnIffOddToggles` | context/DarkModeContext.tsx:7-10 | the provider exposes only the value and the toggle, so dark mode is on exactly after an odd number of toggles |

## Left out

- The 3-second `setTimeout` and `async`/`await`: the awaited part is the separate `Succeed`/`Fail` step. Overlapping `startAnalysis` calls, whose completions race, are not modelled.
- Floating point: `Math.random()` values are exact reals in [0,1), and `Math.floor(u * n)` is computed without rounding. The ratios `iaKi67` and `ki67` are carried through without arithmetic.
- The condition `positive + negative == total` is not asserted, because the mocked generator does not enforce it.
- `URL.createObjectURL`: its object URLs are opaque strings supplied by the caller, one per file (`RandomDraw.objectUrl`, the `urls` argument of the upload handlers). What can make the awaited part throw is not modelled: `Throws` stands for any exception. Previews are never revoked, and the model does not track that either.
- `localStorage` is the `items` map of `AuthContext.LocalStorage`; its `getItem`, `setItem` and `removeItem` are that map's lookup, update and key removal by definition, not modelled behaviour of the browser (quotas, other tabs, serialisation).
- FileUpload.InvalidFiles: states membership in both directions and emptiness, not that the filter keeps batch order or duplicates; `processFiles` uses only its emptiness.
- SweetAlert notifications: they only display. The start confirmation is the `confirmed` argument of `ClickStartAnalysis`.
- The drag-highlight flag `isDragging`, `onDragOver` and `onDragLeave`: they affect only styling.
- Dark mode inside the upload and session components: it is used only for styling.
- Routing: the analysis provider lives as long as its page (components/BaseLayout.tsx:19). Navigating away discards its selection, results and status. Leaving the Ki67 tab of a page remounts `FileUpload` with no error and no previews (components/CancerDeMamaPage.tsx:14-35). The model shows such a remount only as a new `AnalysisProvider` or `FileUpload`; it does not model the page switch or the navigation context.
- Rendering, the PDF export in components/AnalysisResults.tsx and `toFixed` formatting: these are view code with no state logic.
- The hooks that throw when used outside their provider: this is framework plumbing.

## Findings

| source | as written | input that shows it | evidently intended | confidence | as-written member | corrected member |
|---|---|---|---|---|---|---|
| components/FileUpload.tsx:82-87 | `onDrop` is memoised with an empty dependency list, so it keeps calling the first render's `processFiles`, which captured the language at mount | mount in Spanish, toggle to English, drop `report.pdf` of type `application/pdf`: the error reads "Por favor, suba solo archivos de imagen." (`FileUpload.StaleDropLanguageWitness`) | the rejection is worded in the current language, as on the picker path (`onChange`) | medium, not executed | `FileUpload.FileUpload.OnDropAsWritten` | `FileUpload.FileUpload.OnDrop` |
