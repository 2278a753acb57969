# Stock Taker: a Dafny model

Stock Taker is a workshop app for counting stock. Items live in three inventory collections: components, raw materials and workshop supplies. Each item is counted either by hand or by weight. A stock-take session resets every item's "counted in session" marker. The user then picks items from a checklist, confirms each one by scanning its QR code, enters a count or a total weight, and finishes the session.

This project models the core of the app:

- `Inventory.dfy` holds the data model: items, sessions and store errors. It also defines the pure functions that state what the store operations compute: the ordered listing of all items, the lookup by id, the first in-progress session, and the marker reset.
- `FirestoreApi.dfy` models the data-access layer as a class `Store`. The backend is an in-memory store with a tick clock for server timestamps. Each round trip takes a boolean saying whether it goes through. A failed round trip is a `Failure` result and leaves the store unchanged.
- `Checklist.dfy` models the checklist screen:
  - the search filter;
  - the remaining/completed partition;
  - the progress percentage and the tab's list;
  - the fetch that sorts the list by name in place, using an insertion sort over an array;
  - the finish button.
- `Counting.dfy` models the counting dialog:
  - digit-string parsers that stand in for `parseInt` and `parseFloat`;
  - `Math.round`;
  - the weight-to-quantity rule;
  - the validation of the entered value;
  - the update handler.
- `AppState.dfy` models the top-level component as a class `App`. It covers sign-in, the screen gate, the scanner, the scan handler, selection and verification, and the session transitions. Three scenario methods show the behaviour of the code as written: the stale scan context and the unreachable error screen.

The scanner's handler is registered when the scanner starts. It reads the scan context from the moment before `startScanner` recorded the new one. The model keeps that earlier context in the field `callbackContext`, so `OnScanSuccess` acts on it. The checklist's scan button passes its click event as the context. Its mode is not "verify", so the model treats it like a general scan (`ClickEvent`).

## Model

| member | source | states |
|---|---|---|
| Inventory.Tagged | src/firestoreAPI.js:30-32 | each listed document of one collection becomes an item tagged with that collection, with its id and data, in listing order |
| Inventory.AllItemsOrder | src/firestoreAPI.js:25-35 | all items are the components, then the raw materials, then the workshop supplies, and the count is the sum of the three listing sizes |
| Inventory.AllItemsExact | src/firestoreAPI.js:25-35 | every listed item matches a stored document exactly, and every stored document appears in the listing |
| Inventory.GatherSound | src/firestoreAPI.js:28-33 | the collection loop only yields stored documents of the collections it visits |
| Inventory.GatherComplete | src/firestoreAPI.js:28-33 | the collection loop yields every stored document of every collection it visits |
| Inventory.FindFirst | src/firestoreAPI.js:40 | the position found is the first one whose id matches; no position is found exactly when no id matches |
| Inventory.LookupById | src/firestoreAPI.js:37-45 | an empty id gives null without a read; a failed read fails; otherwise the first item with that id in listing order, or a "no item with this id" failure |
| Inventory.FirstInProgress | src/firestoreAPI.js:59-65 | the session found is in progress and no earlier session in query order is; none is found exactly when no session is in progress |
| Inventory.KeysOf | src/firestoreAPI.js:74-77 | one document reference per item, in item order |
| Inventory.ClearMarkers | src/firestoreAPI.js:74-77 | exactly the referenced documents get a null session marker; every other field and document is unchanged |
| Inventory.ResetOfListingClearsAll | src/firestoreAPI.js:72-77 | resetting every listed item clears the marker of every stored item and changes nothing else |
| Inventory.Finished | src/firestoreAPI.js:95-98 | finishing sets the status to completed and completedAt to the timestamp, and keeps startedAt and startedBy |
| Inventory.FinishTwice | src/firestoreAPI.js:92-99 | finishing twice equals finishing once at the later timestamp; the status stays completed |
| FirestoreApi.Store.GetAllInventoryItems | src/firestoreAPI.js:25-35 | the nested collection and document loops return exactly the ordered listing of all items, or fail |
| FirestoreApi.Store.FindInventoryItemById | src/firestoreAPI.js:37-45 | the result is the lookup of the id in the current listing, including the null and not-found cases |
| FirestoreApi.Store.UpdateStockCount | src/firestoreAPI.js:47-54 | sets currentStock, lastCountedAt (now) and the session marker on the one addressed item and changes nothing else; a missing document or failed write changes nothing |
| FirestoreApi.Store.GetActiveStockTakeSession | src/firestoreAPI.js:58-66 | null when no session is in progress, otherwise the first in-progress session with its id |
| FirestoreApi.Store.StartNewStockTakeSession | src/firestoreAPI.js:68-90 | no signed-in user means failure with no change; otherwise all marker resets and a fresh in-progress session by the user take effect together, or nothing does; other sessions are untouched |
| FirestoreApi.QueueMarkerResets | src/firestoreAPI.js:74-77 | the batch loop queues one marker reset per fetched item, in order |
| FirestoreApi.StartLeavesNoMarkers | src/firestoreAPI.js:72-89 | after a successful start no stored item carries a session marker, and every other item field is unchanged |
| FirestoreApi.SessionAdded | src/firestoreAPI.js:85-86 | the new session's id is fresh, and the session order with its ids stays consistent |
| FirestoreApi.Store.FinishStockTakeSession | src/firestoreAPI.js:92-99 | a null id is a no-op; otherwise only that session's status and completedAt change; a missing session or failed write changes nothing |
| Checklist.Keep | src/components/ChecklistScreen.jsx:31-36 | a filter keeps exactly the elements that satisfy its predicate |
| Checklist.KeepIsSubsequence | src/components/ChecklistScreen.jsx:31-36 | a filter keeps the original order |
| Checklist.KeepCounts | src/components/ChecklistScreen.jsx:31-36 | a filter keeps every occurrence of an element that passes and none of one that fails |
| Checklist.KeepComplementLength | src/components/ChecklistScreen.jsx:35-36 | two complementary filters split the list's length between them |
| Checklist.Lower | src/components/ChecklistScreen.jsx:29-31 | lower-casing keeps the length |
| Checklist.FilteredSpec | src/components/ChecklistScreen.jsx:29-32 | an empty term keeps every item; otherwise exactly the items whose lower-cased name contains the lower-cased term, in order, each as often as in the list |
| Checklist.PartitionSpec | src/components/ChecklistScreen.jsx:34-37 | remaining holds exactly the items whose marker differs from the session, completed exactly those whose marker equals it; they are disjoint, ordered and their lengths add up to the filtered length |
| Checklist.CountedItemIsCompleted | src/components/ChecklistScreen.jsx:30-36 | an item counted in this session that passes the search is listed as completed and not as remaining |
| Checklist.ProgressBounds | src/components/ChecklistScreen.jsx:55 | progress is 0 with no items, lies between 0 and 100, and is 100 exactly when everything is counted |
| Checklist.ChecklistProgressBounds | src/components/ChecklistScreen.jsx:55 | with the filtered completed count over the unfiltered total, progress still lies between 0 and 100 |
| Checklist.DisplayedItemsMatchTab | src/components/ChecklistScreen.jsx:60 | the remaining tab shows the remaining items and the completed tab shows the completed items |
| Checklist.SortByName | src/components/ChecklistScreen.jsx:17 | the in-place sort leaves the array ordered by name and a permutation of its input |
| Checklist.InsertIntoSorted | src/components/ChecklistScreen.jsx:17 | inserting the next element makes the prefix through it sorted, keeps the array a permutation and leaves the elements after it untouched |
| Checklist.SwapWithPrevious | src/components/ChecklistScreen.jsx:17 | one exchange of neighbours, a permutation |
| Checklist.ChecklistScreen.constructor | src/components/ChecklistScreen.jsx:6-10 | the screen starts with no items, loading, no error, the remaining tab and an empty search |
| Checklist.ChecklistScreen.FetchItems | src/components/ChecklistScreen.jsx:12-26 | on success the items are the fetched list sorted by name; on failure the error message is set; loading is false either way |
| Checklist.ChecklistScreen.HandleFinish | src/components/ChecklistScreen.jsx:40-53 | the prompt quotes the remaining count, or is plain when none remain; declining does nothing; confirming finishes the session and then calls onFinish; a failed finish leaves loading on and skips onFinish; a successful finish changes only that session and the clock |
| Counting.DigitRun | src/components/CountingModal.jsx:40 | the length of the leading run of digits |
| Counting.NatToString | src/components/CountingModal.jsx:40 | a decimal numeral of at least one digit |
| Counting.DigitsValueOfNumeral | src/components/CountingModal.jsx:40 | reading a numeral's digits gives back its value |
| Counting.ParseNumeral | src/components/CountingModal.jsx:16 | parseInt and parseFloat read back a numeral they are given, with or without a minus sign |
| Counting.Round | src/components/CountingModal.jsx:21 | rounding lands within one half of its argument (ties go up) |
| Counting.WeightQuantity | src/components/CountingModal.jsx:16-22 | the result is Invalid exactly when the unit weight is not positive, the total is not a number or the total is below the tare; otherwise it is the rounded net weight per unit, which is not negative |
| Counting.WeightExamples | src/components/CountingModal.jsx:19-21 | unit 10 and tare 50 give 50 for a total of 550 and Invalid for a total of 40; unit 0 gives Invalid |
| Counting.CalculatedQuantity | src/components/CountingModal.jsx:14-23 | no quantity unless the item is weighed and the input is not empty; Invalid exactly under the weight rule's conditions with missing weights read as 0; otherwise the rounded net weight per unit, which is not negative |
| Counting.Validate | src/components/CountingModal.jsx:26-47 | empty input gives no value; weighed items are accepted exactly when the quantity is a number that is not negative; counted items are accepted exactly when parseInt gives a number that is not negative; an accepted count is not negative |
| Counting.ValidateExamples | src/components/CountingModal.jsx:26-47 | "232" on a counted item is accepted as 232; a total of "550" with tare 50 and unit 10 is accepted as 50 |
| Counting.CountingModal.constructor | src/components/CountingModal.jsx:7-9 | the dialog starts not loading, with no error and an empty input |
| Counting.CountingModal.HandleUpdateStock | src/components/CountingModal.jsx:25-58 | empty input alerts with no state change or write; each rejection sets its message with no write; an accepted value is written with the item's collection, id and the session; commit clears the error; loading is off on every exit after the first check; a commit changes only that item and the clock |
| AppState.ScanEffect | src/App.jsx:54-70 | verify mode with a matching text marks the selection verified and keeps its item; a mismatch keeps the selection; otherwise a found item becomes the unverified selection, a null result clears it and a failure keeps it |
| AppState.VerifiedOnlyByExpectedScan | src/App.jsx:56-58 | a scan newly verifies a selection only in verify mode with the expected id decoded, and keeps the item |
| AppState.IntendedVerifyGate | src/App.jsx:56-58 | with the context requested for the current selection, it ends up verified exactly when it already was or its own id is scanned |
| AppState.App.constructor | src/App.jsx:23-33 | not ready, no error, session view, no session, no selection, not scanning, refresh key 0, general context, no scanner object |
| AppState.App.CurrentScreen | src/App.jsx:119-129 | the initializing message exactly while not ready; the error only when ready; the checklist only when ready, error-free and in the checklist view; when ready with an error, the error screen |
| AppState.App.IntendedScreen | src/App.jsx:119-129 | the error is shown whenever there is one; the initializing message only while not ready and error-free |
| AppState.App.AuthenticateApp | src/App.jsx:35-52 | a signed-in user makes the app ready; a failure records the error message; nothing else changes |
| AppState.App.StopScanner | src/App.jsx:88-93 | the camera is off and the scanner hidden whatever the state was, so a second call changes nothing; nothing else changes |
| AppState.App.StartScanner | src/App.jsx:72-86 | records the context; creates the scanner object at most once; a started camera runs the handler with the previous context; a failed start ends with the scanner hidden |
| AppState.App.RequestVerifyScan | src/App.jsx:147 | a verify request carries the selected item's id; the scanner object exists afterwards |
| AppState.App.RequestChecklistScan | src/App.jsx:125 | the checklist's scan request records its click event as the context; the scanner object exists afterwards |
| AppState.App.OnScanSuccess | src/App.jsx:54-70 | the scanner stops, and the selection becomes the scan effect under the context the running handler captured; the scanner object is kept |
| AppState.App.OnScanSuccessIntended | src/App.jsx:54-70 | the scanner stops, and the selection becomes the scan effect under the recorded context; the scanner object is kept |
| AppState.App.HandleDecoded | src/App.jsx:55-69 | for a given context, the scanner stops and the selection becomes the scan effect; the scanner object is kept |
| AppState.App.SelectItem | src/App.jsx:125 | tapping a listed item selects it, unverified |
| AppState.App.EnterValue | src/components/CountingModal.jsx:70-88 | the value field takes input only for a verified selection |
| AppState.App.PressUpdateStock | src/components/CountingModal.jsx:70-94 | with no verified selection nothing happens; a verified selection with an accepted value, a reachable store and an existing document commits; a commit writes the validated count into the selected item with the active session, then closes the dialog and bumps the refresh key; any other outcome leaves the store and the selection; a commit changes no session and no other item; the scanner state is kept; each rejection or failed write leaves its message in the dialog with loading off and the input kept; a commit resets the dialog |
| AppState.App.HandleModalClose | src/App.jsx:112-117 | the selection is always cleared and the dialog reset; the refresh key goes up by one exactly when a count was written |
| AppState.App.HandleStartNewSession | src/App.jsx:95-99 | a successful start makes the fresh session active and opens the checklist with every marker cleared; a failed start changes nothing; the new id joins the end of the session order; the scanner state is kept |
| AppState.App.HandleContinueSession | src/App.jsx:101-104 | the given session becomes active and the checklist opens; the scanner state is kept |
| AppState.App.HandleFinishSession | src/App.jsx:106-110 | after a successful finish there is no active session and the session view is back; a failed finish changes nothing; a successful finish changes only that session and the clock; the scanner state is kept |
| AppState.App.FinishFromChecklist | src/components/ChecklistScreen.jsx:40-53 | finishing from the checklist completes the session twice: its completedAt is the second timestamp, the clock moves by two, and the app returns to the session view; if only the second finish fails, the session is completed once and the app stays on the checklist; if the first finish fails, or the session is missing, the store and the view are unchanged; with no active session the app returns to the session view; the scanner state is kept; the checklist's list, search, tab and error are kept; its loading flag stays on after a failed first finish and is off after a successful one |
| AppState.WrongItemVerifiedScenario | src/App.jsx:54-81 | select a, ask to verify, cancel, close; select b, ask to verify, scan a's code: b is verified |
| AppState.WrongItemRejectedScenario | src/App.jsx:54-81 | the same steps with the intended handler leave b unverified |
| AppState.FirstVerifyScanScenario | src/App.jsx:54-81 | the first verification scan after start-up runs a general lookup and never verifies |
| AppState.FirstVerifyScanIntendedScenario | src/App.jsx:54-81 | with the intended handler the first verification scan of the item's own code verifies it |
| AppState.FailedSignInScenario | src/App.jsx:119-121 | after a failed sign-in the screen stays on the initializing message |
| AppState.FailedSignInIntendedScenario | src/App.jsx:119-121 | with the intended gate a failed sign-in shows its error message |

## Left out

- Firestore, Firebase Auth and html5-qrcode are foreign code. The store is an in-memory map with one listing per collection and a tick clock for `serverTimestamp`. Each round trip takes a boolean saying whether it goes through. Sign-in is an `Option<User>` input. The camera is a boolean: whether it starts. Decoded text is an input.
- `authenticateScanner` in src/firestoreAPI.js:6-20 is not called by the app, which signs in by itself. It is not modelled.
- Document ids from `doc(sessionsCollection)` are random. They are modelled as a counter that yields a fresh natural number. Sessions come back from the status query in creation order; the real query order is up to the backend.
- The order within a collection's snapshot is the store's `listing` field, which the backend decides.
- Checklist.SortByName: `localeCompare` is abstract. It is a total preorder on names, passed as a parameter. The sort is not claimed to be stable, although the real sort is.
- Checklist.Lower: lower-casing is ASCII only. `toLowerCase` also folds non-ASCII letters.
- Counting.ParseInt and Counting.ParseFloat: these model `parseInt(s, 10)` and `parseFloat(s)` on an optional sign followed by digits (and, for the float, one optional fraction). Leading whitespace, exponents and "Infinity" are not modelled. A leading dot is handled: `ParseFloat` reads ".5" as 0.5 and `ParseInt` finds no number in it. JS floating point becomes exact reals, and NaN becomes "no number".
- Progress is an exact real, not a float.
- React's render cycle, effect scheduling, StrictMode double effects and concurrent handlers are not modelled. Handlers run one at a time. The checklist's remount on `refreshKey` is left out, and the fetch is a separate operation (`FetchItems`).
- `alert` and `window.confirm` are no-ops or boolean inputs.
- SessionScreen (src/components/SessionScreen.jsx) is display-only and is not part of this model. Its two buttons correspond to `HandleStartNewSession` and `HandleContinueSession`.
- AppState.App.StartScanner: a start while the camera is already on is modelled as a rejected start, which ends in `stopScanner`. The library's own handling of a second start is not modelled.
- AppState.App.OnScanSuccess: with no selection, a matching verify scan keeps the selection absent. The source would build `{ isVerified: true }` from a null selection.
- Inventory.Tagged, FirestoreApi.Store.GetAllInventoryItems, FirestoreApi.Store.FindInventoryItemById and FirestoreApi.Store.StartNewStockTakeSession: an item's `collection` and `id` are always the collection name and the document id. In the source a document field named `collection` or `id` would override them, because the document data is spread after them. That would also change lookups by id and the references the start batch updates.
- AppState.App.HandleStartNewSession and AppState.App.HandleFinishSession: a rejected store call is a `Failure` result with no state change. In the source the promise rejection escapes the handler unhandled.
- FirestoreApi.Store.UpdateStockCount: `undefined` and `null` session markers are the same `None`.

## Findings

| source | as written | input that shows it | evidently intended | confidence | as-written member | corrected member |
|---|---|---|---|---|---|---|
| src/App.jsx:54-81 | the scan handler registered by `startScanner` reads the scan context from before `setScanContext`, so it uses the previous request's context | select item a and ask to verify it; cancel the scan and close the dialog; select item b, ask to verify it and scan a's code: b is marked verified | a verification scan accepts only the code of the selected item | not executed | AppState.WrongItemVerifiedScenario | AppState.WrongItemRejectedScenario |
| src/App.jsx:54-81 | for the same reason, the first verification after start-up runs a general lookup | select item a, ask to verify it and scan a's code: a is selected again, unverified | scanning the selected item's own code verifies it | not executed | AppState.FirstVerifyScanScenario | AppState.FirstVerifyScanIntendedScenario |
| src/App.jsx:119-121 | readiness is checked before the error, and a failed sign-in never sets ready, so the error is never displayed | sign-in fails: the screen stays on "Initializing Workshop App..." | a failed sign-in shows the authentication error message | not executed | AppState.FailedSignInScenario | AppState.FailedSignInIntendedScenario |
