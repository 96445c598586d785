# Photobook order processing — a Dafny model

This project models the order-processing core of the Photobook iOS app. It
covers four parts:

- **`OrderProcessing`** (`order_processing.dfy`) models the order manager,
  which processes one order at a time. The order is persisted while it runs.
  The manager:
  - uploads the order's assets in the background;
  - records each upload URL on every asset still to upload (per `assetsToUpload()`) that has the uploaded identifier;
  - then requests a PDF, submits the order and polls for success.

  A cancel can overtake every stage. The collaborators are the environment:
  the asset loader, the uploader, the PDF service, the commerce backend and
  the transfer cancellation. They answer by calling the event methods. Every
  delegate callback, cancel completion and request to a collaborator is
  appended to a ghost `log`. `order_scenarios.dfy` drives whole runs through
  these methods: a fan-out over a shared identifier, a successful run, the last
  cancel winning, a cancel overtaking the PDF stage, a resume after relaunch,
  and a foreign notification. Two more runs sit beside the classes they
  drive: `Clients.HandlerCalledOnce` (the relaunch completion handler runs
  once however many times the session finishes its events) and
  `OrderSummaries.RefusedSelectionRollsBack` (a refused toggle restores the
  selection).
- **`Clients`** (`clients.dfy`) models the network client. Its pure part covers:
  - the base URLs;
  - the PNG/JPEG choice by file name;
  - the multipart upload file, and the proof that the image can be read back
    out of it;
  - the classification of transport errors;
  - the rendering of GET query items.

  Its stateful part is the table from background task ids to references. Uploads
  fill the table and completions drain it. The table is saved to a file, or the
  file is removed when the table is empty. The part also keeps the completion
  handler the system hands over on relaunch, which is called once.
- **`OrderSummaries`** (`order_summaries.dfy`) models the order-summary manager:
  - it updates the selected upsell options optimistically and rolls them back
    when the backend refuses the selection;
  - it takes the summary and upsell options from the backend;
  - it tracks the cover upload, and the preview becomes ready once both a
    summary and a cover URL exist.
- **`Pricing`** (`pricing.dfy`) models price parsing. There are two parses:
  - from a currency-to-amount dictionary: the locale currency first, else GBP;
  - from a list of `currency`/`amount` dictionaries: the first dictionary in
    the locale currency, else the first dictionary.

  The failable constructor fails exactly when formatting fails.

Abstract values stay abstract. `Double`, `Decimal`, upsell options, summaries,
payloads and images are uninterpreted types. The locale's currency, the
`Decimal(Double)` conversion and the currency formatter are fields of an
environment value. UTF-8 encoding, `Order.assetsToUpload()` and
`Order.remainingAssetsToUpload()` are function-valued parameters. The scratch
file write is too: for a file name it gives a URL, or none when the write fails.

Some behaviours of the code that a reader might not expect, all modelled as
written:
- **Polling.** `pollOrderSuccess` is a stub that succeeds at once
  (`Photobook/Model/Order/OrderManager.swift:297-300`); there is no retry
  loop. So `SubmitResult` goes straight to `PollCompleted(None)`.
- **Failed stages keep the order.** Every PDF, submission and poll failure
  only reports its error and keeps the processing order; none clears it. A client parsing
  error during an upload reports `.upload` and does not cancel.
- **The basket order is submitted.** The code submits the basket order, not the
  processing order, and stores the returned id on the basket order
  (`OrderManager.swift:105-106`).
- **A cancel can fire twice.** When nothing is processing, `cancelProcessing`
  runs the completion at once and then goes on (no `return`, lines 199-201).
  The completion stays stored and runs again when the cancel is acknowledged.
  `OrderScenarios.CancelWithNothingProcessing` exhibits this.
- **The parsing failure at line 338.** It passes the bare `parsing` case, which
  has an associated `details` string. It is modelled as `Parsing("")`.
- **Two prefixes.** The order manager's reference prefix (defined by the
  photobook API manager, which is not part of this model) is a constructor
  parameter. The client adds its own constant prefix at `APIClient.swift:355`.
  The two files are modelled separately and not composed, because the call at
  `OrderManager.swift:312` matches none of the client's `uploadImage`
  signatures.

## Model

| member | source | states |
|---|---|---|
| Pricing.MakePrice | Photobook/Model/Order/Price.swift:19-28 | A price exists exactly when the formatter renders the value in that currency. It then holds exactly the given currency code and value, and the rendered string. |
| Pricing.ParseDictionary | Photobook/Model/Order/Price.swift:31-47 | The parse fails when some value is not a number. With an entry for the locale currency, the price uses that currency and the converted amount. Otherwise it uses GBP when present, and fails when neither is present. |
| Pricing.FirstWithCurrency | Photobook/Model/Order/Price.swift:53-59 | Returns the index of the first dictionary whose `currency` is the given code, and none exactly when no dictionary has it. |
| Pricing.RelevantDictionary | Photobook/Model/Order/Price.swift:51-60 | None exactly for an empty list. Otherwise the first dictionary in the locale currency, or the first dictionary when there is none or no locale currency. |
| Pricing.PriceOf | Photobook/Model/Order/Price.swift:62-66 | Fails when the chosen dictionary lacks a string `currency` or a number `amount`, with no fallback to another dictionary. Otherwise it is exactly the price `MakePrice` builds from that currency and the converted amount. |
| Pricing.ParseDictionaries | Photobook/Model/Order/Price.swift:49-67 | The search loop with its early exit computes the price of the relevant dictionary. |
| Clients.BaseURLString | Photobook/Model/Clients/APIClient.swift:65-72 | Only the empty context has an empty base URL. Every other URL is HTTPS. |
| Clients.Lowercased | Photobook/Model/Clients/APIClient.swift:163 | Lower-cases a string character by character, keeping its length. |
| Clients.PngSuffix | Photobook/Model/Clients/APIClient.swift:163 | Ending in `.png` means exactly that the last four characters are `.`, `p`, `n`, `g`. |
| Clients.ImageTypeFor | Photobook/Model/Clients/APIClient.swift:162-167 | PNG exactly when the last four characters read `.png` ignoring case; JPEG otherwise. |
| Clients.MultipartHeader | Photobook/Model/Clients/APIClient.swift:121-124 | The header opens with the boundary line, followed at once by the content-disposition line naming the file as `<imageName>.<type>`, and ends with the content-type line for the same image type and a blank line; its length is exactly the three lines'. |
| Clients.MultipartHeaderNamesFile | Photobook/Model/Clients/APIClient.swift:123 | The file name, a dot and the image type are read back from the header at fixed offsets after the boundary. |
| Clients.MultipartFooter | Photobook/Model/Clients/APIClient.swift:127 | The footer is a line break, the header's boundary marker `--<boundary>`, and the closing `--` with a line break. |
| Clients.MultipartFile | Photobook/Model/Clients/APIClient.swift:121-133 | The file is the encoded header, then exactly the image bytes, then the encoded closing boundary, and its length is the sum of the three. |
| Clients.MultipartImageOfFile | Photobook/Model/Clients/APIClient.swift:121-133 | The image bytes are read back unchanged from the file built around them. |
| Clients.ClassifyTransportError | Photobook/Model/Clients/APIClient.swift:257-268 | A connection error exactly for codes in [-1200, -998) other than -1011. Bad server response (-1011) is server error 500 with an empty message. Any other code is a server error carrying the code and description. |
| Clients.BadServerResponseWinsOverConnection | Photobook/Model/Clients/APIClient.swift:260-264 | -1011 lies inside the connection range, yet the earlier case wins and it is reported as server error 500. |
| Clients.DigitChar | Photobook/Model/Clients/APIClient.swift:232 | A digit value renders as a decimal digit character. |
| Clients.NatDigits | Photobook/Model/Clients/APIClient.swift:232 | A natural number renders as a non-empty string of decimal digits. |
| Clients.DigitsValueOfNatDigits | Photobook/Model/Clients/APIClient.swift:232 | The digits of a natural number denote that number. |
| Clients.DecimalString | Photobook/Model/Clients/APIClient.swift:231-232 | `String(_: Int)` is non-empty, starts with a minus sign exactly for a negative value, and is otherwise all digits. |
| Clients.ParseDecimalOfDecimalString | Photobook/Model/Clients/APIClient.swift:231-232 | The decimal rendering of an integer query value, sign included, reads back as that integer. |
| Clients.ReadBackNatural | Photobook/Model/Clients/APIClient.swift:232 | The digits of a natural number read back as that number. |
| Clients.ReadBackNegative | Photobook/Model/Clients/APIClient.swift:232 | A minus sign followed by the digits of a number reads back as its negation. |
| Clients.QueryItems | Photobook/Model/Clients/APIClient.swift:224-241 | A request fails exactly when some parameter is neither a string nor an integer. Otherwise there is one query item per parameter, in order: same name, string value as is, integer value in decimal. |
| Clients.PersistedTable | Photobook/Model/Clients/APIClient.swift:182-192 | No file exactly when the table is empty; otherwise the file holds the table. |
| Clients.APIClient.constructor | Photobook/Model/Clients/APIClient.swift:103-108 | On launch the table is whatever the file held, or empty without a file. |
| Clients.APIClient.SavePendingTasks | Photobook/Model/Clients/APIClient.swift:182-198 | After saving, the file reflects the table: removed when the table is empty, holding it otherwise. |
| Clients.APIClient.UploadImage | Photobook/Model/Clients/APIClient.swift:343-360 | One upload task goes to the image upload URL, with boundary `Boundary-<uuid>` and the multipart file. A reference enters the table under the task id with the client prefix, and the table is saved. Without a reference, the table and file are untouched. All stored references stay prefixed. |
| Clients.APIClient.DidReceiveData | Photobook/Model/Clients/APIClient.swift:414-431 | A body that is not a dictionary posts a notification without user info. Otherwise the task's entry, if any, is consumed and added as `task_reference`, and the dictionary is posted. |
| Clients.APIClient.DidCompleteWithError | Photobook/Model/Clients/APIClient.swift:433-450 | Only failures of a session with an identifier are handled. The entry is consumed and a server error with the code and description is posted, with the reference when there was one. |
| Clients.APIClient.RecreateBackgroundSession | Photobook/Model/Clients/APIClient.swift:174-179 | The system's completion handler is kept and the background session exists. |
| Clients.APIClient.DidFinishEvents | Photobook/Model/Clients/APIClient.swift:407-412 | A stored handler is called exactly once and dropped; with none, nothing is called. |
| OrderProcessing.WithIdentifier | Photobook/Model/Order/OrderManager.swift:344 | Keeps exactly the assets with the given identifier. |
| OrderProcessing.NotUploaded | Photobook/Model/Order/OrderManager.swift:350-358 | Keeps exactly the assets without an upload URL. This is the definition of `remainingAssetsToUpload()` under which `TransferFinished` proves that a recorded upload never leaves more assets remaining; `Order.remainingAssetsToUpload()` itself is not part of this model. |
| OrderProcessing.RespondToFailure | Photobook/Model/Order/OrderManager.swift:364-390 | The failure policy, each case as an if-and-only-if. A scratch-file failure is a status update and then `.upload`. Missing photobook info or unbuildable parameters cancel the run. Another photobook API error reports `.cancelled` without cancelling. A client error reports `.upload`. Anything else is dropped. |
| OrderProcessing.ClassifyUploadEvent | Photobook/Model/Order/OrderManager.swift:319-347 | Ignored exactly without user info or with a reference lacking the prefix. Then an error payload is that client error, and a missing reference or URL is a parsing failure. A success carries the identifier whose prefixed form is the reference, and the URL. |
| OrderProcessing.IssuedReferenceResolves | Photobook/Model/Order/OrderManager.swift:328-342 | A reference issued as prefix + identifier resolves back to that identifier and the reported URL. |
| OrderProcessing.SetUploadUrls | Photobook/Model/Order/OrderManager.swift:350-353 | Position by position, an asset gets the URL exactly when it is one of the selected assets; the others are unchanged. |
| OrderProcessing.RecordingUploadsShrinksNotUploaded | Photobook/Model/Order/OrderManager.swift:350-358 | Recording URLs never increases the number of assets awaiting upload, and the selected ones no longer await it. |
| OrderProcessing.RecordedUploadShrinksNotUploaded | Photobook/Model/Order/OrderManager.swift:344-358 | After an upload is recorded on an order, no more of its assets await upload than before, and every asset to upload with that identifier has the URL. |
| OrderProcessing.OrderManager.RecoverableIsTheFile | Photobook/Model/Order/OrderManager.swift:48-74 | Under the invariant that the in-memory order is the stored one, whether an order is processing is decided by the file. |
| OrderProcessing.OrderManager.constructor | Photobook/Model/Order/OrderManager.swift:42-57 | At launch nothing is in memory, the file is as the last run left it, and the invariant holds. |
| OrderProcessing.OrderManager.SetProcessingOrder | Photobook/Model/Order/OrderManager.swift:48-57 | Setting nil removes the processing-order file; setting an order stores it there. |
| OrderProcessing.OrderManager.SaveProcessingOrder | Photobook/Model/Order/OrderManager.swift:143-147 | Stores the processing order when there is one; otherwise leaves the file alone. |
| OrderProcessing.OrderManager.LoadProcessingOrder | Photobook/Model/Order/OrderManager.swift:153-165 | Loads exactly when the file holds a readable order. A loaded order becomes the processing order and the background session is recreated. |
| OrderProcessing.OrderManager.IsCancelling | Photobook/Model/Order/OrderManager.swift:59-62 | Cancelling means a cancel completion is stored; under the invariant a transfer-cancel acknowledgement is then outstanding. |
| OrderProcessing.OrderManager.IsProcessingOrder | Photobook/Model/Order/OrderManager.swift:64-74 | True exactly when an order is in memory or loadable, which under the invariant is exactly when the file holds an order; that order is then in memory. |
| OrderProcessing.OrderManager.StartProcessing | Photobook/Model/Order/OrderManager.swift:192-196 | With an order processing or recoverable, it only resumes that order. Otherwise the order is processed and persisted, and exactly one image-data request is made per asset to upload, in order. |
| OrderProcessing.OrderManager.UploadAssets | Photobook/Model/Order/OrderManager.swift:217-228 | One upload begins per asset to upload, in order. |
| OrderProcessing.OrderManager.UploadAsset | Photobook/Model/Order/OrderManager.swift:304-305 | Requests the asset's image data. |
| OrderProcessing.OrderManager.AssetDataLoaded | Photobook/Model/Order/OrderManager.swift:305-316 | A load error, no data or an unsupported extension is handled as missing photobook info. A failed scratch save is handled as a scratch-file failure. A saved file is uploaded under prefix + identifier, with nothing else changing. |
| OrderProcessing.OrderManager.CancelProcessing | Photobook/Model/Order/OrderManager.swift:198-208 | With a cancel pending, it only replaces the stored completion and starts no second transfer cancel. Otherwise it stores the completion and requests one. With nothing processing, the completion also runs at once. |
| OrderProcessing.OrderManager.CancelAcknowledged | Photobook/Model/Order/OrderManager.swift:209-213 | The order and its file are cleared, the latest completion runs exactly once, and no cancel is pending afterwards. |
| OrderProcessing.OrderManager.CompletePendingCancel | Photobook/Model/Order/OrderManager.swift:241-246 | A cancel found pending by a stage clears the order and file, runs its completion once and resets it. |
| OrderProcessing.OrderManager.DidFailUpload | Photobook/Model/Order/OrderManager.swift:364-390 | With no order processing nothing happens. Otherwise the callbacks, the cancel and the transfer-cancel request are exactly those the failure policy prescribes, and the order is kept. |
| OrderProcessing.OrderManager.TransferFinished | Photobook/Model/Order/OrderManager.swift:319-362 | Ignored events change nothing. Failures go to the failure handler, and an unknown identifier is missing photobook info. A success records the URL on every asset to upload that has the identifier and on nothing else (`RecordedUpload`), reports a status update and persists the order. It then announces the finish and requests the PDF exactly when nothing remains to upload and there is a current product. When the remaining assets are those lacking a URL, a recorded upload never leaves more of them remaining. |
| OrderProcessing.OrderManager.FinishOrder | Photobook/Model/Order/OrderManager.swift:230-239 | With a current product, it announces the finish once and requests the PDF; without one, it does nothing. |
| OrderProcessing.OrderManager.PdfResult | Photobook/Model/Order/OrderManager.swift:239-256 | A pending cancel wins and nothing is reported to the delegate. No URLs reports `.pdf` and keeps the order. URLs submit the basket order. |
| OrderProcessing.OrderManager.SubmitOrder | Photobook/Model/Order/OrderManager.swift:98-109 | Submits the basket order, however the PDF URLs read. |
| OrderProcessing.OrderManager.SubmitResult | Photobook/Model/Order/OrderManager.swift:256-273 | The basket order takes the returned id. Then a pending cancel wins; an error reports `.submission` and keeps the order; otherwise the stubbed poll succeeds, clearing the order and reporting completion without error. |
| OrderProcessing.OrderManager.PollOrderSuccess | Photobook/Model/Order/OrderManager.swift:297-300 | The poll always succeeds at once. |
| OrderProcessing.OrderManager.PollCompleted | Photobook/Model/Order/OrderManager.swift:273-292 | A pending cancel wins. An error reports `.payment` and keeps the order. Only success clears the order and its file and reports completion without error. |
| OrderSummaries.MessageFor | Photobook/Model/Order/OrderSummaryManager.swift:120 | The error message carries the reported error, or the generic client error when none was reported. |
| OrderSummaries.Toggled | Photobook/Model/Order/OrderSummaryManager.swift:75-81 | Toggling flips membership of that option and keeps every other option's. |
| OrderSummaries.RolledBack | Photobook/Model/Order/OrderSummaryManager.swift:85-96 | A rollback removes or reinserts exactly its option and keeps the rest. |
| OrderSummaries.ToggleThenFailureRestores | Photobook/Model/Order/OrderSummaryManager.swift:83-97 | A toggle whose apply fails leaves the selection as it was. |
| OrderSummaries.ToggleTwice | Photobook/Model/Order/OrderSummaryManager.swift:75-81 | Toggling the same option twice restores the selection. |
| OrderSummaries.FirstTemplate | Photobook/Model/Order/OrderSummaryManager.swift:149 | Returns the index of the first template with the id, and none exactly when no template has it. |
| OrderSummaries.ClassifyApplyResponse | Photobook/Model/Order/OrderSummaryManager.swift:138-154 | Applied exactly when a summary and a template id came back and the id names a known template, and then with the first such template. A missing summary or id fails with the reported error or a generic one. An unknown id or no templates fails with a generic error. |
| OrderSummaries.OrderSummaryManager.constructor | Photobook/Model/Order/OrderSummaryManager.swift:48-65 | A new manager has no options, no summary and an empty selection, and is not uploading. |
| OrderSummaries.OrderSummaryManager.GetSummary | Photobook/Model/Order/OrderSummaryManager.swift:67-73 | With no upsell options, or an empty list of them, it clears the summary and fetches. Otherwise it re-applies the selection without a rollback. |
| OrderSummaries.OrderSummaryManager.IsUpsellOptionSelected | Photobook/Model/Order/OrderSummaryManager.swift:99-101 | An option is selected exactly when it is in the selection, which is exactly when toggling it would take it out. |
| OrderSummaries.OrderSummaryManager.IsPreviewImageUrlReady | Photobook/Model/Order/OrderSummaryManager.swift:206-208 | The preview is ready exactly when both a cover URL and a summary exist. |
| OrderSummaries.OrderSummaryManager.ToggleUpsellOption | Photobook/Model/Order/OrderSummaryManager.swift:75-81 | Selects exactly when the option is not selected and deselects otherwise, registering the matching rollback. |
| OrderSummaries.OrderSummaryManager.SelectUpsellOption | Photobook/Model/Order/OrderSummaryManager.swift:83-89 | Inserts the option and applies the selection, registering removal as the rollback. |
| OrderSummaries.OrderSummaryManager.DeselectUpsellOption | Photobook/Model/Order/OrderSummaryManager.swift:91-97 | Removes the option and applies the selection, registering reinsertion as the rollback. |
| OrderSummaries.OrderSummaryManager.ApplyUpsells | Photobook/Model/Order/OrderSummaryManager.swift:132-135 | Reports the coming update and sends the current selection. |
| OrderSummaries.OrderSummaryManager.ApplyResponse | Photobook/Model/Order/OrderSummaryManager.swift:135-158 | On success the product takes the upsold template and payload and the summary is received. On failure the selection is rolled back and the failure is reported with that option and message; summary and upsell data do not change. |
| OrderSummaries.OrderSummaryManager.FetchOrderSummary | Photobook/Model/Order/OrderSummaryManager.swift:108-113 | Reports the coming update, clears the summary and requests it. |
| OrderSummaries.OrderSummaryManager.FetchResponse | Photobook/Model/Order/OrderSummaryManager.swift:113-129 | Without a summary, the error or a generic one is reported and nothing else changes. With one, the product's template and payload are set, the options are stored and the summary is received. |
| OrderSummaries.OrderSummaryManager.HandleReceivingSummary | Photobook/Model/Order/OrderSummaryManager.swift:161-167 | Stores and reports the summary. The preview is reported exactly when it is ready, which is when a cover URL exists. |
| OrderSummaries.OrderSummaryManager.SetCoverPageSnapshotImage | Photobook/Model/Order/OrderSummaryManager.swift:42-47 | The snapshot goes to the product and is uploaded; with none, the preview fails at once. |
| OrderSummaries.OrderSummaryManager.UploadCoverImage | Photobook/Model/Order/OrderSummaryManager.swift:183-191 | With no snapshot, it reports failure and changes nothing else. Otherwise it marks the cover uploading and requests the upload. |
| OrderSummaries.OrderSummaryManager.CoverUploadResponse | Photobook/Model/Order/OrderSummaryManager.swift:191-204 | The cover is no longer uploading. A failure is reported and keeps the URL. Otherwise the URL is stored, and the preview is reported only when it is ready. |

## Left out

- I/O and encodings are not modelled: files, keyed archiving, property-list and JSON encoding, and JPEG/PNG encoding. Files appear as their contents (`OrderFile`, the task table file), and encoding is assumed to succeed.
- Concurrency and background-session lifetime are not modelled. Asynchronous callbacks are event methods called one at a time, gated by counters of outstanding requests.
- Analytics calls and `print` diagnostics are left out; they have no effect on state.
- OrderProcessing.OrderManager.hasCurrentProduct: whether the product manager has a current product is read from shared global state each time `finishOrder` runs (`OrderManager.swift:232`); the model fixes it per manager at construction, so a product appearing or vanishing mid-run is not modelled.
- Clients.Lowercased: only ASCII letters are lower-cased. Unicode case mapping is not modelled.
- OrderProcessing.ClassifyUploadEvent: the reference's prefix test, length and suffix (`OrderManager.swift:328` and `:342`) work on Swift `Character`s, which are grapheme clusters; the model compares and slices code points. A reference whose character after the prefix is a combining mark (say `prefix + "\u0301x"`) is foreign to Swift but has its prefix stripped in the model.
- Asset identity: assets are values. The in-place update of shared asset objects is modelled as updating every position of the order whose value is one of the selected assets.
- The two other reference-taking `uploadImage` overloads (from a `UIImage` at `APIClient.swift:362-370`, from a file URL at `:372`) are left out. They only read or encode the data and then call `Clients.APIClient.UploadImage`; the encoding is I/O.
- The two completion-taking `uploadImage` overloads (`APIClient.swift:311-341`) are left out. They are a separate foreground upload path: a `URLSession.shared` task whose closure hands the parsed JSON or the error to the caller, with no reference, no entry in the task table and nothing posted. The order manager does not use that path, and what it does beyond the shared multipart file (`Clients.MultipartFile`) is JSON decoding and dispatch to the main queue.
- `cancelBackgroundTasks`, `pendingBackgroundTaskCount`, `hasPendingBackgroundTasks` and `hasPendingUploads` are not modelled: they query or cancel the session's tasks. Their effect on orders is the acknowledgement event `CancelAcknowledged`.
- The response-body handling of data tasks, and POST bodies, are left out: JSON parsing, image decoding and server error messages. Only the transport-error classification and GET query items are modelled.
- Clients.QueryItems: dictionary iteration order is unspecified in the source, so the parameters come as a sequence in whatever order the dictionary yields them. The fatal error for an unsupported type is the `None` result.
- `fetchPreviewImage` and the preview URL construction are left out. They depend on the image service, which is not part of this model.
- `loadProcessingOrder`'s optional completion handler is left out. It is called on both paths and has no effect here.
- `reset`, `saveBasketOrder` and `applyUpsellsToOrder` are left out. They concern the basket order and product templates, not processing.
- The order parameters sent on submission and the PDF request's photobook are left out. The model records which order is submitted and that a PDF was requested.
- OrderProcessing.OrderManager.TransferFinished: the user info is the posted dictionary. If the dictionary fails to cast to string keys, that is the `None` case.
