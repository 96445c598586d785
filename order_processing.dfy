/**
 * The order-processing state machine (Photobook/Model/Order/OrderManager.swift):
 * one processing order at a time, persisted while it runs, its assets uploaded
 * in the background, then a PDF, a submission and a (stubbed) status poll, with
 * a cancellation that can overtake every stage.
 *
 * Collaborators are the environment: it answers requests by calling the event
 * methods (asset data loaded, transfer finished, PDF result, submit result,
 * transfer cancel acknowledged). Delegate callbacks, cancel completions and
 * requests to collaborators are recorded, in order, in the ghost `log`.
 */
module OrderProcessing {
  import opened Wrappers
  import Clients

  datatype Asset = Asset(identifier: string, fileIdentifier: string, uploadUrl: Option<string>)

  /** An order: its assets as the products lay them out, and the id the backend assigns on submission. */
  datatype Order = Order(assets: seq<Asset>, orderId: Option<string>)

  datatype OrderProcessingError = Cancelled | Upload | Pdf | Submission | Payment | ServerError(code: int, message: string)

  /** The cases of the photobook API's error type the failure handler tells apart. */
  datatype PhotobookAPIError = MissingPhotobookInfo | CouldNotBuildCreationParameters | CouldNotSaveTempImageData | OtherPhotobookAPIError

  /** An error reaching the upload failure handler: a photobook API error, a client error, or anything else. */
  datatype UploadFailure = PhotobookAPI(photobookError: PhotobookAPIError) | APIClient(clientError: Clients.APIClientError) | OtherFailure

  datatype ErrorMessage = ErrorMessage(text: string)

  /** A cancel completion: one a caller passed in, or the one the failure handler passes, which reports `.cancelled`. */
  datatype Completion = CallerCompletion(id: nat) | ReportCancelled

  datatype FileExtension = Extension(name: string) | Unsupported

  /** What the asset loader delivers for an asset: an error flag, the bytes, and their file extension. */
  datatype ImageData = ImageData(failed: bool, data: Option<seq<Clients.byte>>, fileExtension: FileExtension)

  /** The processing-order file: absent, holding an order, or present but not decodable. */
  datatype OrderFile = NoFile | Stored(order: Order) | Unreadable

  datatype Event =
    // delegate callbacks
    | UploadStatusDidUpdate
    | OrderWillFinish
    | OrderDidComplete(error: Option<OrderProcessingError>)
    // a caller's cancel completion ran
    | CancelCompletionCalled(id: nat)
    // requests to collaborators
    | AssetDataRequested(asset: Asset)
    | UploadRequested(file: string, reference: string)
    | TransferCancelRequested
    | BackgroundSessionRecreated
    | PdfRequested
    | SubmitRequested(order: Order)

  /** What running a cancel completion shows. */
  function Called(c: Completion): Event {
    match c
    case CallerCompletion(id) => CancelCompletionCalled(id)
    case ReportCancelled => OrderDidComplete(Some(Cancelled))
  }

  /** One image-data request per asset, in order. */
  function DataRequests(assets: seq<Asset>): seq<Event> {
    seq(|assets|, k requires 0 <= k < |assets| => AssetDataRequested(assets[k]))
  }

  /** Reattaching to the background session happens when the file, not memory, supplies the order. */
  function RecoveryEvents(inMemory: Option<Order>, file: OrderFile): seq<Event> {
    if inMemory.None? && file.Stored? then [BackgroundSessionRecreated] else []
  }

  /** The scratch file an asset's bytes are saved to. */
  function ScratchFileName(asset: Asset, ext: FileExtension): string
    requires ext.Extension?
  {
    asset.fileIdentifier + "." + ext.name
  }

  /** Image data an upload can be built from: no error, bytes present, a supported extension. */
  predicate Usable(result: ImageData) {
    !result.failed && result.data.Some? && result.fileExtension.Extension?
  }

  /** The assets with the given identifier, in order. */
  function WithIdentifier(assets: seq<Asset>, identifier: string): (r: seq<Asset>)
    ensures forall a :: a in r <==> a in assets && a.identifier == identifier
  {
    if assets == [] then []
    else (if assets[0].identifier == identifier then [assets[0]] else []) + WithIdentifier(assets[1..], identifier)
  }

  /** The assets still lacking an upload URL. */
  function NotUploaded(assets: seq<Asset>): (r: seq<Asset>)
    ensures forall a :: a in r <==> a in assets && a.uploadUrl.None?
    ensures |r| <= |assets|
  {
    if assets == [] then []
    else (if assets[0].uploadUrl.None? then [assets[0]] else []) + NotUploaded(assets[1..])
  }

  // ---------------------------------------------------------------------------
  // Failure classification

  /** What the failure handler does about an error: notify an upload-status change, report an error, or cancel the run. */
  datatype FailureResponse = FailureResponse(statusUpdate: bool, report: Option<OrderProcessingError>, cancel: bool)

  /**
   * The failure policy: a scratch-file failure is an upload error after a
   * status update; missing photobook info and unbuildable parameters cancel the
   * run (which later reports `.cancelled`); another photobook API error reports
   * `.cancelled` without cancelling; a client error reports `.upload`; any other
   * error is dropped.
   */
  function RespondToFailure(e: UploadFailure): (r: FailureResponse)
    ensures r.cancel <==> e == PhotobookAPI(MissingPhotobookInfo) || e == PhotobookAPI(CouldNotBuildCreationParameters)
    ensures r.statusUpdate <==> e == PhotobookAPI(CouldNotSaveTempImageData)
    ensures r.report == Some(Upload) <==> e == PhotobookAPI(CouldNotSaveTempImageData) || e.APIClient?
    ensures r.report == Some(Cancelled) <==> e == PhotobookAPI(OtherPhotobookAPIError)
    ensures r.report.None? <==> r.cancel || e.OtherFailure?
  {
    match e
    case PhotobookAPI(CouldNotSaveTempImageData) => FailureResponse(true, Some(Upload), false)
    case PhotobookAPI(MissingPhotobookInfo) => FailureResponse(false, None, true)
    case PhotobookAPI(CouldNotBuildCreationParameters) => FailureResponse(false, None, true)
    case PhotobookAPI(OtherPhotobookAPIError) => FailureResponse(false, Some(Cancelled), false)
    case APIClient(_) => FailureResponse(false, Some(Upload), false)
    case OtherFailure => FailureResponse(false, None, false)
  }

  // ---------------------------------------------------------------------------
  // Upload notifications

  /** How an upload notification is to be handled, before the order is consulted. */
  datatype UploadEvent = Ignored | Failed(failure: UploadFailure) | Uploaded(identifier: string, url: string)

  /** A user-info entry that is a string. */
  function StringEntry(info: Clients.UserInfo, key: string): Option<string> {
    if key in info && info[key].StringValue? then Some(info[key].s) else None
  }

  predicate HasError(info: Clients.UserInfo) {
    "error" in info && info["error"].ErrorValue?
  }

  /** The notification carries a string reference that was not issued under `prefix`. */
  predicate ForeignReference(info: Clients.UserInfo, prefix: string) {
    StringEntry(info, "task_reference").Some? && !(prefix <= StringEntry(info, "task_reference").value)
  }

  /**
   * Classifies a "task finished" notification. With no user info, or a
   * reference from another uploader, it is ignored. Then an error payload is an
   * upload failure; a missing reference or `full` URL is a parsing failure;
   * otherwise the asset identifier is the reference without the prefix.
   */
  function ClassifyUploadEvent(userInfo: Option<Clients.UserInfo>, prefix: string): (r: UploadEvent)
    ensures r == Ignored <==> userInfo.None? || ForeignReference(userInfo.value, prefix)
    ensures r.Failed? ==> r.failure.APIClient?
    ensures r != Ignored && HasError(userInfo.value) ==> r == Failed(APIClient(userInfo.value["error"].error))
    ensures r != Ignored && !HasError(userInfo.value)
            && (StringEntry(userInfo.value, "task_reference").None? || StringEntry(userInfo.value, "full").None?) ==>
              r == Failed(APIClient(Clients.Parsing("")))
    ensures r.Uploaded? ==>
              !HasError(userInfo.value)
              && StringEntry(userInfo.value, "task_reference") == Some(prefix + r.identifier)
              && StringEntry(userInfo.value, "full") == Some(r.url)
  {
    if userInfo.None? then Ignored
    else
      var info := userInfo.value;
      if ForeignReference(info, prefix) then Ignored
      else if HasError(info) then Failed(APIClient(info["error"].error))
      else if StringEntry(info, "task_reference").None? || StringEntry(info, "full").None? then
        Failed(APIClient(Clients.Parsing("")))
      else
        var reference := StringEntry(info, "task_reference").value;
        assert reference == prefix + reference[|prefix|..];
        Uploaded(reference[|prefix|..], StringEntry(info, "full").value)
  }

  /** A reference issued for an asset (the prefix, then its identifier) resolves to that identifier and the reported URL. */
  lemma IssuedReferenceResolves(info: Clients.UserInfo, prefix: string, identifier: string, url: string)
    requires !HasError(info)
    requires StringEntry(info, "task_reference") == Some(prefix + identifier)
    requires StringEntry(info, "full") == Some(url)
    ensures ClassifyUploadEvent(Some(info), prefix) == Uploaded(identifier, url)
  {
    var reference := prefix + identifier;
    assert prefix <= reference;
    assert reference[|prefix|..] == identifier;
  }

  /**
   * Records `url` on every asset of `assets` that is one of `selected`, in
   * place; the others are left as they are.
   */
  method SetUploadUrls(assets: seq<Asset>, selected: seq<Asset>, url: string) returns (r: seq<Asset>)
    ensures |r| == |assets|
    ensures forall k :: 0 <= k < |assets| ==>
              r[k] == if assets[k] in selected then assets[k].(uploadUrl := Some(url)) else assets[k]
  {
    r := assets;
    var k := 0;
    while k < |r|
      invariant 0 <= k <= |r| == |assets|
      invariant forall j :: 0 <= j < k ==>
                  r[j] == if assets[j] in selected then assets[j].(uploadUrl := Some(url)) else assets[j]
      invariant r[k..] == assets[k..]
    {
      if r[k] in selected {
        r := r[k := r[k].(uploadUrl := Some(url))];
      }
      k := k + 1;
    }
  }

  /** Recording an upload never makes an asset lack its URL again: the not-uploaded assets can only become fewer. */
  lemma {:induction false} RecordingUploadsShrinksNotUploaded(assets: seq<Asset>, selected: seq<Asset>, url: string, r: seq<Asset>)
    requires |r| == |assets|
    requires forall k :: 0 <= k < |assets| ==>
               r[k] == if assets[k] in selected then assets[k].(uploadUrl := Some(url)) else assets[k]
    ensures |NotUploaded(r)| <= |NotUploaded(assets)|
    ensures forall k :: 0 <= k < |assets| && assets[k] in selected ==> r[k] !in NotUploaded(r)
  {
    if assets != [] {
      assert forall k :: 0 <= k < |assets| - 1 ==> r[1..][k] == r[k + 1] && assets[1..][k] == assets[k + 1];
      RecordingUploadsShrinksNotUploaded(assets[1..], selected, url, r[1..]);
    }
  }

  /**
   * `after` is `before` with `url` recorded on every asset that is one of
   * `toUpload` and has the identifier; nothing else differs.
   */
  predicate RecordedUpload(before: Order, after: Order, toUpload: seq<Asset>, identifier: string, url: string) {
    && after.orderId == before.orderId
    && |after.assets| == |before.assets|
    && forall k :: 0 <= k < |before.assets| ==>
         after.assets[k] == if before.assets[k] in toUpload && before.assets[k].identifier == identifier
                            then before.assets[k].(uploadUrl := Some(url)) else before.assets[k]
  }

  /** An order that had an upload recorded has no more assets awaiting upload, and every asset the upload was for has its URL. */
  lemma RecordedUploadShrinksNotUploaded(before: Order, after: Order, toUpload: seq<Asset>, identifier: string, url: string)
    requires RecordedUpload(before, after, toUpload, identifier, url)
    ensures |NotUploaded(after.assets)| <= |NotUploaded(before.assets)|
    ensures forall k :: 0 <= k < |before.assets| && before.assets[k] in toUpload && before.assets[k].identifier == identifier ==>
              after.assets[k].uploadUrl == Some(url) && after.assets[k] !in NotUploaded(after.assets)
  {
    var selected := WithIdentifier(toUpload, identifier);
    RecordingUploadsShrinksNotUploaded(before.assets, selected, url, after.assets);
  }

  class OrderManager {
    /** The prefix the manager puts in front of asset identifiers in upload references. */
    const prefix: string
    /** `Order.assetsToUpload()` */
    const assetsToUpload: Order -> seq<Asset>
    /** `Order.remainingAssetsToUpload()` */
    const remainingAssetsToUpload: Order -> seq<Asset>
    /** Whether the product manager has a current product to build the PDF from. */
    const hasCurrentProduct: bool

    var basketOrder: Order
    var processingOrder: Option<Order>
    var processingOrderFile: OrderFile
    var cancelCompletion: Option<Completion>

    /** Assets whose image data was requested and has not been delivered. */
    var pendingAssetData: seq<Asset>
    var pendingPdf: nat
    var pendingSubmit: nat
    var pendingCancelAcks: nat

    ghost var log: seq<Event>

    /**
     * A processing order in memory is always the one on disk, and a pending
     * cancel always waits for a transfer-cancel acknowledgement.
     */
    ghost predicate Valid()
      reads this
    {
      && (processingOrder.Some? ==> processingOrderFile == Stored(processingOrder.value))
      && (cancelCompletion.Some? ==> pendingCancelAcks > 0)
    }

    /** A cancel is waiting for its acknowledgement; under the invariant one is always outstanding then. */
    predicate IsCancelling(): (r: bool)
      reads this
      ensures r <==> cancelCompletion.Some?
      ensures r && Valid() ==> pendingCancelAcks > 0
    {
      cancelCompletion.Some?
    }

    /** The processing order in memory, or else the one the file holds. */
    ghost function Recoverable(): Option<Order>
      reads this
    {
      if processingOrder.Some? then processingOrder
      else if processingOrderFile.Stored? then Some(processingOrderFile.order)
      else None
    }

    /** Under the invariant, whether an order is processing is decided by the file alone. */
    lemma RecoverableIsTheFile()
      requires Valid()
      ensures Recoverable() == if processingOrderFile.Stored? then Some(processingOrderFile.order) else None
    {
    }

    /** The pending cancel ended the run in place of the stage's own continuation. */
    twostate predicate CancelWon()
      reads this
    {
      && old(cancelCompletion).Some?
      && processingOrder.None? && processingOrderFile == NoFile && cancelCompletion.None?
      && log == old(log) + [Called(old(cancelCompletion).value)]
    }

    /** What the failure handler did about `e`. */
    twostate predicate FailureHandled(e: UploadFailure)
      reads this
    {
      var response := RespondToFailure(e);
      var startsCancel := response.cancel && old(cancelCompletion).None?;
      && processingOrder == old(processingOrder) && processingOrderFile == old(processingOrderFile)
      && (old(processingOrder).None? ==>
            cancelCompletion == old(cancelCompletion) && pendingCancelAcks == old(pendingCancelAcks) && log == old(log))
      && (old(processingOrder).Some? ==>
            && log == old(log) + (if response.statusUpdate then [UploadStatusDidUpdate] else [])
                               + (if response.report.Some? then [OrderDidComplete(response.report)] else [])
                               + (if startsCancel then [TransferCancelRequested] else [])
            && cancelCompletion == (if response.cancel then Some(ReportCancelled) else old(cancelCompletion))
            && pendingCancelAcks == old(pendingCancelAcks) + (if startsCancel then 1 else 0))
    }

    /** The manager at launch: nothing in memory, the processing-order file as the last run left it. */
    constructor (prefix: string, assetsToUpload: Order -> seq<Asset>, remainingAssetsToUpload: Order -> seq<Asset>,
                 hasCurrentProduct: bool, processingOrderFile: OrderFile, basketOrder: Order)
      ensures Valid()
      ensures this.prefix == prefix && this.assetsToUpload == assetsToUpload
      ensures this.remainingAssetsToUpload == remainingAssetsToUpload && this.hasCurrentProduct == hasCurrentProduct
      ensures this.processingOrderFile == processingOrderFile && this.basketOrder == basketOrder
      ensures processingOrder.None? && cancelCompletion.None?
      ensures pendingAssetData == [] && pendingPdf == 0 && pendingSubmit == 0 && pendingCancelAcks == 0
      ensures log == []
    {
      this.prefix := prefix;
      this.assetsToUpload := assetsToUpload;
      this.remainingAssetsToUpload := remainingAssetsToUpload;
      this.hasCurrentProduct := hasCurrentProduct;
      this.processingOrderFile := processingOrderFile;
      this.basketOrder := basketOrder;
      processingOrder := None;
      cancelCompletion := None;
      pendingAssetData := [];
      pendingPdf, pendingSubmit, pendingCancelAcks := 0, 0, 0;
      log := [];
    }

    /** Assigning the processing order, with its observer: nil removes the file, an order is saved to it. */
    method SetProcessingOrder(order: Option<Order>)
      modifies this`processingOrder, this`processingOrderFile
      ensures processingOrder == order
      ensures processingOrderFile == if order.Some? then Stored(order.value) else NoFile
    {
      processingOrder := order;
      if order.None? {
        processingOrderFile := NoFile;
        return;
      }
      SaveProcessingOrder();
    }

    /** Writes the processing order, if any, to its file. */
    method SaveProcessingOrder()
      modifies this`processingOrderFile
      ensures processingOrder.Some? ==> processingOrderFile == Stored(processingOrder.value)
      ensures processingOrder.None? ==> processingOrderFile == old(processingOrderFile)
    {
      if processingOrder.None? {
        return;
      }
      processingOrderFile := Stored(processingOrder.value);
    }

    /**
     * Resumes an interrupted run: when the file holds an order it becomes the
     * processing order (saving it again leaves the file as it is) and the
     * background session is reattached.
     */
    method LoadProcessingOrder() returns (loaded: bool)
      requires Valid()
      modifies this`processingOrder, this`log
      ensures Valid()
      ensures loaded <==> old(processingOrderFile).Stored?
      ensures processingOrder == if loaded then Some(old(processingOrderFile).order) else old(processingOrder)
      ensures log == old(log) + (if loaded then [BackgroundSessionRecreated] else [])
    {
      if !processingOrderFile.Stored? {
        return false;
      }
      processingOrder := Some(processingOrderFile.order);
      log := log + [BackgroundSessionRecreated];
      loaded := true;
    }

    /** True when an order is in memory or can be loaded, which loads it. */
    method IsProcessingOrder() returns (r: bool)
      requires Valid()
      modifies this`processingOrder, this`log
      ensures Valid()
      ensures r <==> old(Recoverable()).Some?
      ensures r <==> old(processingOrderFile).Stored?
      ensures processingOrder == old(Recoverable())
      ensures log == old(log) + RecoveryEvents(old(processingOrder), old(processingOrderFile))
    {
      RecoverableIsTheFile();
      if processingOrder.Some? {
        return true;
      }
      r := LoadProcessingOrder();
    }

    /**
     * Starts a run. With an order already processing (or recoverable from
     * disk) nothing new starts; otherwise the order is persisted as the
     * processing order and one upload is begun per asset to upload.
     */
    method StartProcessing(order: Order)
      requires Valid()
      modifies this`processingOrder, this`processingOrderFile, this`pendingAssetData, this`log
      ensures Valid()
      ensures old(Recoverable()).Some? ==>
                && processingOrder == old(Recoverable()) && processingOrderFile == old(processingOrderFile)
                && pendingAssetData == old(pendingAssetData)
                && log == old(log) + RecoveryEvents(old(processingOrder), old(processingOrderFile))
      ensures old(Recoverable()).None? ==>
                && processingOrder == Some(order) && processingOrderFile == Stored(order)
                && pendingAssetData == old(pendingAssetData) + assetsToUpload(order)
                && log == old(log) + DataRequests(assetsToUpload(order))
    {
      var processing := IsProcessingOrder();
      if processing {
        return;
      }
      SetProcessingOrder(Some(order));
      UploadAssets();
    }

    /** Begins an upload for every asset the processing order (which must exist) has to upload. */
    method UploadAssets()
      requires processingOrder.Some?
      modifies this`pendingAssetData, this`log
      ensures pendingAssetData == old(pendingAssetData) + assetsToUpload(processingOrder.value)
      ensures log == old(log) + DataRequests(assetsToUpload(processingOrder.value))
    {
      var assets := assetsToUpload(processingOrder.value);
      for k := 0 to |assets|
        invariant pendingAssetData == old(pendingAssetData) + assets[..k]
        invariant log == old(log) + DataRequests(assets[..k])
      {
        UploadAsset(assets[k]);
        assert assets[..k + 1] == assets[..k] + [assets[k]];
      }
      assert assets[..|assets|] == assets;
    }

    /** Asks the asset loader for an asset's image data. */
    method UploadAsset(asset: Asset)
      modifies this`pendingAssetData, this`log
      ensures pendingAssetData == old(pendingAssetData) + [asset]
      ensures log == old(log) + [AssetDataRequested(asset)]
    {
      pendingAssetData := pendingAssetData + [asset];
      log := log + [AssetDataRequested(asset)];
    }

    /**
     * The loader answered the `i`-th pending request. Unusable data is missing
     * photobook info. Usable data is saved to a scratch file (`saveScratchFile`
     * is the disk: the file's URL, or `None` when it cannot be written); a saved
     * file is handed to the uploader under the prefixed identifier, a failed save
     * is a scratch-file failure.
     */
    method AssetDataLoaded(i: nat, result: ImageData, saveScratchFile: string -> Option<string>)
      requires Valid() && i < |pendingAssetData|
      modifies this`pendingAssetData, this`processingOrder, this`cancelCompletion, this`pendingCancelAcks, this`log
      ensures Valid()
      ensures pendingAssetData == old(pendingAssetData[..i] + pendingAssetData[i + 1..])
      ensures !Usable(result) ==> FailureHandled(PhotobookAPI(MissingPhotobookInfo))
      ensures Usable(result) && saveScratchFile(ScratchFileName(old(pendingAssetData[i]), result.fileExtension)).None? ==>
                FailureHandled(PhotobookAPI(CouldNotSaveTempImageData))
      ensures Usable(result) && saveScratchFile(ScratchFileName(old(pendingAssetData[i]), result.fileExtension)).Some? ==>
                && processingOrder == old(processingOrder) && cancelCompletion == old(cancelCompletion)
                && pendingCancelAcks == old(pendingCancelAcks)
                && log == old(log) + [UploadRequested(saveScratchFile(ScratchFileName(old(pendingAssetData[i]), result.fileExtension)).value,
                                                      prefix + old(pendingAssetData[i]).identifier)]
    {
      var asset := pendingAssetData[i];
      pendingAssetData := pendingAssetData[..i] + pendingAssetData[i + 1..];
      if !Usable(result) {
        DidFailUpload(PhotobookAPI(MissingPhotobookInfo));
        return;
      }
      var fileUrl := saveScratchFile(ScratchFileName(asset, result.fileExtension));
      if fileUrl.Some? {
        log := log + [UploadRequested(fileUrl.value, prefix + asset.identifier)];
      } else {
        DidFailUpload(PhotobookAPI(CouldNotSaveTempImageData));
      }
    }

    /**
     * Requests a cancel. With nothing processing the completion runs at once
     * (and, since nothing returns there, the request then goes on). With a
     * cancel pending the completion only replaces the stored one; otherwise it
     * is stored and the background transfers are asked to cancel.
     */
    method CancelProcessing(completion: Completion)
      requires Valid()
      modifies this`processingOrder, this`cancelCompletion, this`pendingCancelAcks, this`log
      ensures Valid()
      ensures processingOrder == old(Recoverable())
      ensures cancelCompletion == Some(completion)
      ensures pendingCancelAcks == old(pendingCancelAcks) + (if old(IsCancelling()) then 0 else 1)
      ensures log == old(log) + RecoveryEvents(old(processingOrder), old(processingOrderFile))
                             + (if old(Recoverable()).None? then [Called(completion)] else [])
                             + (if old(IsCancelling()) then [] else [TransferCancelRequested])
    {
      var processing := IsProcessingOrder();
      if !processing {
        log := log + [Called(completion)];
      }
      if IsCancelling() {
        cancelCompletion := Some(completion);
        return;
      }
      cancelCompletion := Some(completion);
      pendingCancelAcks := pendingCancelAcks + 1;
      log := log + [TransferCancelRequested];
    }

    /** The transfers acknowledged a cancel: the order is cleared and the latest completion, if any, runs once. */
    method CancelAcknowledged()
      requires Valid() && pendingCancelAcks > 0
      modifies this`processingOrder, this`processingOrderFile, this`cancelCompletion, this`pendingCancelAcks, this`log
      ensures Valid()
      ensures processingOrder.None? && processingOrderFile == NoFile && cancelCompletion.None?
      ensures pendingCancelAcks == old(pendingCancelAcks) - 1
      ensures log == old(log) + (if old(IsCancelling()) then [Called(old(cancelCompletion).value)] else [])
    {
      pendingCancelAcks := pendingCancelAcks - 1;
      SetProcessingOrder(None);
      if cancelCompletion.Some? {
        log := log + [Called(cancelCompletion.value)];
      }
      cancelCompletion := None;
    }

    /** A stage found a cancel pending: the order is cleared, the completion runs and is dropped. */
    method CompletePendingCancel()
      requires cancelCompletion.Some?
      modifies this`processingOrder, this`processingOrderFile, this`cancelCompletion, this`log
      ensures CancelWon()
    {
      SetProcessingOrder(None);
      log := log + [Called(cancelCompletion.value)];
      cancelCompletion := None;
    }

    /** The failure handler: with an order processing, the error is answered as `RespondToFailure` says. */
    method DidFailUpload(e: UploadFailure)
      requires Valid()
      modifies this`processingOrder, this`cancelCompletion, this`pendingCancelAcks, this`log
      ensures Valid()
      ensures FailureHandled(e)
    {
      if processingOrder.None? {
        return;
      }
      match e {
        case PhotobookAPI(CouldNotSaveTempImageData) =>
          log := log + [UploadStatusDidUpdate, OrderDidComplete(Some(Upload))];
        case PhotobookAPI(MissingPhotobookInfo) =>
          CancelProcessing(ReportCancelled);
        case PhotobookAPI(CouldNotBuildCreationParameters) =>
          CancelProcessing(ReportCancelled);
        case PhotobookAPI(OtherPhotobookAPIError) =>
          log := log + [OrderDidComplete(Some(Cancelled))];
        case APIClient(_) =>
          log := log + [OrderDidComplete(Some(Upload))];
        case OtherFailure =>
      }
    }

    /** The notification reports an upload of one of the processing order's assets to upload. */
    twostate predicate MatchesAnAsset(userInfo: Option<Clients.UserInfo>)
      reads this
    {
      && old(processingOrder).Some?
      && ClassifyUploadEvent(userInfo, prefix).Uploaded?
      && WithIdentifier(assetsToUpload(old(processingOrder).value), ClassifyUploadEvent(userInfo, prefix).identifier) != []
    }

    /** Nothing remains to upload and there is a product to build the PDF from. */
    predicate Finishes()
      reads this
    {
      processingOrder.Some? && remainingAssetsToUpload(processingOrder.value) == [] && hasCurrentProduct
    }

    /**
     * A background upload finished. Ignored with no order processing or a
     * notification that is not this manager's; failures go to the failure
     * handler; a success records the URL on every asset to upload sharing the
     * identifier, notifies, saves, and finishes the order once nothing remains.
     */
    method TransferFinished(userInfo: Option<Clients.UserInfo>)
      requires Valid()
      modifies this`processingOrder, this`processingOrderFile, this`cancelCompletion, this`pendingCancelAcks,
               this`pendingPdf, this`log
      ensures Valid()
      ensures old(processingOrder).None? || ClassifyUploadEvent(userInfo, prefix) == Ignored ==>
                && processingOrder == old(processingOrder) && processingOrderFile == old(processingOrderFile)
                && cancelCompletion == old(cancelCompletion) && pendingCancelAcks == old(pendingCancelAcks)
                && pendingPdf == old(pendingPdf) && log == old(log)
      ensures old(processingOrder).Some? && ClassifyUploadEvent(userInfo, prefix).Failed? ==>
                FailureHandled(ClassifyUploadEvent(userInfo, prefix).failure) && pendingPdf == old(pendingPdf)
      ensures old(processingOrder).Some? && ClassifyUploadEvent(userInfo, prefix).Uploaded? && !MatchesAnAsset(userInfo) ==>
                FailureHandled(PhotobookAPI(MissingPhotobookInfo)) && pendingPdf == old(pendingPdf)
      ensures MatchesAnAsset(userInfo) ==>
                && processingOrder.Some? && processingOrderFile == Stored(processingOrder.value)
                && RecordedUpload(old(processingOrder).value, processingOrder.value, assetsToUpload(old(processingOrder).value),
                                  ClassifyUploadEvent(userInfo, prefix).identifier, ClassifyUploadEvent(userInfo, prefix).url)
                && cancelCompletion == old(cancelCompletion) && pendingCancelAcks == old(pendingCancelAcks)
      ensures MatchesAnAsset(userInfo) && Finishes() ==>
                log == old(log) + [UploadStatusDidUpdate, OrderWillFinish, PdfRequested] && pendingPdf == old(pendingPdf) + 1
      ensures MatchesAnAsset(userInfo) && !Finishes() ==>
                log == old(log) + [UploadStatusDidUpdate] && pendingPdf == old(pendingPdf)
      // when the remaining assets are those still lacking a URL, a recorded upload never leaves more remaining
      ensures MatchesAnAsset(userInfo) && (forall o :: remainingAssetsToUpload(o) == NotUploaded(o.assets)) ==>
                |remainingAssetsToUpload(processingOrder.value)| <= |remainingAssetsToUpload(old(processingOrder).value)|
    {
      if processingOrder.None? {
        return;
      }
      var order := processingOrder.value;
      match ClassifyUploadEvent(userInfo, prefix) {
        case Ignored =>
          return;
        case Failed(failure) =>
          DidFailUpload(failure);
          return;
        case Uploaded(identifier, url) =>
          var selected := WithIdentifier(assetsToUpload(order), identifier);
          if selected == [] {
            DidFailUpload(PhotobookAPI(MissingPhotobookInfo));
            return;
          }
          var assets := SetUploadUrls(order.assets, selected, url);
          RecordedUploadShrinksNotUploaded(order, order.(assets := assets), assetsToUpload(order), identifier, url);
          order := order.(assets := assets);
          processingOrder := Some(order);
          log := log + [UploadStatusDidUpdate];
          SaveProcessingOrder();
          if remainingAssetsToUpload(order) == [] {
            FinishOrder();
          }
      }
    }

    /** With a current product, announces the finish and asks for the PDF. */
    method FinishOrder()
      modifies this`pendingPdf, this`log
      ensures hasCurrentProduct ==> pendingPdf == old(pendingPdf) + 1 && log == old(log) + [OrderWillFinish, PdfRequested]
      ensures !hasCurrentProduct ==> pendingPdf == old(pendingPdf) && log == old(log)
    {
      if !hasCurrentProduct {
        return;
      }
      log := log + [OrderWillFinish];
      pendingPdf := pendingPdf + 1;
      log := log + [PdfRequested];
    }

    /** The PDF stage answered: a pending cancel wins; no URLs is a PDF error; URLs move on to submission. */
    method PdfResult(urls: Option<seq<string>>)
      requires Valid() && pendingPdf > 0
      modifies this`processingOrder, this`processingOrderFile, this`cancelCompletion, this`pendingPdf,
               this`pendingSubmit, this`log
      ensures Valid()
      ensures pendingPdf == old(pendingPdf) - 1
      ensures old(IsCancelling()) ==> CancelWon() && pendingSubmit == old(pendingSubmit)
      ensures !old(IsCancelling()) ==>
                && processingOrder == old(processingOrder) && processingOrderFile == old(processingOrderFile)
                && cancelCompletion == old(cancelCompletion)
      ensures !old(IsCancelling()) && urls.None? ==>
                log == old(log) + [OrderDidComplete(Some(Pdf))] && pendingSubmit == old(pendingSubmit)
      ensures !old(IsCancelling()) && urls.Some? ==>
                log == old(log) + [SubmitRequested(basketOrder)] && pendingSubmit == old(pendingSubmit) + 1
    {
      pendingPdf := pendingPdf - 1;
      if IsCancelling() {
        CompletePendingCancel();
        return;
      }
      if urls.None? {
        log := log + [OrderDidComplete(Some(Pdf))];
        return;
      }
      SubmitOrder(urls.value);
    }

    /** Submits the basket order (not the processing order; the PDF URLs are not passed on). */
    method SubmitOrder(urls: seq<string>)
      modifies this`pendingSubmit, this`log
      ensures pendingSubmit == old(pendingSubmit) + 1
      ensures log == old(log) + [SubmitRequested(basketOrder)]
    {
      pendingSubmit := pendingSubmit + 1;
      log := log + [SubmitRequested(basketOrder)];
    }

    /**
     * The backend answered the submission. The basket order takes the returned
     * id; then a pending cancel wins, an error is a submission error, and
     * otherwise the order is polled for success.
     */
    method SubmitResult(orderId: Option<string>, errorMessage: Option<ErrorMessage>)
      requires Valid() && pendingSubmit > 0
      modifies this`basketOrder, this`processingOrder, this`processingOrderFile, this`cancelCompletion,
               this`pendingSubmit, this`log
      ensures Valid()
      ensures pendingSubmit == old(pendingSubmit) - 1
      ensures basketOrder == old(basketOrder).(orderId := orderId)
      ensures old(IsCancelling()) ==> CancelWon()
      ensures !old(IsCancelling()) && errorMessage.Some? ==>
                && processingOrder == old(processingOrder) && processingOrderFile == old(processingOrderFile)
                && cancelCompletion == old(cancelCompletion)
                && log == old(log) + [OrderDidComplete(Some(Submission))]
      ensures !old(IsCancelling()) && errorMessage.None? ==>
                && processingOrder.None? && processingOrderFile == NoFile && cancelCompletion.None?
                && log == old(log) + [OrderDidComplete(None)]
    {
      basketOrder := basketOrder.(orderId := orderId);
      pendingSubmit := pendingSubmit - 1;
      if IsCancelling() {
        CompletePendingCancel();
        return;
      }
      if errorMessage.Some? {
        log := log + [OrderDidComplete(Some(Submission))];
        return;
      }
      var pollError := PollOrderSuccess();
      PollCompleted(pollError);
    }

    /** Polling for the order's success is not implemented: it succeeds at once. */
    method PollOrderSuccess() returns (errorMessage: Option<ErrorMessage>)
      ensures errorMessage.None?
    {
      errorMessage := None;
    }

    /**
     * The poll answered: a pending cancel wins; an error is a payment error and
     * keeps the order; otherwise the run succeeded, and only here is the order
     * cleared and completion reported without an error.
     */
    method PollCompleted(errorMessage: Option<ErrorMessage>)
      requires Valid()
      modifies this`processingOrder, this`processingOrderFile, this`cancelCompletion, this`log
      ensures Valid()
      ensures old(IsCancelling()) ==> CancelWon()
      ensures !old(IsCancelling()) && errorMessage.Some? ==>
                && processingOrder == old(processingOrder) && processingOrderFile == old(processingOrderFile)
                && cancelCompletion == old(cancelCompletion)
                && log == old(log) + [OrderDidComplete(Some(Payment))]
      ensures !old(IsCancelling()) && errorMessage.None? ==>
                && processingOrder.None? && processingOrderFile == NoFile && cancelCompletion.None?
                && log == old(log) + [OrderDidComplete(None)]
    {
      if IsCancelling() {
        CompletePendingCancel();
        return;
      }
      if errorMessage.Some? {
        log := log + [OrderDidComplete(Some(Payment))];
        return;
      }
      SetProcessingOrder(None);
      log := log + [OrderDidComplete(None)];
    }
  }
}
