/**
 * Whole runs of the order manager, driven event by event, with what the
 * contracts let one conclude about them.
 */
module OrderScenarios {
  import opened Wrappers
  import opened OrderProcessing
  import Clients

  const Reference := "PB-"

  /** A manager whose orders upload all their assets and have nothing else left once each has a URL. */
  method NewManager(file: OrderFile) returns (m: OrderManager)
    ensures fresh(m) && m.Valid()
    ensures m.prefix == Reference && m.hasCurrentProduct && m.processingOrderFile == file && m.processingOrder.None?
    ensures forall o :: m.assetsToUpload(o) == o.assets
    ensures forall o :: m.remainingAssetsToUpload(o) == NotUploaded(o.assets)
    ensures !m.IsCancelling() && m.pendingAssetData == [] && m.pendingPdf == 0 && m.pendingSubmit == 0
    ensures m.pendingCancelAcks == 0 && m.log == [] && m.basketOrder == Order([], None)
  {
    m := new OrderManager(Reference, (o: Order) => o.assets, (o: Order) => NotUploaded(o.assets), true, file, Order([], None));
  }

  function Finished(identifier: string, url: string): Clients.UserInfo {
    map["task_reference" := Clients.StringValue(Reference + identifier), "full" := Clients.StringValue(url)]
  }

  /** Two assets share an identifier: one notification records the URL on both, and the order is not finished yet. */
  method SharedIdentifierFanOut()
  {
    var a := Asset("a", "file-a", None);
    var b := Asset("b", "file-b", None);
    var m := NewManager(NoFile);
    m.StartProcessing(Order([a, b, a], None));
    assert m.pendingAssetData == [a, b, a];
    IssuedReferenceResolves(Finished("a", "url-a"), Reference, "a", "url-a");
    assert a in WithIdentifier([a, b, a], "a");
    m.TransferFinished(Some(Finished("a", "url-a")));
    var a' := a.(uploadUrl := Some("url-a"));
    ghost var after := m.processingOrder.value;
    assert after.assets[1] == b;
    SomeNotUploaded(after.assets, 1);
    assert m.remainingAssetsToUpload(after) == NotUploaded(after.assets);
    assert !m.Finishes();
    assert after.assets[0] == a' && after.assets[2] == a';
  }

  /** An asset without a URL keeps the order from being finished. */
  lemma SomeNotUploaded(assets: seq<Asset>, k: nat)
    requires k < |assets| && assets[k].uploadUrl.None?
    ensures NotUploaded(assets) != []
  {
    assert assets[k] in assets;
  }

  /**
   * The last upload finishes the order; the PDF, the submission and the poll
   * then lead to success, which alone clears the order.
   */
  method SuccessfulRun()
  {
    var a := Asset("a", "file-a", None);
    var m := NewManager(NoFile);
    m.StartProcessing(Order([a], None));
    IssuedReferenceResolves(Finished("a", "url-a"), Reference, "a", "url-a");
    m.TransferFinished(Some(Finished("a", "url-a")));
    assert m.processingOrder.value.assets == [a.(uploadUrl := Some("url-a"))];
    assert NotUploaded(m.processingOrder.value.assets) == [];
    assert m.pendingPdf == 1 && m.log[|m.log| - 2..] == [OrderWillFinish, PdfRequested];
    m.PdfResult(Some(["pdf-cover", "pdf-pages"]));
    assert m.log[|m.log| - 1] == SubmitRequested(Order([], None));
    m.SubmitResult(Some("order-1"), None);
    assert m.processingOrder.None? && m.processingOrderFile == NoFile;
    assert m.log[|m.log| - 1] == OrderDidComplete(None);
    assert m.basketOrder.orderId == Some("order-1");
  }

  /** A notification from another uploader leaves the run as it was. */
  method ForeignNotificationIgnored()
  {
    var a := Asset("a", "file-a", None);
    var m := NewManager(NoFile);
    m.StartProcessing(Order([a], None));
    var before := m.log;
    var info := map["task_reference" := Clients.StringValue("XY-a"), "full" := Clients.StringValue("u")];
    assert "XY-a"[0] != Reference[0];
    m.TransferFinished(Some(info));
    assert m.log == before && m.processingOrder == Some(Order([a], None));
  }

  /** Two cancels during a run: one transfer cancel is requested, and only the later completion runs, once. */
  method LastCancelWins()
  {
    var a := Asset("a", "file-a", None);
    var order := Order([a], None);
    var m := NewManager(NoFile);
    m.StartProcessing(order);
    m.CancelProcessing(CallerCompletion(1));
    m.CancelProcessing(CallerCompletion(2));
    assert m.pendingCancelAcks == 1;
    m.CancelAcknowledged();
    assert m.log == [AssetDataRequested(a), TransferCancelRequested, CancelCompletionCalled(2)];
    assert !m.IsCancelling() && m.processingOrder.None? && m.processingOrderFile == NoFile;
  }

  /** With nothing processing, a cancel runs its completion at once and again on the acknowledgement. */
  method CancelWithNothingProcessing()
  {
    var m := NewManager(NoFile);
    m.CancelProcessing(CallerCompletion(7));
    m.CancelAcknowledged();
    assert m.log == [CancelCompletionCalled(7), TransferCancelRequested, CancelCompletionCalled(7)];
  }

  /** A cancel pending when the PDF arrives ends the run without any completion being reported to the delegate. */
  method CancelOvertakesPdf()
  {
    var a := Asset("a", "file-a", None);
    var m := NewManager(NoFile);
    m.StartProcessing(Order([a], None));
    IssuedReferenceResolves(Finished("a", "u"), Reference, "a", "u");
    m.TransferFinished(Some(Finished("a", "u")));
    assert m.processingOrder.value.assets == [a.(uploadUrl := Some("u"))];
    assert NotUploaded(m.processingOrder.value.assets) == [];
    m.CancelProcessing(CallerCompletion(3));
    var before := m.log;
    m.PdfResult(None);
    assert m.log == before + [CancelCompletionCalled(3)];
    assert m.processingOrder.None? && m.pendingSubmit == 0;
  }

  /** After a relaunch the stored order is resumed rather than replaced. */
  method ResumeAfterRelaunch()
  {
    var stored := Order([Asset("a", "file-a", None)], None);
    var m := NewManager(Stored(stored));
    m.StartProcessing(Order([], Some("other")));
    assert m.processingOrder == Some(stored);
    assert m.log == [BackgroundSessionRecreated];
    assert m.pendingAssetData == [];
  }
}
