/**
 * The order summary screen's model (Photobook/Model/Order/OrderSummaryManager.swift):
 * the selected upsell options, updated optimistically and rolled back when the
 * backend refuses them; the summary and upsell options the backend returns; and
 * the cover preview, ready once both a summary and an uploaded cover URL exist.
 *
 * Backend answers arrive through the response methods; delegate callbacks and
 * requests are recorded, in order, in the ghost `log`.
 */
module OrderSummaries {
  import opened Wrappers
  import Clients

  type UpsellOption(==)
  type Summary(==)
  type Payload(==)
  type Image(==)

  datatype PhotobookTemplate = PhotobookTemplate(templateId: int)

  /** An error a request reports: a client error, or any other error. */
  datatype RequestError = ClientError(clientError: Clients.APIClientError) | OtherError

  datatype ErrorMessage = ErrorMessage(cause: RequestError)

  /** The message for a failed request: the error it reported, or a generic one when it reported none. */
  function MessageFor(error: Option<RequestError>): (m: ErrorMessage)
    ensures error.Some? ==> m.cause == error.value
    ensures error.None? ==> m.cause == ClientError(Clients.Generic)
  {
    ErrorMessage(error.GetOr(ClientError(Clients.Generic)))
  }

  datatype SummaryEvent =
    // delegate callbacks
    | WillUpdate
    | DidSetPreviewImageUrl
    | FailedToSetPreviewImageUrl
    | DidUpdate(summary: Option<Summary>, error: Option<ErrorMessage>)
    | FailedToApply(option: UpsellOption, message: ErrorMessage)
    // requests to the backend
    | SummaryRequested
    | ApplyRequested(options: set<UpsellOption>)
    | CoverUploadRequested(image: Image)

  /** What undoes an optimistic selection change when the apply request fails. */
  datatype Rollback = NoRollback | RemoveAgain(option: UpsellOption) | InsertAgain(option: UpsellOption)

  /** The selection after `option` is toggled. */
  function Toggled(selected: set<UpsellOption>, option: UpsellOption): (r: set<UpsellOption>)
    ensures option in r <==> option !in selected
    ensures r - {option} == selected - {option}
  {
    if option in selected then selected - {option} else selected + {option}
  }

  /** The rollback a toggle of `option` registers. */
  function ToggleRollback(selected: set<UpsellOption>, option: UpsellOption): Rollback {
    if option in selected then InsertAgain(option) else RemoveAgain(option)
  }

  /** The selection after a failed apply is rolled back. */
  function RolledBack(selected: set<UpsellOption>, rollback: Rollback): (r: set<UpsellOption>)
    ensures rollback.RemoveAgain? ==> rollback.option !in r
    ensures rollback.InsertAgain? ==> rollback.option in r
    ensures rollback.NoRollback? ==> r == selected
    ensures !rollback.NoRollback? ==> r - {rollback.option} == selected - {rollback.option}
  {
    match rollback
    case NoRollback => selected
    case RemoveAgain(option) => selected - {option}
    case InsertAgain(option) => selected + {option}
  }

  /** A toggle whose apply fails leaves the selection as it was before the toggle. */
  lemma ToggleThenFailureRestores(selected: set<UpsellOption>, option: UpsellOption)
    ensures RolledBack(Toggled(selected, option), ToggleRollback(selected, option)) == selected
  {
    var r := RolledBack(Toggled(selected, option), ToggleRollback(selected, option));
    assert forall x :: x in r <==> x in selected;
  }

  /** Toggling twice is no change. */
  lemma ToggleTwice(selected: set<UpsellOption>, option: UpsellOption)
    ensures Toggled(Toggled(selected, option), option) == selected
  {
    var r := Toggled(Toggled(selected, option), option);
    assert forall x :: x in r <==> x in selected;
  }

  /** The index of the first template with the given id. */
  function FirstTemplate(templates: seq<PhotobookTemplate>, templateId: int): (r: Option<nat>)
    ensures r.Some? ==> r.value < |templates| && templates[r.value].templateId == templateId
                        && forall k :: 0 <= k < r.value ==> templates[k].templateId != templateId
    ensures r.None? <==> forall k :: 0 <= k < |templates| ==> templates[k].templateId != templateId
  {
    if templates == [] then None
    else if templates[0].templateId == templateId then Some(0)
    else match FirstTemplate(templates[1..], templateId)
      case None => None
      case Some(k) => Some(k + 1)
  }

  datatype ApplyOutcome = Applied(template: PhotobookTemplate, summary: Summary) | ApplyFailed(message: ErrorMessage)

  /**
   * The outcome of an apply-upsells answer: it applies iff a summary and an
   * upsold template id came back and the id names one of the known templates
   * (the first such); a missing summary or id fails with the reported error or
   * a generic one, an unknown id with a generic one.
   */
  function ClassifyApplyResponse(templates: Option<seq<PhotobookTemplate>>, summary: Option<Summary>,
                                 templateId: Option<int>, error: Option<RequestError>): (r: ApplyOutcome)
    ensures r.Applied? <==> summary.Some? && templateId.Some? && templates.Some?
                            && exists k :: 0 <= k < |templates.value| && templates.value[k].templateId == templateId.value
    ensures r.Applied? ==> r.summary == summary.value && FirstTemplate(templates.value, templateId.value) != None
                           && r.template == templates.value[FirstTemplate(templates.value, templateId.value).value]
    ensures (summary.None? || templateId.None?) ==> r == ApplyFailed(MessageFor(error))
    ensures summary.Some? && templateId.Some? && r.ApplyFailed? ==> r.message == ErrorMessage(ClientError(Clients.Generic))
  {
    if summary.None? || templateId.None? then ApplyFailed(MessageFor(error))
    else if templates.None? then ApplyFailed(ErrorMessage(ClientError(Clients.Generic)))
    else match FirstTemplate(templates.value, templateId.value)
      case None => ApplyFailed(ErrorMessage(ClientError(Clients.Generic)))
      case Some(k) => Applied(templates.value[k], summary.value)
  }

  class OrderSummaryManager {
    /** The product's own template, used for the upsell data after the first fetch. */
    const productTemplate: PhotobookTemplate

    var templates: Option<seq<PhotobookTemplate>>
    var upsellOptions: Option<seq<UpsellOption>>
    var summary: Option<Summary>
    var selectedUpsellOptions: set<UpsellOption>

    /** The product's upsell data (template and payload) as last set. */
    var upsellData: Option<(PhotobookTemplate, Option<Payload>)>
    /** The product's uploaded cover URL. */
    var pigCoverUrl: Option<string>
    var coverPageSnapshotImage: Option<Image>
    /** The product's cover snapshot. */
    var coverSnapshot: Option<Image>
    var isUploadingCoverImage: bool

    /** The rollbacks of the apply requests not yet answered, in request order. */
    var pendingApplies: seq<Rollback>
    var pendingFetches: nat
    var pendingCoverUploads: nat

    ghost var log: seq<SummaryEvent>

    /** The cover is marked uploading only while an upload is outstanding. */
    ghost predicate Valid()
      reads this
    {
      isUploadingCoverImage ==> pendingCoverUploads > 0
    }

    constructor (templates: Option<seq<PhotobookTemplate>>, productTemplate: PhotobookTemplate, pigCoverUrl: Option<string>)
      ensures Valid()
      ensures this.templates == templates && this.productTemplate == productTemplate && this.pigCoverUrl == pigCoverUrl
      ensures upsellOptions.None? && summary.None? && selectedUpsellOptions == {} && upsellData.None?
      ensures coverPageSnapshotImage.None? && coverSnapshot.None? && !isUploadingCoverImage
      ensures pendingApplies == [] && pendingFetches == 0 && pendingCoverUploads == 0 && log == []
    {
      this.templates := templates;
      this.productTemplate := productTemplate;
      this.pigCoverUrl := pigCoverUrl;
      upsellOptions := None;
      summary := None;
      selectedUpsellOptions := {};
      upsellData := None;
      coverPageSnapshotImage := None;
      coverSnapshot := None;
      isUploadingCoverImage := false;
      pendingApplies := [];
      pendingFetches := 0;
      pendingCoverUploads := 0;
      log := [];
    }

    /** Whether the option is selected, that is, whether toggling it would deselect it. */
    predicate IsUpsellOptionSelected(option: UpsellOption): (r: bool)
      reads this
      ensures r <==> option in selectedUpsellOptions
      ensures r <==> option !in Toggled(selectedUpsellOptions, option)
    {
      option in selectedUpsellOptions
    }

    /** A preview can be shown once the cover is uploaded and a summary is known. */
    predicate IsPreviewImageUrlReady(): (r: bool)
      reads this
      ensures r ==> pigCoverUrl.Some?
      ensures r ==> summary.Some?
      ensures pigCoverUrl.Some? && summary.Some? ==> r
    {
      pigCoverUrl.Some? && summary.Some?
    }

    /** Fetches the summary when no upsell options are known (none, or an empty list), or else re-applies the selection. */
    method GetSummary()
      modifies this`summary, this`pendingFetches, this`pendingApplies, this`log
      ensures old(upsellOptions).None? || old(upsellOptions) == Some([]) ==>
                && summary.None? && pendingFetches == old(pendingFetches) + 1 && pendingApplies == old(pendingApplies)
                && log == old(log) + [WillUpdate, SummaryRequested]
      ensures old(upsellOptions).Some? && old(upsellOptions) != Some([]) ==>
                && summary == old(summary) && pendingFetches == old(pendingFetches)
                && pendingApplies == old(pendingApplies) + [NoRollback]
                && log == old(log) + [WillUpdate, ApplyRequested(selectedUpsellOptions)]
    {
      if upsellOptions.None? || upsellOptions.value == [] {
        FetchOrderSummary();
      } else {
        ApplyUpsells(NoRollback);
      }
    }

    /** Selects the option when it is not selected, deselects it otherwise. */
    method ToggleUpsellOption(option: UpsellOption)
      modifies this`selectedUpsellOptions, this`pendingApplies, this`log
      ensures selectedUpsellOptions == Toggled(old(selectedUpsellOptions), option)
      ensures pendingApplies == old(pendingApplies) + [ToggleRollback(old(selectedUpsellOptions), option)]
      ensures log == old(log) + [WillUpdate, ApplyRequested(selectedUpsellOptions)]
    {
      if IsUpsellOptionSelected(option) {
        DeselectUpsellOption(option);
      } else {
        SelectUpsellOption(option);
      }
    }

    /** Adds the option and applies the selection, to be removed again if the apply fails. */
    method SelectUpsellOption(option: UpsellOption)
      modifies this`selectedUpsellOptions, this`pendingApplies, this`log
      ensures selectedUpsellOptions == old(selectedUpsellOptions) + {option}
      ensures pendingApplies == old(pendingApplies) + [RemoveAgain(option)]
      ensures log == old(log) + [WillUpdate, ApplyRequested(selectedUpsellOptions)]
    {
      selectedUpsellOptions := selectedUpsellOptions + {option};
      ApplyUpsells(RemoveAgain(option));
    }

    /** Removes the option and applies the selection, to be inserted again if the apply fails. */
    method DeselectUpsellOption(option: UpsellOption)
      modifies this`selectedUpsellOptions, this`pendingApplies, this`log
      ensures selectedUpsellOptions == old(selectedUpsellOptions) - {option}
      ensures pendingApplies == old(pendingApplies) + [InsertAgain(option)]
      ensures log == old(log) + [WillUpdate, ApplyRequested(selectedUpsellOptions)]
    {
      selectedUpsellOptions := selectedUpsellOptions - {option};
      ApplyUpsells(InsertAgain(option));
    }

    /** Sends the current selection to the backend, remembering how to undo the change that prompted it. */
    method ApplyUpsells(rollback: Rollback)
      modifies this`pendingApplies, this`log
      ensures pendingApplies == old(pendingApplies) + [rollback]
      ensures log == old(log) + [WillUpdate, ApplyRequested(selectedUpsellOptions)]
    {
      log := log + [WillUpdate, ApplyRequested(selectedUpsellOptions)];
      pendingApplies := pendingApplies + [rollback];
    }

    /**
     * The backend answered the `i`-th pending apply. On success the product
     * takes the upsold template and payload and the summary is received; on
     * failure the change is rolled back and reported with its option.
     */
    method ApplyResponse(i: nat, summary: Option<Summary>, templateId: Option<int>, payload: Option<Payload>,
                         error: Option<RequestError>)
      requires i < |pendingApplies|
      modifies this`pendingApplies, this`selectedUpsellOptions, this`upsellData, this`summary, this`log
      ensures pendingApplies == old(pendingApplies[..i] + pendingApplies[i + 1..])
      ensures ClassifyApplyResponse(templates, summary, templateId, error).Applied? ==>
                var outcome := ClassifyApplyResponse(templates, summary, templateId, error);
                && selectedUpsellOptions == old(selectedUpsellOptions)
                && upsellData == Some((outcome.template, payload))
                && this.summary == Some(outcome.summary)
                && log == old(log) + [DidUpdate(this.summary, None)] + (if IsPreviewImageUrlReady() then [DidSetPreviewImageUrl] else [])
      ensures ClassifyApplyResponse(templates, summary, templateId, error).ApplyFailed? ==>
                var message := ClassifyApplyResponse(templates, summary, templateId, error).message;
                var rollback := old(pendingApplies[i]);
                && selectedUpsellOptions == RolledBack(old(selectedUpsellOptions), rollback)
                && upsellData == old(upsellData) && this.summary == old(this.summary)
                && log == old(log) + (if rollback.NoRollback? then [] else [FailedToApply(rollback.option, message)])
    {
      var rollback := pendingApplies[i];
      pendingApplies := pendingApplies[..i] + pendingApplies[i + 1..];
      match ClassifyApplyResponse(templates, summary, templateId, error) {
        case ApplyFailed(message) =>
          match rollback {
            case NoRollback =>
            case RemoveAgain(option) =>
              selectedUpsellOptions := selectedUpsellOptions - {option};
              log := log + [FailedToApply(option, message)];
            case InsertAgain(option) =>
              selectedUpsellOptions := selectedUpsellOptions + {option};
              log := log + [FailedToApply(option, message)];
          }
        case Applied(template, received) =>
          upsellData := Some((template, payload));
          HandleReceivingSummary(received);
      }
    }

    /** Clears the summary and asks the backend for it. */
    method FetchOrderSummary()
      modifies this`summary, this`pendingFetches, this`log
      ensures summary.None? && pendingFetches == old(pendingFetches) + 1
      ensures log == old(log) + [WillUpdate, SummaryRequested]
    {
      log := log + [WillUpdate];
      summary := None;
      pendingFetches := pendingFetches + 1;
      log := log + [SummaryRequested];
    }

    /**
     * The backend answered a summary fetch. Without a summary the error (or a
     * generic one) is reported and nothing else changes; with one the product
     * takes its own template and the payload, the upsell options are stored and
     * the summary is received.
     */
    method FetchResponse(summary: Option<Summary>, upsellOptions: Option<seq<UpsellOption>>, payload: Option<Payload>,
                         error: Option<RequestError>)
      requires pendingFetches > 0
      modifies this`pendingFetches, this`upsellData, this`upsellOptions, this`summary, this`log
      ensures pendingFetches == old(pendingFetches) - 1
      ensures summary.None? ==>
                && upsellData == old(upsellData) && this.upsellOptions == old(this.upsellOptions)
                && this.summary == old(this.summary)
                && log == old(log) + [DidUpdate(None, Some(MessageFor(error)))]
      ensures summary.Some? ==>
                && upsellData == Some((productTemplate, payload)) && this.upsellOptions == upsellOptions
                && this.summary == summary
                && log == old(log) + [DidUpdate(summary, None)] + (if IsPreviewImageUrlReady() then [DidSetPreviewImageUrl] else [])
    {
      pendingFetches := pendingFetches - 1;
      if summary.None? {
        log := log + [DidUpdate(None, Some(MessageFor(error)))];
        return;
      }
      upsellData := Some((productTemplate, payload));
      this.upsellOptions := upsellOptions;
      HandleReceivingSummary(summary.value);
    }

    /** Stores a received summary, reports it, and reports the preview when it has become ready. */
    method HandleReceivingSummary(received: Summary)
      modifies this`summary, this`log
      ensures summary == Some(received)
      ensures IsPreviewImageUrlReady() <==> pigCoverUrl.Some?
      ensures log == old(log) + [DidUpdate(Some(received), None)] + (if pigCoverUrl.Some? then [DidSetPreviewImageUrl] else [])
    {
      summary := Some(received);
      log := log + [DidUpdate(Some(received), None)];
      if IsPreviewImageUrlReady() {
        log := log + [DidSetPreviewImageUrl];
      }
    }

    /** Setting the cover snapshot passes it to the product and uploads it. */
    method SetCoverPageSnapshotImage(image: Option<Image>)
      requires Valid()
      modifies this`coverPageSnapshotImage, this`coverSnapshot, this`isUploadingCoverImage, this`pendingCoverUploads, this`log
      ensures Valid()
      ensures coverPageSnapshotImage == image && coverSnapshot == image
      ensures image.None? ==>
                && isUploadingCoverImage == old(isUploadingCoverImage) && pendingCoverUploads == old(pendingCoverUploads)
                && log == old(log) + [FailedToSetPreviewImageUrl]
      ensures image.Some? ==>
                && isUploadingCoverImage && pendingCoverUploads == old(pendingCoverUploads) + 1
                && log == old(log) + [CoverUploadRequested(image.value)]
    {
      coverPageSnapshotImage := image;
      coverSnapshot := image;
      UploadCoverImage();
    }

    /** Uploads the cover snapshot; with none, setting the preview fails at once. */
    method UploadCoverImage()
      requires Valid()
      modifies this`isUploadingCoverImage, this`pendingCoverUploads, this`log
      ensures Valid()
      ensures coverPageSnapshotImage.None? ==>
                && isUploadingCoverImage == old(isUploadingCoverImage) && pendingCoverUploads == old(pendingCoverUploads)
                && log == old(log) + [FailedToSetPreviewImageUrl]
      ensures coverPageSnapshotImage.Some? ==>
                && isUploadingCoverImage && pendingCoverUploads == old(pendingCoverUploads) + 1
                && log == old(log) + [CoverUploadRequested(coverPageSnapshotImage.value)]
    {
      if coverPageSnapshotImage.None? {
        log := log + [FailedToSetPreviewImageUrl];
        return;
      }
      isUploadingCoverImage := true;
      pendingCoverUploads := pendingCoverUploads + 1;
      log := log + [CoverUploadRequested(coverPageSnapshotImage.value)];
    }

    /**
     * The cover upload answered: the cover is no longer uploading; a failure is
     * reported; otherwise the product takes the URL and the preview is reported
     * when it is ready.
     */
    method CoverUploadResponse(url: Option<string>, failed: bool)
      requires Valid() && pendingCoverUploads > 0
      modifies this`isUploadingCoverImage, this`pendingCoverUploads, this`pigCoverUrl, this`log
      ensures Valid()
      ensures !isUploadingCoverImage && pendingCoverUploads == old(pendingCoverUploads) - 1
      ensures failed ==> pigCoverUrl == old(pigCoverUrl) && log == old(log) + [FailedToSetPreviewImageUrl]
      ensures !failed ==>
                && pigCoverUrl == url
                && log == old(log) + (if IsPreviewImageUrlReady() then [DidSetPreviewImageUrl] else [])
      ensures DidSetPreviewImageUrl in log[|old(log)|..] ==> IsPreviewImageUrlReady()
    {
      pendingCoverUploads := pendingCoverUploads - 1;
      isUploadingCoverImage := false;
      if failed {
        log := log + [FailedToSetPreviewImageUrl];
        return;
      }
      pigCoverUrl := url;
      if IsPreviewImageUrlReady() {
        log := log + [DidSetPreviewImageUrl];
      }
    }
  }

  /** A selected option the backend refuses is deselected again and reported with the generic error. */
  method RefusedSelectionRollsBack(option: UpsellOption, summary: Summary)
  {
    var m := new OrderSummaryManager(Some([PhotobookTemplate(1)]), PhotobookTemplate(1), None);
    m.ToggleUpsellOption(option);
    assert m.selectedUpsellOptions == {option};
    m.ApplyResponse(0, Some(summary), Some(2), None, None);
    assert m.selectedUpsellOptions == {};
    assert m.log[|m.log| - 1] == FailedToApply(option, ErrorMessage(ClientError(Clients.Generic)));
    assert m.summary.None?;
  }
}
