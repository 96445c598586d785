/**
 * The network client (Photobook/Model/Clients/APIClient.swift): the pure
 * helpers it builds requests with, and the table that ties background upload
 * tasks to the semantic references their completions are reported under.
 */
module Clients {
  import opened Wrappers

  newtype byte = x: int | 0 <= x < 256

  datatype APIClientError = Generic | Parsing(details: string) | Connection | Server(code: int, message: string)

  /** The backends requests can be addressed to. */
  datatype APIContext = NoContext | Photobook | Pig | Kite

  /** The tag the client puts in front of every task reference it stores. */
  const Prefix: string := "APIClient-AssetUploader-"

  /** The base URL of each backend; only the empty context has none, and every other one is HTTPS. */
  function BaseURLString(context: APIContext): (r: string)
    ensures r == "" <==> context == NoContext
    ensures context != NoContext ==> "https://" <= r
  {
    match context
    case NoContext => ""
    case Photobook => "https://photobook-builder.herokuapp.com"
    case Pig => "https://image.kite.ly/"
    case Kite => "https://api.kite.ly/"
  }

  // ---------------------------------------------------------------------------
  // Image type and multipart framing

  datatype ImageType = Jpeg | Png

  /** The name an image type has when interpolated into a string. */
  function ImageTypeName(t: ImageType): string {
    match t
    case Jpeg => "jpeg"
    case Png => "png"
  }

  /** Lower-casing of one character (ASCII letters only). */
  function LowerChar(c: char): char {
    if 'A' <= c <= 'Z' then (c as int + 32) as char else c
  }

  function Lowercased(s: string): (r: string)
    ensures |r| == |s|
    ensures forall i :: 0 <= i < |s| ==> r[i] == LowerChar(s[i])
  {
    seq(|s|, i requires 0 <= i < |s| => LowerChar(s[i]))
  }

  predicate HasSuffix(s: string, suffix: string) {
    |suffix| <= |s| && s[|s| - |suffix|..] == suffix
  }

  /** A file name is a PNG exactly when its last four characters read `.png` in any case; everything else is a JPEG. */
  function ImageTypeFor(fileName: string): (r: ImageType)
    ensures r == Png <==>
              |fileName| >= 4 && fileName[|fileName| - 4] == '.'
              && LowerChar(fileName[|fileName| - 3]) == 'p'
              && LowerChar(fileName[|fileName| - 2]) == 'n'
              && LowerChar(fileName[|fileName| - 1]) == 'g'
  {
    var lower := Lowercased(fileName);
    PngSuffix(lower);
    if HasSuffix(lower, ".png") then Png else Jpeg
  }

  /** A string ends in `.png` exactly when its last four characters are those. */
  lemma PngSuffix(s: string)
    ensures HasSuffix(s, ".png") <==>
              |s| >= 4 && s[|s| - 4] == '.' && s[|s| - 3] == 'p' && s[|s| - 2] == 'n' && s[|s| - 1] == 'g'
  {
    if |s| >= 4 {
      assert s[|s| - 4..] == [s[|s| - 4], s[|s| - 3], s[|s| - 2], s[|s| - 1]];
    }
  }

  /** The multipart header: boundary line, content disposition naming the file, content type, blank line. */
  function MultipartHeader(boundary: string, imageName: string): (r: string)
    ensures ("--" + boundary + "\r\n") <= r
    // straight after the boundary line, the content disposition names the file with its image type
    ensures ("--" + boundary + "\r\n" + DispositionLead + imageName + "." + ImageTypeName(ImageTypeFor(imageName)) + "\"\r\n") <= r
    ensures |r| == |"--" + boundary + "\r\n"| + |DispositionLead + imageName + "." + ImageTypeName(ImageTypeFor(imageName)) + "\"\r\n"|
                   + |"Content-Type: image/" + ImageTypeName(ImageTypeFor(imageName)) + "\r\n\r\n"|
    ensures HasSuffix(r, "Content-Type: image/" + ImageTypeName(ImageTypeFor(imageName)) + "\r\n\r\n")
  {
    var imageType := ImageTypeName(ImageTypeFor(imageName));
    var boundaryLine := "--" + boundary + "\r\n";
    var disposition := DispositionLead + imageName + "." + imageType + "\"\r\n";
    var contentType := "Content-Type: image/" + imageType + "\r\n\r\n";
    assert boundaryLine + disposition + contentType == boundaryLine + (disposition + contentType);
    boundaryLine + disposition + contentType
  }

  /** The content-disposition line up to the file name. */
  const DispositionLead := "Content-Disposition: form-data; charset=utf-8; name=\"file\"; filename=\""

  /** The file name and its image type can be read back from the header at fixed offsets. */
  lemma MultipartHeaderNamesFile(boundary: string, imageName: string)
    ensures var at := |boundary| + 4 + |DispositionLead|;
            var imageType := ImageTypeName(ImageTypeFor(imageName));
            && MultipartHeader(boundary, imageName)[at..at + |imageName|] == imageName
            && MultipartHeader(boundary, imageName)[at + |imageName|] == '.'
            && MultipartHeader(boundary, imageName)[at + |imageName| + 1..at + |imageName| + 1 + |imageType|] == imageType
  {
    var r := MultipartHeader(boundary, imageName);
    var imageType := ImageTypeName(ImageTypeFor(imageName));
    var line := "--" + boundary + "\r\n" + DispositionLead + imageName + "." + imageType + "\"\r\n";
    var at := |boundary| + 4 + |DispositionLead|;
    assert line <= r;
    assert line[at..at + |imageName|] == imageName;
    assert line[at + |imageName| + 1..at + |imageName| + 1 + |imageType|] == imageType;
  }

  /** The closing boundary line: the header's boundary marker, closed by `--`, on a line of its own. */
  function MultipartFooter(boundary: string): (r: string)
    ensures |r| == |boundary| + 8
    ensures r[..2] == "\r\n" && r[2..|r| - 4] == "--" + boundary && r[|r| - 4..] == "--\r\n"
  {
    "\r\n--" + boundary + "--\r\n"
  }

  /** The content of the file an upload sends: encoded header, the image bytes, encoded footer. */
  function MultipartFile(imageData: seq<byte>, imageName: string, boundary: string, utf8: string -> seq<byte>): (r: seq<byte>)
    ensures |r| == |utf8(MultipartHeader(boundary, imageName))| + |imageData| + |utf8(MultipartFooter(boundary))|
    ensures r[..|utf8(MultipartHeader(boundary, imageName))|] == utf8(MultipartHeader(boundary, imageName))
    ensures r[|utf8(MultipartHeader(boundary, imageName))|..|r| - |utf8(MultipartFooter(boundary))|] == imageData
    ensures r[|r| - |utf8(MultipartFooter(boundary))|..] == utf8(MultipartFooter(boundary))
  {
    var header := utf8(MultipartHeader(boundary, imageName));
    var footer := utf8(MultipartFooter(boundary));
    var r := header + imageData + footer;
    assert r[..|header|] == header;
    assert r[|header|..|r| - |footer|] == imageData;
    assert r[|r| - |footer|..] == footer;
    r
  }

  /** Reads the image bytes back out of an upload file, when it is framed for this name and boundary. */
  function MultipartImage(file: seq<byte>, imageName: string, boundary: string, utf8: string -> seq<byte>): Option<seq<byte>> {
    var header := utf8(MultipartHeader(boundary, imageName));
    var footer := utf8(MultipartFooter(boundary));
    if |header| + |footer| <= |file| && file[..|header|] == header && file[|file| - |footer|..] == footer then
      Some(file[|header|..|file| - |footer|])
    else None
  }

  /** Framing loses nothing: the image bytes can be read back from the file. */
  lemma MultipartImageOfFile(imageData: seq<byte>, imageName: string, boundary: string, utf8: string -> seq<byte>)
    ensures MultipartImage(MultipartFile(imageData, imageName, boundary, utf8), imageName, boundary, utf8) == Some(imageData)
  {
  }

  // ---------------------------------------------------------------------------
  // Transport errors of data tasks

  /** CFNetwork error codes the classification singles out. */
  const BadServerResponse: int := -1011
  const SecureConnectionFailed: int := -1200
  const UnknownNetworkError: int := -998

  /** What a failed data task reports: the `NSError` code and its localized description. */
  datatype TransportError = TransportError(code: int, description: string)

  /** The range of codes reported as a connection failure (it contains the bad-server-response code). */
  predicate InConnectionRange(code: int) {
    SecureConnectionFailed <= code < UnknownNetworkError
  }

  /**
   * Classifies a transport error, first match winning: a bad server response is
   * a server error 500, the rest of the connection range a connection error,
   * anything else a server error carrying the code and description.
   */
  function ClassifyTransportError(e: TransportError): (r: APIClientError)
    ensures r.Connection? <==> InConnectionRange(e.code) && e.code != BadServerResponse
    ensures r.Server? <==> !r.Connection?
    ensures e.code == BadServerResponse ==> r == Server(500, "")
    ensures r.Server? && e.code != BadServerResponse ==> r.code == e.code && r.message == e.description
  {
    if e.code == BadServerResponse then Server(500, "")
    else if InConnectionRange(e.code) then Connection
    else Server(e.code, e.description)
  }

  /** The bad-server-response code lies in the connection range, yet is reported as a server error. */
  lemma BadServerResponseWinsOverConnection(description: string)
    ensures InConnectionRange(BadServerResponse)
    ensures ClassifyTransportError(TransportError(BadServerResponse, description)) == Server(500, "")
  {
  }

  // ---------------------------------------------------------------------------
  // Query items of GET requests

  datatype ParameterValue = StringParameter(s: string) | IntParameter(i: int) | UnsupportedParameter
  datatype QueryItem = QueryItem(name: string, value: string)

  function DigitChar(d: nat): (c: char)
    requires d < 10
    ensures '0' <= c <= '9'
  {
    ('0' as int + d) as char
  }

  predicate IsDigits(s: string) {
    forall i :: 0 <= i < |s| ==> '0' <= s[i] <= '9'
  }

  /** The decimal digits of a natural number, most significant first. */
  function NatDigits(n: nat): (r: string)
    ensures |r| >= 1 && IsDigits(r)
    decreases n
  {
    if n < 10 then [DigitChar(n)] else NatDigits(n / 10) + [DigitChar(n % 10)]
  }

  /** `String(_: Int)`: the decimal rendering with a leading minus for negatives. */
  function DecimalString(i: int): (r: string)
    ensures |r| >= 1
    ensures r[0] == '-' <==> i < 0
    ensures IsDigits(if i < 0 then r[1..] else r)
  {
    if i < 0 then "-" + NatDigits(-i) else NatDigits(i)
  }

  /** The number a string of digits denotes. */
  function DigitsValue(s: string): nat
    requires IsDigits(s)
  {
    if s == [] then 0 else DigitsValue(s[..|s| - 1]) * 10 + (s[|s| - 1] as int - '0' as int)
  }

  /** Reads back a decimal rendering. */
  function ParseDecimal(s: string): Option<int> {
    if |s| >= 2 && s[0] == '-' && IsDigits(s[1..]) then
      var negative: int := 0 - DigitsValue(s[1..]);
      Some(negative)
    else if |s| >= 1 && IsDigits(s) then Some(DigitsValue(s))
    else None
  }

  lemma {:induction false} DigitsValueOfNatDigits(n: nat)
    ensures DigitsValue(NatDigits(n)) == n
    decreases n
  {
    if n >= 10 {
      var s := NatDigits(n);
      assert s[..|s| - 1] == NatDigits(n / 10);
      DigitsValueOfNatDigits(n / 10);
    }
  }

  /** The decimal rendering of an integer reads back as that integer. */
  lemma ParseDecimalOfDecimalString(i: int)
    ensures ParseDecimal(DecimalString(i)) == Some(i)
  {
    if i < 0 {
      ReadBackNegative(-i);
    } else {
      ReadBackNatural(i);
    }
  }

  lemma ReadBackNatural(n: nat)
    ensures ParseDecimal(NatDigits(n)) == Some(n)
  {
    var s := NatDigits(n);
    assert s[0] != '-' by {
      assert IsDigits(s);
    }
    DigitsValueOfNatDigits(n);
  }

  lemma ReadBackNegative(n: nat)
    ensures ParseDecimal("-" + NatDigits(n)) == Some(0 - n)
  {
    var digits := NatDigits(n);
    var s := "-" + digits;
    assert s[0] == '-' && s[1..] == digits;
    DigitsValueOfNatDigits(n);
  }

  /** The query value of a supported parameter. */
  function RenderedParameter(v: ParameterValue): string
    requires !v.UnsupportedParameter?
  {
    match v
    case StringParameter(s) => s
    case IntParameter(i) => DecimalString(i)
  }

  /**
   * Turns GET parameters, in the order the dictionary yields them, into query
   * items: strings as they are, integers in decimal. Any other value stops the
   * request (`None`, standing for the fatal error).
   */
  method QueryItems(parameters: seq<(string, ParameterValue)>) returns (r: Option<seq<QueryItem>>)
    ensures r.None? <==> exists k :: 0 <= k < |parameters| && parameters[k].1.UnsupportedParameter?
    ensures r.Some? ==> |r.value| == |parameters|
    ensures r.Some? ==> forall k :: 0 <= k < |parameters| ==>
              !parameters[k].1.UnsupportedParameter?
              && r.value[k] == QueryItem(parameters[k].0, RenderedParameter(parameters[k].1))
  {
    var items: seq<QueryItem> := [];
    var k := 0;
    while k < |parameters|
      invariant 0 <= k <= |parameters|
      invariant |items| == k
      invariant forall j :: 0 <= j < k ==>
                  (!parameters[j].1.UnsupportedParameter?
                   && items[j] == QueryItem(parameters[j].0, RenderedParameter(parameters[j].1)))
    {
      var (key, value) := parameters[k];
      var itemValue := "";
      match value {
        case StringParameter(s) => itemValue := s;
        case IntParameter(i) => itemValue := DecimalString(i);
        case UnsupportedParameter => return None;
      }
      items := items + [QueryItem(key, itemValue)];
      k := k + 1;
    }
    r := Some(items);
  }

  // ---------------------------------------------------------------------------
  // The background upload client

  /** A value of a notification's user info. */
  datatype UserInfoValue = StringValue(s: string) | ErrorValue(error: APIClientError) | OtherValue

  type UserInfo = map<string, UserInfoValue>

  /** A posted "background session task finished" notification; `None` when it has no user info. */
  datatype TaskFinished = TaskFinished(userInfo: Option<UserInfo>)

  /** An upload task handed to the background session. */
  datatype UploadTask = UploadTask(taskId: int, url: string, boundary: string, file: seq<byte>)

  /** A completion handler the system hands over when it wakes the app for finished tasks. */
  datatype Handler = Handler(id: nat)

  /** What the persisted task table file holds: the table, or no file when the table is empty. */
  function PersistedTable(table: map<int, string>): (r: Option<map<int, string>>)
    ensures r.None? <==> table == map[]
    ensures r.Some? ==> r.value == table
  {
    if table == map[] then None else Some(table)
  }

  class APIClient {
    /** UTF-8 encoding of strings. */
    const utf8: string -> seq<byte>

    /** Upload task identifiers to the references their completions report. */
    var taskReferences: map<int, string>
    /** The contents of the task table file; `None` when there is no file. */
    var uploadTasksFile: Option<map<int, string>>
    var backgroundSessionCompletionHandler: Option<Handler>
    var backgroundSessionCreated: bool

    /** Notifications posted, in order. */
    ghost var posted: seq<TaskFinished>
    /** Upload tasks created, in order. */
    ghost var uploads: seq<UploadTask>
    /** Completion handlers called, in order. */
    ghost var handlersCalled: seq<Handler>

    /** Every stored reference carries the client's prefix. */
    ghost predicate Prefixed()
      reads this
    {
      forall id :: id in taskReferences ==> Prefix <= taskReferences[id]
    }

    /** The client at launch, with the table read back from the file (or empty without one). */
    constructor (utf8: string -> seq<byte>, storedTable: Option<map<int, string>>)
      ensures this.utf8 == utf8
      ensures taskReferences == storedTable.GetOr(map[])
      ensures uploadTasksFile == storedTable
      ensures backgroundSessionCompletionHandler.None? && !backgroundSessionCreated
      ensures posted == [] && uploads == [] && handlersCalled == []
    {
      this.utf8 := utf8;
      taskReferences := storedTable.GetOr(map[]);
      uploadTasksFile := storedTable;
      backgroundSessionCompletionHandler := None;
      backgroundSessionCreated := false;
      posted := [];
      uploads := [];
      handlersCalled := [];
    }

    /** Writes the table to its file, or removes the file when the table is empty. */
    method SavePendingTasks()
      modifies this`uploadTasksFile
      ensures uploadTasksFile == PersistedTable(taskReferences)
    {
      if taskReferences == map[] {
        uploadTasksFile := None;
        return;
      }
      uploadTasksFile := Some(taskReferences);
    }

    /**
     * Starts a background upload of `data` as `imageName`. The session assigns
     * `taskId`; the boundary is built from `uuid`. With a reference, the task is
     * entered in the table under the prefixed reference and the table is saved.
     */
    method UploadImage(data: seq<byte>, imageName: string, reference: Option<string>, taskId: int, uuid: string)
      modifies this`taskReferences, this`uploadTasksFile, this`backgroundSessionCreated, this`uploads
      ensures reference.Some? ==> taskReferences == old(taskReferences)[taskId := Prefix + reference.value]
      ensures reference.Some? ==> uploadTasksFile == PersistedTable(taskReferences)
      ensures reference.None? ==> taskReferences == old(taskReferences) && uploadTasksFile == old(uploadTasksFile)
      ensures uploads == old(uploads) + [UploadTask(taskId, BaseURLString(Pig) + "upload/", "Boundary-" + uuid,
                                                    MultipartFile(data, imageName, "Boundary-" + uuid, utf8))]
      ensures backgroundSessionCreated
      ensures old(Prefixed()) ==> Prefixed()
    {
      var boundary := "Boundary-" + uuid;
      var file := MultipartFile(data, imageName, boundary, utf8);
      backgroundSessionCreated := true;
      uploads := uploads + [UploadTask(taskId, BaseURLString(Pig) + "upload/", boundary, file)];
      if reference.Some? {
        taskReferences := taskReferences[taskId := Prefix + reference.value];
        SavePendingTasks();
      }
    }

    /**
     * A background task received its response body. A body that is not a JSON
     * dictionary is reported with no user info; otherwise the task's reference,
     * if any, is taken out of the table and added as `task_reference`.
     */
    method DidReceiveData(taskId: int, json: Option<UserInfo>)
      modifies this`taskReferences, this`posted
      ensures json.None? ==> taskReferences == old(taskReferences) && posted == old(posted) + [TaskFinished(None)]
      ensures json.Some? && taskId in old(taskReferences) ==>
                taskReferences == old(taskReferences) - {taskId}
                && posted == old(posted) + [TaskFinished(Some(json.value["task_reference" := StringValue(old(taskReferences)[taskId])]))]
      ensures json.Some? && taskId !in old(taskReferences) ==>
                taskReferences == old(taskReferences) && posted == old(posted) + [TaskFinished(json)]
      ensures old(Prefixed()) ==> Prefixed()
    {
      if json.None? {
        posted := posted + [TaskFinished(None)];
        return;
      }
      var userInfo := json.value;
      if taskId in taskReferences {
        var reference := taskReferences[taskId];
        taskReferences := taskReferences - {taskId};
        userInfo := userInfo["task_reference" := StringValue(reference)];
      }
      posted := posted + [TaskFinished(Some(userInfo))];
    }

    /**
     * A task completed. Only failures of the background session (one with a
     * configuration identifier) are handled: the task's reference leaves the
     * table and a server error with the error's code and description is posted.
     */
    method DidCompleteWithError(taskId: int, sessionIdentifier: Option<string>, error: Option<TransportError>)
      modifies this`taskReferences, this`posted
      ensures sessionIdentifier.None? || error.None? ==>
                taskReferences == old(taskReferences) && posted == old(posted)
      ensures sessionIdentifier.Some? && error.Some? ==>
                taskReferences == old(taskReferences) - {taskId}
                && posted == old(posted) + [TaskFinished(Some(
                     var userInfo := map["error" := ErrorValue(Server(error.value.code, error.value.description))];
                     if taskId in old(taskReferences) then userInfo["task_reference" := StringValue(old(taskReferences)[taskId])]
                     else userInfo))]
      ensures old(Prefixed()) ==> Prefixed()
    {
      if sessionIdentifier.None? {
        return;
      }
      if error.Some? {
        var userInfo := map["error" := ErrorValue(Server(error.value.code, error.value.description))];
        if taskId in taskReferences {
          var reference := taskReferences[taskId];
          taskReferences := taskReferences - {taskId};
          userInfo := userInfo["task_reference" := StringValue(reference)];
        }
        posted := posted + [TaskFinished(Some(userInfo))];
      }
    }

    /** Reattaches to the background session on a launch by the system, keeping its completion handler. */
    method RecreateBackgroundSession(handler: Option<Handler>)
      modifies this`backgroundSessionCompletionHandler, this`backgroundSessionCreated
      ensures backgroundSessionCompletionHandler == handler && backgroundSessionCreated
    {
      backgroundSessionCompletionHandler := handler;
      backgroundSessionCreated := true;
    }

    /** All events of the background session were delivered: the stored handler is called, once, and dropped. */
    method DidFinishEvents()
      modifies this`backgroundSessionCompletionHandler, this`handlersCalled
      ensures backgroundSessionCompletionHandler.None?
      ensures handlersCalled == old(handlersCalled) + (if old(backgroundSessionCompletionHandler).Some? then [old(backgroundSessionCompletionHandler).value] else [])
    {
      if backgroundSessionCompletionHandler.Some? {
        handlersCalled := handlersCalled + [backgroundSessionCompletionHandler.value];
        backgroundSessionCompletionHandler := None;
      }
    }
  }

  /** A handler handed over at relaunch is called once however often the session reports the end of its events. */
  method HandlerCalledOnce(client: APIClient, handler: Handler)
    modifies client
  {
    client.RecreateBackgroundSession(Some(handler));
    ghost var before := client.handlersCalled;
    client.DidFinishEvents();
    client.DidFinishEvents();
    assert client.handlersCalled == before + [handler];
  }
}
