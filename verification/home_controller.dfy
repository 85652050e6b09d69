/** The deterministic logic of the MVC controller that sends a SharePoint list item to the
    signature service and stores the signed result back in the list. Every call into
    SharePoint, the signature service, the HTTP client and the MVC URL helpers is a parameter. */
module HomeController {
  import opened Results
  import opened Strings
  import opened DocumentService

  /** The service credentials sent with every call. */
  const Password: string := "<INSERT PASSWORD FOR SERVICE>"
  const ServiceName: string := "shared"

  const DocumentId: string := "doc_1"
  const TaskId: string := "task_1"
  const PdfMimeType: string := "application/pdf"
  const SignText: string :=
    "I have read and understood the document which has been presented to me, and I agree to its contents with my signature."

  /** The token the service replaces with the request id before calling back. */
  const RequestIdPlaceholder: string := "${requestId}"

  /** Content types of signed document objects that are stored as XML. */
  const SdoContentType: string := "application/x-ltv-sdo"

  /** What the .NET code would have thrown, or the null it would have dereferenced. */
  datatype Fault =
    | InvalidListId        // Guid.Parse rejected the list id
    | ItemNotFound         // SharePoint has no such list or item
    | NoRequestId          // createRequest returned no request id
    | NoStatus             // getStatus returned no entry
    | NoDocumentStatus     // the first entry's document status array is empty
    | NoContentType        // the download carried no Content-Type header
    | EmptyRedirectUrl     // Redirect was given a null or empty URL

  /** The list item fields the controller loads from SharePoint. */
  datatype ListItem = ListItem(displayName: string, file: seq<byte>)

  /** The item SharePoint returns for a list id and an item id, if there is one. */
  type ItemLookup = (string, string) -> Option<ListItem>

  /** Builds the document to be signed. `context` is None when no client context could be
      created for the SharePoint host; then the name and the content are left unset. */
  function GetDocumentForSigning(listId: string, itemId: string, context: Option<ItemLookup>,
                                 isGuid: string -> bool): (r: Result<ProvidedDocument, Fault>)
    ensures r.Success? ==> && r.value.externalReference == itemId
                           && r.value.id == DocumentId
                           && r.value.mimeType == PdfMimeType
                           && r.value.signTextEntry == SignText
    ensures context.None? ==> r.Success? && r.value.description.None? && r.value.data.None?
    ensures context.Some? ==> (r.Success? <==> isGuid(listId) && context.value(listId, itemId).Some?)
    ensures context.Some? && r.Success? ==>
              && r.value.description == Some(context.value(listId, itemId).value.displayName)
              && r.value.data == Some(context.value(listId, itemId).value.file)
    ensures context.Some? && !isGuid(listId) ==> r == Failure(InvalidListId)
  {
    var document := ProvidedDocument(itemId, DocumentId, PdfMimeType, SignText, None, None);
    match context
    case None => Success(document)
    case Some(lookup) =>
      if !isGuid(listId) then Failure(InvalidListId)
      else match lookup(listId, itemId)
        case None => Failure(ItemNotFound)
        case Some(item) =>
          Success(document.(description := Some(item.displayName), data := Some(item.file)))
  }

  /** A null argument of Url.Encode comes back null, which string formatting writes as "". */
  function EncodeOrEmpty(encode: string -> string, s: Option<string>): string
  {
    match s
    case None => ""
    case Some(v) => encode(v)
  }

  /** The query string every callback URL carries: the request id placeholder, then the
      encoded list id, document name, source URL and list directory. */
  function CallbackQuery(listId: string, documentName: Option<string>, source: string,
                         listDir: string, encode: string -> string): string
  {
    "?rid=" + RequestIdPlaceholder + "&"
    + "SPListId=" + encode(listId)
    + "&documentName=" + EncodeOrEmpty(encode, documentName)
    + "&SPSource=" + encode(source)
    + "&SPListURLDir=" + encode(listDir)
  }

  /** Builds the single-order, single-task signature request for `document`.
      `returnAction` is the absolute URL of the Return action. */
  function GetRequest(document: ProvidedDocument, signingMethod: string, listId: string,
                      source: string, listDir: string, returnAction: string,
                      encode: string -> string): (r: CreateRequestRequest)
    ensures r.password == Password && r.service == ServiceName
    ensures |r.request| == 1
    ensures r.request[0].profile == "slim" && r.request[0].language == "en"
    ensures r.request[0].document == [document]
    ensures |r.request[0].task| == 1
    ensures var t := r.request[0].task[0];
      && t.id == TaskId
      && !t.bundle && t.bundleSpecified
      && t.onTaskComplete == returnAction + CallbackQuery(listId, document.description, source, listDir, encode)
      && t.onTaskCancel == t.onTaskComplete
      && t.onTaskPostpone == t.onTaskComplete
      && t.documentAction == [DocumentAction(Sign, document.id, true, true)]
      && t.signature == [Signature([signingMethod])]
      && t.authentication.artifact && t.authentication.artifactSpecified
  {
    var queryString := CallbackQuery(listId, document.description, source, listDir, encode);
    var task := Task(
      TaskId, false, true,
      returnAction + queryString,
      returnAction + queryString,
      returnAction + queryString,
      [DocumentAction(Sign, document.id, true, true)],
      [Signature([signingMethod])],
      Authentication(true, true));
    CreateRequestRequest(Password, ServiceName, [Request("slim", "en", [document], [task])])
  }

  const SigningEnvironment: string := "preprod"
  const SigningProduct: string := "signicat"

  /** The provider's hosted signing page for one task of one request. */
  function SignUrl(requestId: string, taskId: string, artifact: string): string
  {
    "https://" + SigningEnvironment + ".signicat.com/std/docaction/" + SigningProduct
    + "?request_id=" + requestId + "&task_id=" + taskId + "&artifact=" + artifact
  }

  /** What the Sign action submitted and where it sends the user. */
  datatype SignOutcome = SignOutcome(submitted: CreateRequestRequest, location: string)

  /** The Sign action: build the document and the request, submit it, and redirect the user
      to the hosted signing page for the returned request id and the submitted task. */
  function SignDocument(listId: string, itemId: string, source: string, listDir: string,
                        signingMethod: string, context: Option<ItemLookup>, isGuid: string -> bool,
                        returnAction: string, encode: string -> string,
                        createRequest: CreateRequestRequest -> CreateRequestResponse)
    : (r: Result<SignOutcome, Fault>)
    ensures GetDocumentForSigning(listId, itemId, context, isGuid).Failure? ==>
              r == Failure(GetDocumentForSigning(listId, itemId, context, isGuid).error)
    ensures GetDocumentForSigning(listId, itemId, context, isGuid).Success? ==>
              var request := GetRequest(GetDocumentForSigning(listId, itemId, context, isGuid).value,
                                        signingMethod, listId, source, listDir, returnAction, encode);
              && (r.Success? <==> 0 < |createRequest(request).requestId|)
              && (r.Success? ==> r.value.submitted == request)
    ensures r.Success? ==>
              && |r.value.submitted.request| == 1 && |r.value.submitted.request[0].task| == 1
              && 0 < |createRequest(r.value.submitted).requestId|
              && r.value.location == SignUrl(createRequest(r.value.submitted).requestId[0],
                                             r.value.submitted.request[0].task[0].id,
                                             createRequest(r.value.submitted).artifact)
  {
    match GetDocumentForSigning(listId, itemId, context, isGuid)
    case Failure(e) => Failure(e)
    case Success(document) =>
      var request := GetRequest(document, signingMethod, listId, source, listDir, returnAction, encode);
      var response := createRequest(request);
      if |response.requestId| == 0 then Failure(NoRequestId)
      else
        Success(SignOutcome(request,
          SignUrl(response.requestId[0], request.request[0].task[0].id, response.artifact)))
  }

  /** The status query for one request id, with the service credentials. */
  function StatusRequest(rid: string): (q: GetStatusRequest)
    ensures q.requestId == [rid]
    ensures q.password == Password && q.service == ServiceName
  {
    GetStatusRequest(Password, ServiceName, [rid])
  }

  /** The file extension under which a signed document object of content type `contentType`
      is stored: XML for the SDO content type and anything it prefixes, PDF otherwise. */
  function ExtensionFor(contentType: string): (ext: string)
    ensures ext == ".xml" <==> SdoContentType <= contentType
    ensures ext == ".pdf" <==> !(SdoContentType <= contentType)
  {
    StartsWithIsPrefix(contentType, SdoContentType);
    if StartsWith(contentType, SdoContentType) then ".xml" else ".pdf"
  }

  /** Where the signed copy of `documentName` is stored in the list directory `listDir`. */
  function SignedFileUrl(hostUrl: string, listDir: string, documentName: string, ext: string): string
  {
    hostUrl + listDir + "/" + documentName + " - SIGNED" + ext
  }

  /** The bytes and the Content-Type header an HTTP GET returned. */
  datatype Download = Download(content: seq<byte>, contentType: Option<string>)

  /** A file to be added to a SharePoint list folder. */
  datatype FileCreation = FileCreation(url: string, content: seq<byte>, overwrite: bool)

  /** What the Return action did before redirecting the user to `target`. */
  datatype Completion =
    | Redirect(target: string)
    | DownloadThenRedirect(resultUri: string, target: string)
    | UploadThenRedirect(resultUri: string, upload: FileCreation, target: string)

  /** Ends the action with a redirect to `source`; MVC refuses a null or empty URL, and an
      empty query value binds as null, so "" stands for both. */
  function RedirectTo(c: Completion, source: string): (r: Result<Completion, Fault>)
  {
    if source == "" then Failure(EmptyRedirectUrl) else Success(c)
  }

  /** The Return action. `getStatus` and `download` stand for the service and HTTP calls;
      `hasContext` says whether a SharePoint client context was obtained for the upload. */
  function Return(rid: string, listId: string, documentName: string, source: string,
                  listDir: string, hostUrl: string,
                  getStatus: GetStatusRequest -> seq<StatusEntry>,
                  download: string -> Download, hasContext: bool, isGuid: string -> bool)
    : (r: Result<Completion, Fault>)
    ensures r.Success? ==> r.value.target == source && source != ""
    ensures var status := getStatus(StatusRequest(rid));
      && (0 < |status| && status[0].documentStatus.None? ==>
            r == if source == "" then Failure(EmptyRedirectUrl) else Success(Redirect(source)))
      && (r.Success? && r.value.Redirect? ==> 0 < |status| && status[0].documentStatus.None?)
      && (r.Success? && !r.value.Redirect? ==>
            && 0 < |status| && status[0].documentStatus.Some? && 0 < |status[0].documentStatus.value|
            && r.value.resultUri == status[0].documentStatus.value[0].resultUri)
    ensures r.Success? && r.value.UploadThenRedirect? ==>
              && hasContext && isGuid(listId)
              && download(r.value.resultUri).contentType.Some?
              && r.value.upload.content == download(r.value.resultUri).content
              && r.value.upload.overwrite
              && r.value.upload.url == hostUrl + listDir + "/" + documentName + " - SIGNED"
                                       + ExtensionFor(download(r.value.resultUri).contentType.value)
    ensures r.Success? && r.value.DownloadThenRedirect? ==> !hasContext
    ensures var status := getStatus(StatusRequest(rid));
      r.Failure? <==>
        || |status| == 0
        || (status[0].documentStatus.Some? &&
            (|status[0].documentStatus.value| == 0 ||
             (hasContext && (!isGuid(listId) ||
                             download(status[0].documentStatus.value[0].resultUri).contentType.None?))))
        || source == ""
  {
    var status := getStatus(StatusRequest(rid));
    if |status| == 0 then Failure(NoStatus)
    else match status[0].documentStatus
      case None => RedirectTo(Redirect(source), source)
      case Some(documentStatus) =>
        if |documentStatus| == 0 then Failure(NoDocumentStatus)
        else
          var resultUri := documentStatus[0].resultUri;
          var sdo := download(resultUri);
          if !hasContext then RedirectTo(DownloadThenRedirect(resultUri, source), source)
          else if !isGuid(listId) then Failure(InvalidListId)
          else match sdo.contentType
            case None => Failure(NoContentType)
            case Some(contentType) =>
              var upload := FileCreation(
                SignedFileUrl(hostUrl, listDir, documentName, ExtensionFor(contentType)), sdo.content, true);
              RedirectTo(UploadThenRedirect(resultUri, upload, source), source)
  }
}
