/** The data types of the signature service's document endpoint, as the controller fills them.
    Only the fields the controller reads or writes are present. */
module DocumentService {
  import opened Results

  newtype byte = b: int | 0 <= b < 256

  /** A document handed to the service to be signed. `description` and `data` stay unset
      (null) unless SharePoint supplied them. */
  datatype ProvidedDocument = ProvidedDocument(
    externalReference: string,
    id: string,
    mimeType: string,
    signTextEntry: string,
    description: Option<string>,
    data: Option<seq<byte>>)

  /** The kinds of document action the controller uses. */
  datatype DocumentActionType = Sign

  datatype DocumentAction = DocumentAction(
    actionType: DocumentActionType,
    documentRef: string,
    sendResultToArchive: bool,
    sendResultToArchiveSpecified: bool)

  /** The signature methods offered to the signer. */
  datatype Signature = Signature(methods: seq<string>)

  datatype Authentication = Authentication(artifact: bool, artifactSpecified: bool)

  /** One signing task with its callback URLs. */
  datatype Task = Task(
    id: string,
    bundle: bool,
    bundleSpecified: bool,
    onTaskComplete: string,
    onTaskCancel: string,
    onTaskPostpone: string,
    documentAction: seq<DocumentAction>,
    signature: seq<Signature>,
    authentication: Authentication)

  /** One document order. */
  datatype Request = Request(
    profile: string,
    language: string,
    document: seq<ProvidedDocument>,
    task: seq<Task>)

  /** The argument of createRequest: service credentials and the orders. */
  datatype CreateRequestRequest = CreateRequestRequest(
    password: string,
    service: string,
    request: seq<Request>)

  /** The reply of createRequest: one id per order, and the artifact for the hosted page. */
  datatype CreateRequestResponse = CreateRequestResponse(requestId: seq<string>, artifact: string)

  /** The argument of getStatus. */
  datatype GetStatusRequest = GetStatusRequest(
    password: string,
    service: string,
    requestId: seq<string>)

  /** Where the signed document object of one document can be fetched. */
  datatype DocumentStatus = DocumentStatus(resultUri: string)

  /** One entry of the getStatus reply; `documentStatus` is null while nothing was signed. */
  datatype StatusEntry = StatusEntry(documentStatus: Option<seq<DocumentStatus>>)
}
