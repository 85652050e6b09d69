# SharePoint-to-Signicat signing controller, modelled in Dafny

The system is one ASP.NET MVC controller. It takes a document from a SharePoint list and sends
it to the Signicat document service to be signed. It then sends the user to Signicat's hosted
signing page. When Signicat calls back, the controller fetches the signed document object (SDO)
and stores it next to the original in the same list.

This project models the controller's deterministic logic as pure functions:

- building the provided document from the list item;
- building the single-order, single-task signature request, with its three callback URLs;
- building the URL of the hosted signing page;
- the completion decision on callback: redirect only, or download, upload and then redirect;
- choosing the file extension of the signed copy from its content type.

Every call into SharePoint, the document service, the HTTP client and the MVC URL helpers is a
parameter of these functions. The .NET exceptions named by the `Fault` values (a list id that is
not a GUID, a missing item, an empty request-id array, an empty status reply, an empty
document-status array, a missing Content-Type, an empty redirect URL) become `Failure(...)`
values. The exceptions the model does not see are listed under "## Left out"; in those cases
the model reports success.

Modules:

- `Results`: `Option` for .NET nulls, `Result` for values that would have thrown.
- `Strings`: ordinal `StartsWith`, `IndexOf`, and `Split`/`Join` with their round-trip.
- `Query`: query strings as `key=value` fields joined by `&`, with `Render`, `Parse`, `Lookup`
  and `Arguments`. The reader cuts fields at every `&` and each field at its first `=`.
  It is an independent decoder, used to state what the built URLs carry.
- `DocumentService`: the fields of the service's data types that the controller touches.
- `HomeController`: the controller's actions and helpers.
- `HomeControllerProperties`: round-trip and end-to-end lemmas across the actions.

On callback the code treats a `null` document-status array as "no signature result available"
(HomeController.cs lines 83-85) and only then redirects without a download. An empty but non-null
array is not that case: `First()` on line 91 throws. So `StatusEntry.documentStatus` is an
`Option<seq<DocumentStatus>>`: `None` gives a plain redirect, and `Some([])` is the fault
`NoDocumentStatus`.

## Model

| member | source | states |
|---|---|---|
| `Strings.StartsWithIsPrefix` | SPSignicatDemoWeb/Controllers/HomeController.cs:237 | The character-by-character `StartsWith` test holds exactly when the prefix is a sequence prefix of the content type. |
| `HomeController.ExtensionFor` | SPSignicatDemoWeb/Controllers/HomeController.cs:235-242 | The extension is ".xml" exactly when the content type starts with "application/x-ltv-sdo", and ".pdf" exactly when it does not. |
| `HomeController.GetDocumentForSigning` | SPSignicatDemoWeb/Controllers/HomeController.cs:130-168 | The document always has external reference = item id, id "doc_1", MIME type "application/pdf" and the fixed sign text. Without a client context the build succeeds with no description and no data. With a context it succeeds exactly when the list id parses as a GUID and the item exists, and then description = display name and data = file bytes. A bad list id gives `InvalidListId`. |
| `HomeController.GetRequest` | SPSignicatDemoWeb/Controllers/HomeController.cs:172-230 | The request carries the service credentials and exactly one order, with profile "slim" and language "en". The order holds exactly the input document, unchanged, and exactly one task. The task has id "task_1", bundle false (specified), and equal complete/cancel/postpone URLs = Return action URL + callback query. It has one `sign` action on the document's id with send-to-archive set, one signature whose method list is exactly [method], and artifact authentication enabled. |
| `HomeController.SignDocument` | SPSignicatDemoWeb/Controllers/HomeController.cs:41-66 | A document fault is passed through unchanged. Otherwise the action succeeds exactly when the service returns at least one request id. The submitted request is then the built one, and the redirect is the signing-page template filled with the first returned request id, the submitted task's id and the returned artifact. |
| `HomeController.Return` | SPSignicatDemoWeb/Controllers/HomeController.cs:68-125 | Every non-fault outcome redirects to SPSource, which is then non-empty. A first status entry with no document status gives a plain redirect, with no download and no upload, and a plain redirect happens only then. Any other outcome uses the first result URI of the first entry. An upload happens only with a client context and a valid list id. It sends the downloaded bytes unchanged, with Overwrite set, to host + list dir + "/" + document name + " - SIGNED" + extension of the content type. Without a context nothing is uploaded. The action faults exactly when the status reply is empty, the document-status array is empty, or (with a context) the list id is invalid or the Content-Type is missing, or when SPSource is empty (MVC refuses an empty redirect URL; an empty query value binds as null). |
| `HomeControllerProperties.CallbackQueryRenders` | SPSignicatDemoWeb/Controllers/HomeController.cs:174-177 | The callback query string is "?" followed by the fields rid=${requestId}, SPListId, documentName, SPSource and SPListURLDir, in that order, joined by "&". |
| `HomeControllerProperties.CallbackLookups` | SPSignicatDemoWeb/Controllers/HomeController.cs:176-177 | Each routing key of the callback query maps to its own encoded value: the list id, the description ("" when unset), the source URL and the list directory. |
| `HomeControllerProperties.CallbackCarriesRouting` | SPSignicatDemoWeb/Controllers/HomeController.cs:174-202 | Reading the query of the built request's callback URL gives back the request-id placeholder and the four encoded routing values, in order. This holds when the encoder never emits "&" and the Return action URL has no "?". All three callback URLs are the same string. |
| `HomeControllerProperties.SignUrlReadsBack` | SPSignicatDemoWeb/Controllers/HomeController.cs:58-64 | When neither the request id nor the task id holds "&", reading the signing-page URL back gives the request id and the task id it was built from, whatever the artifact is. |
| `HomeControllerProperties.SignUrlArguments` | SPSignicatDemoWeb/Controllers/HomeController.cs:58-64 | When none of the request id, the task id and the artifact holds "&", the signing-page URL carries exactly request_id, task_id and artifact, in that order, with the values it was built from. |
| `HomeControllerProperties.TaskIdRoundTrip` | SPSignicatDemoWeb/Controllers/HomeController.cs:58-66 | When the service's first returned request id holds no "&", then after a successful Sign the task_id read from the redirect equals the id of the submitted task, which is "task_1", and the request_id read from it equals that first returned id. |
| `HomeControllerProperties.SignedCopyStoredBesideOriginal` | SPSignicatDemoWeb/Controllers/HomeController.cs:68-125 | End to end: Sign is started for an existing item. The routing values are then read back from its callback URL and decoded by an inverse of the encoder. A completion callback whose status holds a result and whose download has a content type then uploads the downloaded bytes. The target is host + list dir + "/" + the item's display name + " - SIGNED" + the extension, and the user is redirected to the original source URL. An empty source URL makes the action fault with `EmptyRedirectUrl` instead. |

## Left out

- `Index` and `Ping` are not modelled. They only set two cookies, fill the ViewBag and render views, which is MVC plumbing.
- The cookie reads in `Return` (SPAppToken, SPHostURL) are not modelled. The host URL is a parameter, and a missing cookie (a null dereference) is not modelled.
- The SharePoint client object model is replaced by inputs: `Lists.GetById`, `GetItemById`, `Load`, `ExecuteQuery`, `OpenBinaryStream`, `Files.Add` and `ListItemAllFields.Update`. The item lookup is a function from (list id, item id) to an optional item. A null client context is `None`, or `hasContext = false` on upload. The upload itself is described by the `FileCreation` value in the outcome.
- The TokenHelper context-token validation and access-token exchange are not modelled; they are foreign calls. Their failures, and a host URL that `new Uri` rejects, are not modelled.
- The SOAP calls `createRequest` and `getStatus` are function parameters. Their network faults are not modelled.
- The `WebClient` basic-auth download is a function parameter from URI to bytes and an optional Content-Type. Download failures are not modelled.
- `Url.Encode` and `Url.Action` are parameters, because their internals are library code. The round-trip lemmas assume that the encoder never emits "&" and that a decoder undoes it. An unset description goes through `Url.Encode` as null and is written as "" by `string.Format`. `EncodeOrEmpty` models this.
- `Guid.Parse` is the parameter `isGuid`. The GUID text formats it accepts are not modelled.
- The signature service replacing `${requestId}` in the callback URL with the real request id happens outside the controller. The end-to-end lemma therefore takes the callback's request id as an input.
- Null values for the route parameters (a missing query parameter binds to null) are not modelled; they are plain strings. The end-to-end lemma's `Received` reads a missing parameter as "".
- `StartsWith` is modelled as an ordinal comparison. The culture-sensitive rules of `String.StartsWith(string)` are not modelled.
- The exact .NET exception types are not modelled; each throwing case is a named `Fault`. The disposal of clients and contexts in `using` blocks is not modelled.
- HomeController.Return: a fault that happens after the upload, such as `EmptyRedirectUrl`, does not record that the file was already added. Exceptions from `Files.Add`, `ListItemAllFields.Update` and `ExecuteQuery` (HomeController.cs lines 118-120) are not modelled: the model always reports the upload as done and the redirect as issued. These are SharePoint calls whose failures the model cannot see.
- The signing-page URL (HomeController.cs lines 58-64) writes the request id and the artifact without `Url.Encode`. The model keeps that, so a request id or artifact holding "&" would add or shift query fields; the read-back lemmas `SignUrlReadsBack`, `SignUrlArguments` and `TaskIdRoundTrip` therefore require those values to be free of "&".
- Null fields inside the SOAP replies are not modelled: a null element of the `documentstatus` array, or a null `resulturi`, would throw a NullReferenceException at line 91, while `DocumentStatus.resultUri` is a plain string. Only the null `documentstatus` array itself is modelled. A null `requestid` array (line 62) is not told apart from an empty one: both throw there, and both are the fault `NoRequestId`.
