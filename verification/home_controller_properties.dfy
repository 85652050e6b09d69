/** Properties relating the controller's actions to each other: what the callback URLs and the
    signing page URL carry, and what the completion callback does with what it receives. */
module HomeControllerProperties {
  import opened Results
  import opened Strings
  import opened Query
  import opened DocumentService
  import opened HomeController

  /** The parameters of the callback query string, in the order they are written. */
  function CallbackParams(listId: string, documentName: Option<string>, source: string,
                          listDir: string, encode: string -> string): seq<Param>
  {
    [ Param("rid", RequestIdPlaceholder),
      Param("SPListId", encode(listId)),
      Param("documentName", EncodeOrEmpty(encode, documentName)),
      Param("SPSource", encode(source)),
      Param("SPListURLDir", encode(listDir)) ]
  }

  /** The callback keys and the request id placeholder hold neither '=' nor '&'. */
  lemma CallbackKeysPlain()
    ensures '=' !in "rid" && '&' !in "rid"
    ensures '=' !in "SPListId" && '&' !in "SPListId"
    ensures '=' !in "documentName" && '&' !in "documentName"
    ensures '=' !in "SPSource" && '&' !in "SPSource"
    ensures '=' !in "SPListURLDir" && '&' !in "SPListURLDir"
    ensures '&' !in RequestIdPlaceholder
  {
  }

  /** The callback keys are pairwise different. */
  lemma CallbackKeysDistinct()
    ensures "rid" != "SPListId"
    ensures "rid" != "documentName" && "SPListId" != "documentName"
    ensures "rid" != "SPSource" && "SPListId" != "SPSource" && "documentName" != "SPSource"
    ensures "rid" != "SPListURLDir" && "SPListId" != "SPListURLDir" && "documentName" != "SPListURLDir"
            && "SPSource" != "SPListURLDir"
  {
  }

  /** The callback parameters survive rendering when the encoded values hold no '&'. */
  lemma CallbackParamsReadable(listId: string, documentName: Option<string>, source: string,
                               listDir: string, encode: string -> string)
    requires '&' !in encode(listId) && '&' !in encode(source) && '&' !in encode(listDir)
    requires documentName.Some? ==> '&' !in encode(documentName.value)
    ensures Readable(CallbackParams(listId, documentName, source, listDir, encode))
  {
    var ps := CallbackParams(listId, documentName, source, listDir, encode);
    CallbackKeysPlain();
    assert '&' !in EncodeOrEmpty(encode, documentName);
  }

  /** Each routing parameter is found under its own key. */
  lemma CallbackLookups(listId: string, documentName: Option<string>, source: string,
                        listDir: string, encode: string -> string)
    ensures var ps := CallbackParams(listId, documentName, source, listDir, encode);
      && Lookup(ps, "SPListId") == Some(encode(listId))
      && Lookup(ps, "documentName") == Some(EncodeOrEmpty(encode, documentName))
      && Lookup(ps, "SPSource") == Some(encode(source))
      && Lookup(ps, "SPListURLDir") == Some(encode(listDir))
  {
    var ps := CallbackParams(listId, documentName, source, listDir, encode);
    var p0, p1, p2, p3, p4 := ps[0], ps[1], ps[2], ps[3], ps[4];
    assert ps == [p0] + ([p1] + ([p2] + ([p3] + [p4])));
    CallbackKeysDistinct();
    LookupSkip(p0, [p1] + ([p2] + ([p3] + [p4])), p1.key);
    LookupHead(p1, [p2] + ([p3] + [p4]));
    LookupSkip(p0, [p1] + ([p2] + ([p3] + [p4])), p2.key);
    LookupSkip(p1, [p2] + ([p3] + [p4]), p2.key);
    LookupHead(p2, [p3] + [p4]);
    LookupSkip(p0, [p1] + ([p2] + ([p3] + [p4])), p3.key);
    LookupSkip(p1, [p2] + ([p3] + [p4]), p3.key);
    LookupSkip(p2, [p3] + [p4], p3.key);
    LookupHead(p3, [p4]);
    LookupSkip(p0, [p1] + ([p2] + ([p3] + [p4])), p4.key);
    LookupSkip(p1, [p2] + ([p3] + [p4]), p4.key);
    LookupSkip(p2, [p3] + [p4], p4.key);
    LookupSkip(p3, [p4], p4.key);
    LookupHead(p4, []);
    assert [p4] + [] == [p4];
  }

  /** The callback query string is the rendering of those parameters after a '?'. */
  lemma CallbackQueryRenders(listId: string, documentName: Option<string>, source: string,
                             listDir: string, encode: string -> string)
    ensures CallbackQuery(listId, documentName, source, listDir, encode)
            == "?" + Render(CallbackParams(listId, documentName, source, listDir, encode))
  {
    var ps := CallbackParams(listId, documentName, source, listDir, encode);
    RenderOne(ps[4]);
    RenderCons(ps[3], ps[4..]);
    assert ps[3..] == [ps[3]] + ps[4..];
    RenderCons(ps[2], ps[3..]);
    assert ps[2..] == [ps[2]] + ps[3..];
    RenderCons(ps[1], ps[2..]);
    assert ps[1..] == [ps[1]] + ps[2..];
    RenderCons(ps[0], ps[1..]);
    assert ps == [ps[0]] + ps[1..];
    assert Field(ps[0]) == "rid=" + RequestIdPlaceholder;
    assert Field(ps[1]) == "SPListId=" + encode(listId);
    assert Field(ps[2]) == "documentName=" + EncodeOrEmpty(encode, documentName);
    assert Field(ps[3]) == "SPSource=" + encode(source);
    assert Field(ps[4]) == "SPListURLDir=" + encode(listDir);
    CallbackQueryFields(RequestIdPlaceholder, encode(listId), EncodeOrEmpty(encode, documentName),
                        encode(source), encode(listDir));
  }

  /** The literal layout of the callback query string, field by field. Only a re-bracketing
      of string concatenation for the solver; it says nothing about the controller. */
  lemma CallbackQueryFields(p: string, e1: string, e2: string, e3: string, e4: string)
    ensures "?rid=" + p + "&" + "SPListId=" + e1 + "&documentName=" + e2 + "&SPSource=" + e3 + "&SPListURLDir=" + e4
         == "?" + (("rid=" + p) + "&" + (("SPListId=" + e1) + "&" + (("documentName=" + e2)
                  + "&" + (("SPSource=" + e3) + "&" + ("SPListURLDir=" + e4)))))
  {
    assert "?rid=" == "?" + "rid=";
    assert "&documentName=" == "&" + "documentName=";
    assert "&SPSource=" == "&" + "SPSource=";
    assert "&SPListURLDir=" == "&" + "SPListURLDir=";
    Regroup("?", "rid=", p, "&", "SPListId=", e1, "documentName=", e2, "SPSource=", e3, "SPListURLDir=", e4);
  }

  /** Five fields written left to right, regrouped as a field followed by the rest.
      Only a re-bracketing step for the solver. */
  lemma Regroup(q: string, k0: string, v0: string, amp: string, k1: string, v1: string,
                k2: string, v2: string, k3: string, v3: string, k4: string, v4: string)
    ensures q + k0 + v0 + amp + k1 + v1 + (amp + k2) + v2 + (amp + k3) + v3 + (amp + k4) + v4
         == q + ((k0 + v0) + amp + ((k1 + v1) + amp + ((k2 + v2) + amp + ((k3 + v3) + amp + (k4 + v4)))))
  {
  }

  /** Reading the query of any of the three callback URLs gives back the request id placeholder
      and the encoded routing values, in order, as long as the encoder never emits '&' and the
      Return action URL has no query of its own. */
  lemma CallbackCarriesRouting(document: ProvidedDocument, signingMethod: string, listId: string,
                               source: string, listDir: string, returnAction: string,
                               encode: string -> string)
    requires '?' !in returnAction
    requires '&' !in encode(listId) && '&' !in encode(source) && '&' !in encode(listDir)
    requires document.description.Some? ==> '&' !in encode(document.description.value)
    ensures var t := GetRequest(document, signingMethod, listId, source, listDir, returnAction, encode)
                       .request[0].task[0];
      && Arguments(t.onTaskComplete) == CallbackParams(listId, document.description, source, listDir, encode)
      && t.onTaskCancel == t.onTaskComplete && t.onTaskPostpone == t.onTaskComplete
  {
    var ps := CallbackParams(listId, document.description, source, listDir, encode);
    var t := GetRequest(document, signingMethod, listId, source, listDir, returnAction, encode).request[0].task[0];
    CallbackQueryRenders(listId, document.description, source, listDir, encode);
    assert t.onTaskComplete == returnAction + "?" + Render(ps);
    QueryOfAppend(returnAction, Render(ps));
    CallbackParamsReadable(listId, document.description, source, listDir, encode);
    ParseRender(ps);
  }

  /** The host part of the signing page URL, before its query. */
  const SignPage: string := "https://" + SigningEnvironment + ".signicat.com/std/docaction/" + SigningProduct

  /** The signing page has no query of its own. */
  lemma SignPageHasNoQuery()
    ensures '?' !in SignPage
  {
  }

  /** The keys of the signing page URL hold neither '=' nor '&'. */
  lemma SignKeysPlain()
    ensures '=' !in "request_id" && '=' !in "task_id" && '=' !in "artifact"
    ensures '&' !in "request_id" && '&' !in "task_id" && '&' !in "artifact"
  {
  }

  /** The first two keys of the signing page URL differ. */
  lemma SignKeysDistinct()
    ensures "request_id" != "task_id"
  {
  }

  /** Three fields written left to right, regrouped as a field followed by the rest.
      Only a re-bracketing step for the solver. */
  lemma RegroupThree(page: string, q: string, k0: string, eq: string, v0: string, amp: string,
                     k1: string, v1: string, k2: string, v2: string)
    ensures page + (q + k0 + eq) + v0 + (amp + k1 + eq) + v1 + (amp + k2 + eq) + v2
         == page + q + ((k0 + eq + v0) + amp + ((k1 + eq + v1) + amp + (k2 + eq + v2)))
  {
  }

  /** The signing page URL is the signing page, a '?', and the three fields; a step for SignUrlParses. */
  lemma SignUrlLayout(requestId: string, taskId: string, artifact: string)
    ensures SignUrl(requestId, taskId, artifact)
            == SignPage + "?" + (Field(Param("request_id", requestId)) + "&"
                                 + (Field(Param("task_id", taskId)) + "&" + Field(Param("artifact", artifact))))
  {
    assert "?request_id=" == "?" + "request_id" + "=";
    assert "&task_id=" == "&" + "task_id" + "=";
    assert "&artifact=" == "&" + "artifact" + "=";
    RegroupThree(SignPage, "?", "request_id", "=", requestId, "&", "task_id", taskId, "artifact", artifact);
  }

  /** The parameters read from the signing page URL: the request id and the task id as
      fields, then whatever the artifact field reads as. */
  lemma SignUrlParses(requestId: string, taskId: string, artifact: string)
    requires '&' !in requestId && '&' !in taskId
    ensures Arguments(SignUrl(requestId, taskId, artifact))
            == [Param("request_id", requestId)]
               + ([Param("task_id", taskId)] + Parse(Field(Param("artifact", artifact))))
  {
    var p0, p1, p2 := Param("request_id", requestId), Param("task_id", taskId), Param("artifact", artifact);
    var g0, g1, g2 := Field(p0), Field(p1), Field(p2);
    var q := g0 + "&" + (g1 + "&" + g2);
    SignPageHasNoQuery();
    SignKeysPlain();
    SignUrlLayout(requestId, taskId, artifact);
    QueryOfAppend(SignPage, q);
    assert '&' !in g0 && '&' !in g1;
    ParseCons(g0, g1 + "&" + g2);
    ParseCons(g1, g2);
    ReadFieldOfField(p0);
    ReadFieldOfField(p1);
  }

  /** The signing page URL hands the request id and the task id to the hosted page unchanged. */
  lemma SignUrlReadsBack(requestId: string, taskId: string, artifact: string)
    requires '&' !in requestId && '&' !in taskId
    ensures Lookup(Arguments(SignUrl(requestId, taskId, artifact)), "request_id") == Some(requestId)
    ensures Lookup(Arguments(SignUrl(requestId, taskId, artifact)), "task_id") == Some(taskId)
  {
    var p0, p1 := Param("request_id", requestId), Param("task_id", taskId);
    var rest := Parse(Field(Param("artifact", artifact)));
    SignUrlParses(requestId, taskId, artifact);
    SignKeysDistinct();
    LookupHead(p0, [p1] + rest);
    LookupSkip(p0, [p1] + rest, "task_id");
    LookupHead(p1, rest);
  }

  /** When the artifact holds no '&' either, the signing page URL carries exactly the request
      id, the task id and the artifact, in that order. */
  lemma SignUrlArguments(requestId: string, taskId: string, artifact: string)
    requires '&' !in requestId && '&' !in taskId && '&' !in artifact
    ensures Arguments(SignUrl(requestId, taskId, artifact))
            == [Param("request_id", requestId), Param("task_id", taskId), Param("artifact", artifact)]
  {
    var p0, p1, p2 := Param("request_id", requestId), Param("task_id", taskId), Param("artifact", artifact);
    SignUrlParses(requestId, taskId, artifact);
    SignKeysPlain();
    ParseField(p2);
    assert [p0] + ([p1] + [p2]) == [p0, p1, p2];
  }

  /** The task id read back from the signing page URL is the id of the task submitted, which
      is "task_1", and the request id read back is the first id the service returned. */
  lemma TaskIdRoundTrip(listId: string, itemId: string, source: string, listDir: string,
                        signingMethod: string, context: Option<ItemLookup>, isGuid: string -> bool,
                        returnAction: string, encode: string -> string,
                        createRequest: CreateRequestRequest -> CreateRequestResponse)
    requires var r := SignDocument(listId, itemId, source, listDir, signingMethod, context, isGuid,
                                   returnAction, encode, createRequest);
      r.Success? ==> '&' !in createRequest(r.value.submitted).requestId[0]
    ensures var r := SignDocument(listId, itemId, source, listDir, signingMethod, context, isGuid,
                                  returnAction, encode, createRequest);
      r.Success? ==>
        && Lookup(Arguments(r.value.location), "task_id") == Some(r.value.submitted.request[0].task[0].id)
        && Lookup(Arguments(r.value.location), "task_id") == Some(TaskId)
        && Lookup(Arguments(r.value.location), "request_id") == Some(createRequest(r.value.submitted).requestId[0])
  {
    var r := SignDocument(listId, itemId, source, listDir, signingMethod, context, isGuid,
                          returnAction, encode, createRequest);
    if r.Success? {
      var response := createRequest(r.value.submitted);
      assert r.value.submitted.request[0].task[0].id == TaskId;
      SignUrlReadsBack(response.requestId[0], TaskId, response.artifact);
    }
  }

  /** How the Return action receives a routing value from the callback URL: the decoded value
      of the named query parameter, or "" when it is absent. */
  function Received(url: string, key: string, decode: string -> string): string
  {
    match Lookup(Arguments(url), key)
    case None => ""
    case Some(v) => decode(v)
  }

  /** The whole flow: after a signing started for a list item, a completion callback that finds
      a signed result stores it in the same list directory under the item's display name with
      " - SIGNED" and the extension of the result's content type, and sends the user back to
      the source URL, unless that URL is empty, which MVC refuses as a redirect target. It
      assumes only that decoding undoes the encoder on the routing values. */
  lemma SignedCopyStoredBesideOriginal(
    listId: string, itemId: string, source: string, listDir: string, signingMethod: string,
    lookup: ItemLookup, isGuid: string -> bool, returnAction: string,
    encode: string -> string, decode: string -> string,
    createRequest: CreateRequestRequest -> CreateRequestResponse,
    rid: string, hostUrl: string, getStatus: GetStatusRequest -> seq<StatusEntry>,
    download: string -> Download)
    requires isGuid(listId) && lookup(listId, itemId).Some?
    requires '?' !in returnAction
    requires var name := lookup(listId, itemId).value.displayName;
      && '&' !in encode(listId) && '&' !in encode(name) && '&' !in encode(source) && '&' !in encode(listDir)
      && decode(encode(listId)) == listId && decode(encode(name)) == name
      && decode(encode(source)) == source && decode(encode(listDir)) == listDir
    requires SignDocument(listId, itemId, source, listDir, signingMethod, Some(lookup), isGuid,
                          returnAction, encode, createRequest).Success?
    requires var status := getStatus(StatusRequest(rid));
      && 0 < |status| && status[0].documentStatus.Some? && 0 < |status[0].documentStatus.value|
      && download(status[0].documentStatus.value[0].resultUri).contentType.Some?
    ensures
      var callback := SignDocument(listId, itemId, source, listDir, signingMethod, Some(lookup), isGuid,
                                   returnAction, encode, createRequest).value.submitted.request[0].task[0].onTaskComplete;
      var uri := getStatus(StatusRequest(rid))[0].documentStatus.value[0].resultUri;
      var name := lookup(listId, itemId).value.displayName;
      Return(rid, Received(callback, "SPListId", decode), Received(callback, "documentName", decode),
             Received(callback, "SPSource", decode), Received(callback, "SPListURLDir", decode),
             hostUrl, getStatus, download, true, isGuid)
      == if source == "" then Failure(EmptyRedirectUrl)
         else Success(UploadThenRedirect(
           uri,
           FileCreation(SignedFileUrl(hostUrl, listDir, name, ExtensionFor(download(uri).contentType.value)),
                        download(uri).content, true),
           source))
  {
    var document := GetDocumentForSigning(listId, itemId, Some(lookup), isGuid).value;
    var name := lookup(listId, itemId).value.displayName;
    assert document.description == Some(name);
    CallbackCarriesRouting(document, signingMethod, listId, source, listDir, returnAction, encode);
    var callback := SignDocument(listId, itemId, source, listDir, signingMethod, Some(lookup), isGuid,
                                 returnAction, encode, createRequest).value.submitted.request[0].task[0].onTaskComplete;
    var ps := CallbackParams(listId, document.description, source, listDir, encode);
    assert Arguments(callback) == ps;
    CallbackLookups(listId, document.description, source, listDir, encode);
  }
}
