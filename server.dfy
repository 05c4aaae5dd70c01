/** The tool handlers (src/server/mod.rs). Each tool that reaches the
    backend fixes a method, an endpoint and an encoding of its request, calls
    `SearchClient::request` once, and turns the answer into a tool result or
    an internal error whose message names the tool. `list_tools` answers
    from the registered tools alone. */
module Server {
  import opened Wrappers
  import opened JsonValue
  import opened Text
  import Config
  import opened Types
  import opened Bridge
  import Errors

  /** The registered tools, by their handler's name. */
  datatype Tool =
    | SearchTool
    | SearchByAuthorTool
    | UploadPapersTool
    | SearchByDocIdTool
    | SearchByKeywordTool
    | ListToolsTool

  function ToolName(t: Tool): string {
    match t
    case SearchTool => "search"
    case SearchByAuthorTool => "search_by_author"
    case UploadPapersTool => "upload_papers"
    case SearchByDocIdTool => "search_by_doc_id"
    case SearchByKeywordTool => "search_by_keyword"
    case ListToolsTool => "list_tools"
  }

  /** A call of a tool that reaches the backend, with its decoded request. */
  datatype ToolCall =
    | Search(searchRequest: SearchRequest)
    | SearchByAuthor(authorRequest: AuthorSearchRequest)
    | UploadPapers(payload: PapersPayload)
    | SearchByDocId(documentRequest: SearchDocumentRequest)
    | SearchByKeyword(keywordRequest: KeywordRequest)

  function ToolOf(call: ToolCall): Tool {
    match call
    case Search(_) => SearchTool
    case SearchByAuthor(_) => SearchByAuthorTool
    case UploadPapers(_) => UploadPapersTool
    case SearchByDocId(_) => SearchByDocIdTool
    case SearchByKeyword(_) => SearchByKeywordTool
  }

  // ---- upload_papers: the multipart form ----

  const FilesField: string := "files[]"

  /** The parts of the upload form: one text part under `files[]` per file. */
  function FileParts(files: seq<string>): seq<Part> {
    seq(|files|, i requires 0 <= i < |files| => TextPart(FilesField, files[i]))
  }

  /** The loop of `upload_papers` that adds one part per file to an empty
      form, in the order of the files. */
  method BuildForm(files: seq<string>) returns (form: Form)
    ensures form.parts == FileParts(files)
    ensures |form.parts| == |files|
    ensures forall i :: 0 <= i < |files| ==> form.parts[i] == TextPart("files[]", files[i])
  {
    form := Form([]);
    for i := 0 to |files|
      invariant |form.parts| == i
      invariant forall k :: 0 <= k < i ==> form.parts[k] == TextPart(FilesField, files[k])
    {
      form := form.(parts := form.parts + [TextPart(FilesField, files[i])]);
    }
  }

  /** The file texts of a form, read back from its parts. */
  function FormTexts(form: Form): seq<string> {
    seq(|form.parts|, i requires 0 <= i < |form.parts| => form.parts[i].text)
  }

  /** The upload form loses nothing: its parts give back the files, in order. */
  lemma FormKeepsFiles(files: seq<string>)
    ensures FormTexts(Form(FileParts(files))) == files
  {
  }

  // ---- What each tool asks of the bridge ----

  /** The arguments a handler passes to `SearchClient::request`. */
  datatype BridgeCall = BridgeCall(httpMethod: Method, endpoint: string, params: Option<Json>, multipart: Option<Form>)

  function Invocation(call: ToolCall): BridgeCall {
    match call
    case Search(q) =>
      BridgeCall(Get, Config.SearchEndpoint, Some(SearchRequestToValue(q)), None)
    case SearchByAuthor(q) =>
      BridgeCall(Get, Config.SearchByAuthorEndpoint, Some(AuthorSearchRequestToValue(q)), None)
    case UploadPapers(p) =>
      BridgeCall(Post, Config.UploadPapersEndpoint, None, Some(Form(FileParts(p.files))))
    case SearchByDocId(d) =>
      BridgeCall(Get, Config.SearchByDocIdEndpoint, Some(SearchDocumentRequestToValue(d)), None)
    case SearchByKeyword(q) =>
      BridgeCall(Get, Config.SearchByKeywordEndpoint, Some(KeywordRequestToValue(q)), None)
  }

  /** The HTTP request a tool call sends: GET with the request as query
      parameters for the four search tools, POST with a form of one
      `files[]` part per file and no query for `upload_papers`, each to the
      tool's own endpoint. */
  function SentRequest(call: ToolCall): (req: HttpRequest)
    ensures req.httpMethod == (if call.UploadPapers? then Post else Get)
    ensures call.Search? ==> req.url == Url("search")
    ensures call.SearchByAuthor? ==> req.url == Url("search_by_author")
    ensures call.UploadPapers? ==> req.url == Url("upload_papers")
    ensures call.SearchByDocId? ==> req.url == Url("document_details_by_id")
    ensures call.SearchByKeyword? ==> req.url == Url("search_by_keyword")
    ensures !call.UploadPapers? ==>
      req.query.Some? && req.multipart.None? && req.contentTypes == ["application/json"]
    ensures call.UploadPapers? ==>
      && req.query.None? && req.contentTypes == ["multipart/form-data"]
      && req.multipart.Some? && |req.multipart.value.parts| == |call.payload.files|
      && forall i :: 0 <= i < |call.payload.files| ==>
           req.multipart.value.parts[i] == TextPart("files[]", call.payload.files[i])
  {
    var b := Invocation(call);
    PrepareRequest(b.httpMethod, b.endpoint, b.params, b.multipart)
  }

  /** The query parameters are the request itself: named after its fields,
      they read back as the same request. */
  lemma QueryCarriesRequest(call: ToolCall)
    requires !call.UploadPapers?
    ensures var query := SentRequest(call).query.value;
      && query.Object?
      && (call.Search? ==>
            query.fields.Keys == {"query", "top_k", "full_metadata"}
            && DecodeSearchRequest(query.fields) == Ok(call.searchRequest))
      && (call.SearchByAuthor? ==>
            query.fields.Keys == {"author"}
            && DecodeAuthorSearchRequest(query.fields) == Ok(call.authorRequest))
      && (call.SearchByDocId? ==>
            query.fields.Keys == {"doc_id"}
            && DecodeSearchDocumentRequest(query.fields) == Ok(call.documentRequest))
      && (call.SearchByKeyword? ==>
            query.fields.Keys == {"keyword_query", "top_k"}
            && DecodeKeywordRequest(query.fields) == Ok(call.keywordRequest))
  {
  }

  /** The URL alone tells which tool sent a request: the five endpoints
      differ. */
  lemma UrlIdentifiesTool(c1: ToolCall, c2: ToolCall)
    requires SentRequest(c1).url == SentRequest(c2).url
    ensures ToolOf(c1) == ToolOf(c2)
  {
  }

  /** An empty upload is not refused here: it is still a POST to
      `upload_papers`, with a form of no parts and no query. */
  lemma EmptyUploadIsForwarded()
    ensures var req := SentRequest(UploadPapers(PapersPayload([])));
      && req.httpMethod == Post && req.url == Url("upload_papers")
      && req.query.None? && req.multipart == Some(Form([]))
  {
  }

  /** The endpoint of each tool is its name, except for `search_by_doc_id`,
      whose endpoint is `document_details_by_id`. */
  lemma EndpointFollowsToolName(call: ToolCall)
    ensures call.SearchByDocId? ==> Invocation(call).endpoint == "document_details_by_id"
    ensures !call.SearchByDocId? ==> Invocation(call).endpoint == ToolName(ToolOf(call))
    ensures Invocation(call).endpoint != ToolName(ListToolsTool)
  {
  }

  // ---- Results and errors ----

  /** A content item: the backend's JSON (`Content::json`) or text. */
  datatype Content = JsonContent(json: Json) | TextContent(text: string)

  datatype CallToolResult = CallToolResult(content: seq<Content>, isError: bool)

  /** `ErrorData::internal_error(message, None)`; the code is the internal
      error code of section 5.1 of the JSON-RPC 2.0 specification. */
  datatype ErrorData = ErrorData(code: int, message: string)

  const InternalErrorCode: int := -32603

  function Success(content: seq<Content>): CallToolResult {
    CallToolResult(content, false)
  }

  const SearchErrorPrefix: string := "Error while fetching search results: "
  const AuthorErrorPrefix: string := "Error while fetching search by author results: "
  const UploadErrorPrefix: string := "Error while uploading papers: "
  const DocumentErrorLead: string := "Error searching for document "
  const KeywordErrorPrefix: string := "Error while fetching search by keyword results: "

  /** What a handler's error message puts before the error's display text. */
  function ErrorPrefix(call: ToolCall): string {
    match call
    case Search(_) => SearchErrorPrefix
    case SearchByAuthor(_) => AuthorErrorPrefix
    case UploadPapers(_) => UploadErrorPrefix
    case SearchByDocId(d) => DocumentErrorLead + d.docId + ": "
    case SearchByKeyword(_) => KeywordErrorPrefix
  }

  /** What the backend's answer to a call's request becomes at the bridge. */
  function BridgeAnswer(client: SearchClient, call: ToolCall): Result<Json, Errors.RequestError> {
    var b := Invocation(call);
    Request(client, b.httpMethod, b.endpoint, b.params, b.multipart)
  }

  /** A handler: the bridge's JSON unchanged as the one content item of a
      success, or an internal error whose message is the tool's prefix
      followed by the error's display text. */
  function CallTool(client: SearchClient, call: ToolCall): (r: Result<CallToolResult, ErrorData>)
    ensures var answer := Classify(client.send(SentRequest(call)), client.parseJson);
      && (r.Ok? <==> answer.Ok?)
      && (r.Ok? ==> r.value == CallToolResult([JsonContent(answer.value)], false))
      && (r.Err? ==> r.error.code == InternalErrorCode
                     && r.error.message == ErrorPrefix(call) + Errors.Display(answer.error))
  {
    match BridgeAnswer(client, call)
    case Ok(response) => Ok(Success([JsonContent(response)]))
    case Err(err) => Err(ErrorData(InternalErrorCode, ErrorPrefix(call) + Errors.Display(err)))
  }

  /** The tool an error message comes from, read from its prefix. */
  function ToolOfErrorMessage(message: string): Option<Tool> {
    if IsPrefix(SearchErrorPrefix, message) then Some(SearchTool)
    else if IsPrefix(AuthorErrorPrefix, message) then Some(SearchByAuthorTool)
    else if IsPrefix(UploadErrorPrefix, message) then Some(UploadPapersTool)
    else if IsPrefix(DocumentErrorLead, message) then Some(SearchByDocIdTool)
    else if IsPrefix(KeywordErrorPrefix, message) then Some(SearchByKeywordTool)
    else None
  }

  /** The message starts with the tool's prefix, and the rest reads back as
      the bridge's error. */
  lemma ErrorMessageCarriesError(client: SearchClient, call: ToolCall)
    requires CallTool(client, call).Err?
    ensures var message := CallTool(client, call).error.message;
      && IsPrefix(ErrorPrefix(call), message)
      && BridgeAnswer(client, call).Err?
      && Errors.ParseDisplay(message[|ErrorPrefix(call)|..]) == Some(BridgeAnswer(client, call).error)
  {
    var e := BridgeAnswer(client, call).error;
    var message := CallTool(client, call).error.message;
    assert message[|ErrorPrefix(call)|..] == Errors.Display(e);
  }

  /** Where the error prefixes part ways. */
  lemma PrefixesDiffer()
    ensures AuthorErrorPrefix[28] != SearchErrorPrefix[28]
    ensures KeywordErrorPrefix[28] != SearchErrorPrefix[28]
    ensures KeywordErrorPrefix[31] != AuthorErrorPrefix[31]
    ensures UploadErrorPrefix[12] != SearchErrorPrefix[12] && UploadErrorPrefix[12] != AuthorErrorPrefix[12]
    ensures KeywordErrorPrefix[12] != UploadErrorPrefix[12]
    ensures DocumentErrorLead[6] != SearchErrorPrefix[6] && DocumentErrorLead[6] != AuthorErrorPrefix[6]
    ensures DocumentErrorLead[6] != UploadErrorPrefix[6] && KeywordErrorPrefix[6] != DocumentErrorLead[6]
  {
  }

  /** The prefixes tell the tools apart: none is a prefix of another's
      message. */
  lemma PrefixNamesTool(call: ToolCall, rest: string)
    ensures ToolOfErrorMessage(ErrorPrefix(call) + rest) == Some(ToolOf(call))
  {
    PrefixesDiffer();
    match call
    case Search(_) =>
      PrefixOfConcat(SearchErrorPrefix, rest);
    case SearchByAuthor(_) =>
      DifferentAt(SearchErrorPrefix, AuthorErrorPrefix, rest, 28);
      PrefixOfConcat(AuthorErrorPrefix, rest);
    case UploadPapers(_) =>
      DifferentAt(SearchErrorPrefix, UploadErrorPrefix, rest, 12);
      DifferentAt(AuthorErrorPrefix, UploadErrorPrefix, rest, 12);
      PrefixOfConcat(UploadErrorPrefix, rest);
    case SearchByDocId(d) =>
      var tail := d.docId + ": " + rest;
      assert ErrorPrefix(call) + rest == DocumentErrorLead + tail;
      DifferentAt(SearchErrorPrefix, DocumentErrorLead, tail, 6);
      DifferentAt(AuthorErrorPrefix, DocumentErrorLead, tail, 6);
      DifferentAt(UploadErrorPrefix, DocumentErrorLead, tail, 6);
      PrefixOfConcat(DocumentErrorLead, tail);
    case SearchByKeyword(_) =>
      DifferentAt(SearchErrorPrefix, KeywordErrorPrefix, rest, 28);
      DifferentAt(AuthorErrorPrefix, KeywordErrorPrefix, rest, 31);
      DifferentAt(UploadErrorPrefix, KeywordErrorPrefix, rest, 12);
      DifferentAt(DocumentErrorLead, KeywordErrorPrefix, rest, 6);
      PrefixOfConcat(KeywordErrorPrefix, rest);
  }

  /** The tool a failed call's message names is the tool that was called. */
  lemma ErrorMessageNamesTool(client: SearchClient, call: ToolCall)
    requires CallTool(client, call).Err?
    ensures ToolOfErrorMessage(CallTool(client, call).error.message) == Some(ToolOf(call))
  {
    PrefixNamesTool(call, Errors.Display(BridgeAnswer(client, call).error));
  }

  /** The document prefix followed by any text contains the document id. */
  lemma DocumentPrefixNamesDocument(d: SearchDocumentRequest, rest: string)
    ensures Contains(ErrorPrefix(SearchByDocId(d)) + rest, d.docId)
  {
    ContainsMiddle(DocumentErrorLead, d.docId, ": " + rest);
    assert ErrorPrefix(SearchByDocId(d)) + rest == DocumentErrorLead + d.docId + (": " + rest);
  }

  /** A failed document lookup names the document it looked for. */
  lemma DocumentErrorNamesDocument(client: SearchClient, d: SearchDocumentRequest)
    requires CallTool(client, SearchByDocId(d)).Err?
    ensures Contains(CallTool(client, SearchByDocId(d)).error.message, d.docId)
  {
    DocumentPrefixNamesDocument(d, Errors.Display(BridgeAnswer(client, SearchByDocId(d)).error));
  }

  /** The text of an `Api` error mentions its status and its message. */
  lemma ApiTextMentions(prefix: string, code: Errors.U16, message: string)
    ensures Contains(prefix + Errors.Display(Errors.Api(code, message)), Decimal(code))
    ensures Contains(prefix + Errors.Display(Errors.Api(code, message)), message)
  {
    var lead := prefix + Errors.ApiPrefix;
    assert prefix + Errors.Display(Errors.Api(code, message))
        == lead + Decimal(code) + Errors.ApiSeparator + message;
    ContainsInner(lead, Decimal(code), Errors.ApiSeparator, message);
  }

  /** A 200 with a body that parses returns the parsed JSON, unchanged, as
      the one content item of a success. */
  lemma BackendJsonReturnedUnchanged(client: SearchClient, call: ToolCall, body: string, value: Json)
    requires client.send(SentRequest(call)) == Received(200, Ok(body))
    requires client.parseJson(body) == Ok(value)
    ensures CallTool(client, call) == Ok(CallToolResult([JsonContent(value)], false))
  {
  }

  /** A 422 from the backend is an error saying the request could not be
      processed, whatever the body. */
  lemma UnprocessableReported(client: SearchClient, call: ToolCall, body: Result<string, string>)
    requires client.send(SentRequest(call)) == Received(422, body)
    ensures CallTool(client, call).Err?
    ensures Contains(CallTool(client, call).error.message, "Could not process request")
    ensures Contains(CallTool(client, call).error.message, "422")
  {
    assert BridgeAnswer(client, call) == Err(Errors.Api(422, UnprocessableMessage));
    assert Decimal(422) == "422" by {
      assert Decimal(42) == Decimal(4) + [DigitChar(2)];
    }
    ApiTextMentions(ErrorPrefix(call), 422, UnprocessableMessage);
  }

  /** Any status other than 200 and 422 (201 and 204 included) is an error
      saying the request failed, with the status in decimal. */
  lemma OtherStatusReported(client: SearchClient, call: ToolCall, status: StatusCode, body: Result<string, string>)
    requires status != 200 && status != 422
    requires client.send(SentRequest(call)) == Received(status, body)
    ensures CallTool(client, call).Err?
    ensures Contains(CallTool(client, call).error.message, "Request failed")
    ensures Contains(CallTool(client, call).error.message, Decimal(status))
  {
    assert BridgeAnswer(client, call) == Err(Errors.Api(status, FailedMessage));
    ApiTextMentions(ErrorPrefix(call), status, FailedMessage);
  }

  /** A transport failure is reported with its cause, as the HTTP library's
      error and not as an answer of the backend. */
  lemma TransportFailureReported(client: SearchClient, call: ToolCall, cause: string)
    requires client.send(SentRequest(call)) == SendFailed(cause)
    ensures CallTool(client, call).Err?
    ensures CallTool(client, call).error.message == ErrorPrefix(call) + "HTTP request failed: " + cause
  {
    assert BridgeAnswer(client, call) == Err(Errors.Request(cause));
  }

  // ---- list_tools ----

  /** The tools as the router lists them: each tool once, in an order the
      router decides. */
  predicate IsRegistry(registry: seq<Tool>) {
    && (forall t: Tool :: t in registry)
    && (forall i, j :: 0 <= i < j < |registry| ==> registry[i] != registry[j])
  }

  /** Tool names are one line each and name one tool each. */
  lemma ToolNameFacts(t: Tool, u: Tool)
    ensures '\n' !in ToolName(t)
    ensures ToolName(t) == ToolName(u) ==> t == u
  {
  }

  /** The tools a registry holds, as a set. */
  function ToolSet(registry: seq<Tool>): set<Tool> {
    set t | t in registry
  }

  /** A sequence without repetitions has as many elements as its set. */
  lemma {:induction false} DistinctToolsSize(s: seq<Tool>)
    requires forall i, j :: 0 <= i < j < |s| ==> s[i] != s[j]
    ensures |ToolSet(s)| == |s|
    decreases |s|
  {
    if |s| > 0 {
      var init := s[..|s| - 1];
      DistinctToolsSize(init);
      assert ToolSet(s) == ToolSet(init) + {s[|s| - 1]};
      assert s[|s| - 1] !in ToolSet(init);
    }
  }

  /** A registry lists the six tools, once each. */
  lemma RegistrySize(registry: seq<Tool>)
    requires IsRegistry(registry)
    ensures |registry| == 6
  {
    DistinctToolsSize(registry);
    assert ToolSet(registry) == {SearchTool, SearchByAuthorTool, UploadPapersTool,
                                 SearchByDocIdTool, SearchByKeywordTool, ListToolsTool};
  }

  function ToolNames(registry: seq<Tool>): (names: seq<string>)
    requires IsRegistry(registry)
    ensures |names| == |registry| == 6
    ensures forall k :: 0 <= k < |names| ==> names[k] == ToolName(registry[k])
    ensures forall k :: 0 <= k < |names| ==> '\n' !in names[k]
    ensures forall t: Tool :: ToolName(t) in names
    ensures forall i, j :: 0 <= i < j < |names| ==> names[i] != names[j]
  {
    var names := seq(|registry|, i requires 0 <= i < |registry| => ToolName(registry[i]));
    RegistrySize(registry);
    assert forall k :: 0 <= k < |names| ==> '\n' !in names[k] by {
      forall k | 0 <= k < |names| ensures '\n' !in names[k] {
        ToolNameFacts(registry[k], registry[k]);
      }
    }
    assert forall t: Tool :: ToolName(t) in names by {
      forall t: Tool ensures ToolName(t) in names {
        assert t in registry;
        var i :| 0 <= i < |registry| && registry[i] == t;
        assert names[i] == ToolName(t);
      }
    }
    assert forall i, j :: 0 <= i < j < |names| ==> names[i] != names[j] by {
      forall i, j | 0 <= i < j < |names| ensures names[i] != names[j] {
        ToolNameFacts(registry[i], registry[j]);
      }
    }
    names
  }

  /** `list_tools`: always a success whose one text item is the registered
      names, one per line. */
  function ListTools(registry: seq<Tool>): (r: Result<CallToolResult, ErrorData>)
    requires IsRegistry(registry)
    ensures r.Ok? && !r.value.isError && |r.value.content| == 1 && r.value.content[0].TextContent?
    ensures var lines := Split(r.value.content[0].text, '\n');
      && lines == ToolNames(registry)
      && (forall t: Tool :: ToolName(t) in lines)
      && (forall i, j :: 0 <= i < j < |lines| ==> lines[i] != lines[j])
  {
    var names := ToolNames(registry);
    SplitJoin(names, '\n');
    Ok(Success([TextContent(Join(names, '\n'))]))
  }
}
