/** The tool request records and how they are read from a tool call's
    argument object and written back to JSON (src/search/types.rs).

    Reading follows the derived deserializer in two phases: `Read*` looks up
    each field and checks its JSON type, giving `None` for an absent key;
    `Default*` then puts a field's declared default in place of an absent
    value, and refuses a record whose required field is absent. An explicit
    JSON `null` for an optional field is a present value: it reads as `None`
    and is not replaced by the default. Keys the record does not declare are
    ignored. */
module Types {
  import opened Wrappers
  import opened JsonValue

  /** Rust's `u32`. */
  type U32 = x: int | 0 <= x < 0x1_0000_0000

  /** The arguments of a tool call: a JSON object. */
  type Args = map<string, Json>

  datatype DecodeError = MissingField(field: string) | InvalidType(field: string)

  /** `default_top_k` and `default_meta_data`. */
  const DefaultTopK: Option<U32> := Some(1)
  const DefaultFullMetadata: Option<bool> := Some(true)

  datatype SearchRequest = SearchRequest(query: string, topK: Option<U32>, fullMetadata: Option<bool>)
  datatype AuthorSearchRequest = AuthorSearchRequest(author: string)
  datatype PapersPayload = PapersPayload(files: seq<string>)
  datatype SearchDocumentRequest = SearchDocumentRequest(docId: string)
  datatype KeywordRequest = KeywordRequest(keywordQuery: string, topK: Option<U32>)

  // ---- Phase one: raw fields, `None` when the key is absent ----

  function ReadString(args: Args, key: string): Result<Option<string>, DecodeError> {
    if key !in args then Ok(None)
    else match args[key]
      case Str(s) => Ok(Some(s))
      case _ => Err(InvalidType(key))
  }

  function ReadStrings(args: Args, key: string): Result<Option<seq<string>>, DecodeError> {
    if key !in args then Ok(None)
    else match args[key]
      case Array(items) =>
        if forall i :: 0 <= i < |items| ==> items[i].Str?
        then Ok(Some(seq(|items|, i requires 0 <= i < |items| && items[i].Str? => items[i].s)))
        else Err(InvalidType(key))
      case _ => Err(InvalidType(key))
  }

  /** An `Option<u32>` field: `null` is `None`, a number in range is `Some`. */
  function ReadOptionalU32(args: Args, key: string): Result<Option<Option<U32>>, DecodeError> {
    if key !in args then Ok(None)
    else match args[key]
      case Null => Ok(Some(None))
      case Number(n) => if 0 <= n < 0x1_0000_0000 then Ok(Some(Some(n))) else Err(InvalidType(key))
      case _ => Err(InvalidType(key))
  }

  function ReadOptionalBool(args: Args, key: string): Result<Option<Option<bool>>, DecodeError> {
    if key !in args then Ok(None)
    else match args[key]
      case Null => Ok(Some(None))
      case Bool(b) => Ok(Some(Some(b)))
      case _ => Err(InvalidType(key))
  }

  // ---- Phase two: required fields and defaults ----

  function Required<T>(key: string, raw: Option<T>): Result<T, DecodeError> {
    match raw
    case Some(v) => Ok(v)
    case None => Err(MissingField(key))
  }

  datatype RawSearchRequest = RawSearchRequest(query: Option<string>, topK: Option<Option<U32>>, fullMetadata: Option<Option<bool>>)
  datatype RawKeywordRequest = RawKeywordRequest(keywordQuery: Option<string>, topK: Option<Option<U32>>)

  function ReadSearchRequest(args: Args): Result<RawSearchRequest, DecodeError> {
    var query :- ReadString(args, "query");
    var topK :- ReadOptionalU32(args, "top_k");
    var fullMetadata :- ReadOptionalBool(args, "full_metadata");
    Ok(RawSearchRequest(query, topK, fullMetadata))
  }

  /** Phase two for `SearchRequest`: the defaults are used exactly when the
      field is absent, a present value is kept, and an absent `query` fails. */
  function DefaultSearchRequest(raw: RawSearchRequest): (r: Result<SearchRequest, DecodeError>)
    ensures r.Ok? <==> raw.query.Some?
    ensures raw.query.None? ==> r == Err(MissingField("query"))
    ensures r.Ok? ==> r.value.query == raw.query.value
    ensures r.Ok? ==> r.value.topK == (if raw.topK.None? then Some(1) else raw.topK.value)
    ensures r.Ok? ==> r.value.fullMetadata == (if raw.fullMetadata.None? then Some(true) else raw.fullMetadata.value)
  {
    var query :- Required("query", raw.query);
    Ok(SearchRequest(query, raw.topK.GetOr(DefaultTopK), raw.fullMetadata.GetOr(DefaultFullMetadata)))
  }

  function ReadKeywordRequest(args: Args): Result<RawKeywordRequest, DecodeError> {
    var keywordQuery :- ReadString(args, "keyword_query");
    var topK :- ReadOptionalU32(args, "top_k");
    Ok(RawKeywordRequest(keywordQuery, topK))
  }

  /** Phase two for `KeywordRequest`. */
  function DefaultKeywordRequest(raw: RawKeywordRequest): (r: Result<KeywordRequest, DecodeError>)
    ensures r.Ok? <==> raw.keywordQuery.Some?
    ensures raw.keywordQuery.None? ==> r == Err(MissingField("keyword_query"))
    ensures r.Ok? ==> r.value.keywordQuery == raw.keywordQuery.value
    ensures r.Ok? ==> r.value.topK == (if raw.topK.None? then Some(1) else raw.topK.value)
  {
    var keywordQuery :- Required("keyword_query", raw.keywordQuery);
    Ok(KeywordRequest(keywordQuery, raw.topK.GetOr(DefaultTopK)))
  }

  // ---- Whole records ----

  /** A field holds JSON that its reader accepts. */
  predicate StringOk(args: Args, key: string) {
    key in args ==> args[key].Str?
  }

  predicate OptionalU32Ok(args: Args, key: string) {
    key in args ==> args[key].Null? || (args[key].Number? && 0 <= args[key].n < 0x1_0000_0000)
  }

  predicate OptionalBoolOk(args: Args, key: string) {
    key in args ==> args[key].Null? || args[key].Bool?
  }

  /** Reads a `SearchRequest`: `query` must be a string; `top_k` (a `u32`)
      and `full_metadata` (a boolean) may be `null` or absent, and only an
      absent one takes its default. */
  function DecodeSearchRequest(args: Args): (r: Result<SearchRequest, DecodeError>)
    ensures r.Ok? <==> "query" in args && StringOk(args, "query")
                       && OptionalU32Ok(args, "top_k") && OptionalBoolOk(args, "full_metadata")
    ensures "query" !in args ==> r.Err?
    ensures r.Ok? ==> r.value.query == args["query"].s
    ensures r.Ok? && "top_k" !in args ==> r.value.topK == Some(1)
    ensures r.Ok? && "top_k" in args ==>
      r.value.topK == (if args["top_k"].Null? then None else Some(args["top_k"].n))
    ensures r.Ok? && "full_metadata" !in args ==> r.value.fullMetadata == Some(true)
    ensures r.Ok? && "full_metadata" in args ==>
      r.value.fullMetadata == (if args["full_metadata"].Null? then None else Some(args["full_metadata"].b))
  {
    var raw :- ReadSearchRequest(args);
    DefaultSearchRequest(raw)
  }

  function DecodeAuthorSearchRequest(args: Args): (r: Result<AuthorSearchRequest, DecodeError>)
    ensures r.Ok? <==> "author" in args && args["author"].Str?
    ensures "author" !in args ==> r == Err(MissingField("author"))
    ensures r.Ok? ==> r.value.author == args["author"].s
  {
    var author :- ReadString(args, "author");
    var author :- Required("author", author);
    Ok(AuthorSearchRequest(author))
  }

  /** `files` is required; an empty array is accepted. */
  function DecodePapersPayload(args: Args): (r: Result<PapersPayload, DecodeError>)
    ensures r.Ok? <==> "files" in args && args["files"].Array?
                       && forall i :: 0 <= i < |args["files"].items| ==> args["files"].items[i].Str?
    ensures "files" !in args ==> r == Err(MissingField("files"))
    ensures r.Ok? ==> |r.value.files| == |args["files"].items|
                      && forall i :: 0 <= i < |r.value.files| ==> Str(r.value.files[i]) == args["files"].items[i]
  {
    var files :- ReadStrings(args, "files");
    var files :- Required("files", files);
    Ok(PapersPayload(files))
  }

  function DecodeSearchDocumentRequest(args: Args): (r: Result<SearchDocumentRequest, DecodeError>)
    ensures r.Ok? <==> "doc_id" in args && args["doc_id"].Str?
    ensures "doc_id" !in args ==> r == Err(MissingField("doc_id"))
    ensures r.Ok? ==> r.value.docId == args["doc_id"].s
  {
    var docId :- ReadString(args, "doc_id");
    var docId :- Required("doc_id", docId);
    Ok(SearchDocumentRequest(docId))
  }

  function DecodeKeywordRequest(args: Args): (r: Result<KeywordRequest, DecodeError>)
    ensures r.Ok? <==> "keyword_query" in args && StringOk(args, "keyword_query") && OptionalU32Ok(args, "top_k")
    ensures "keyword_query" !in args ==> r.Err?
    ensures r.Ok? ==> r.value.keywordQuery == args["keyword_query"].s
    ensures r.Ok? && "top_k" !in args ==> r.value.topK == Some(1)
    ensures r.Ok? && "top_k" in args ==>
      r.value.topK == (if args["top_k"].Null? then None else Some(args["top_k"].n))
  {
    var raw :- ReadKeywordRequest(args);
    DefaultKeywordRequest(raw)
  }

  // ---- Serialization (`serde_json::to_value`) ----

  function OptionalNumber(v: Option<U32>): Json {
    match v
    case Some(n) => Number(n)
    case None => Null
  }

  function OptionalBool(v: Option<bool>): Json {
    match v
    case Some(b) => Bool(b)
    case None => Null
  }

  /** The JSON object of a request: one key per field, named as the field,
      with `None` written as `null`. */
  function SearchRequestToValue(r: SearchRequest): (v: Json)
    ensures v.Object? && v.fields.Keys == {"query", "top_k", "full_metadata"}
  {
    Object(map["query" := Str(r.query), "top_k" := OptionalNumber(r.topK),
               "full_metadata" := OptionalBool(r.fullMetadata)])
  }

  function AuthorSearchRequestToValue(r: AuthorSearchRequest): (v: Json)
    ensures v.Object? && v.fields.Keys == {"author"}
  {
    Object(map["author" := Str(r.author)])
  }

  function SearchDocumentRequestToValue(r: SearchDocumentRequest): (v: Json)
    ensures v.Object? && v.fields.Keys == {"doc_id"}
  {
    Object(map["doc_id" := Str(r.docId)])
  }

  function KeywordRequestToValue(r: KeywordRequest): (v: Json)
    ensures v.Object? && v.fields.Keys == {"keyword_query", "top_k"}
  {
    Object(map["keyword_query" := Str(r.keywordQuery), "top_k" := OptionalNumber(r.topK)])
  }

  // ---- Round trips: what is written reads back as the same request ----

  lemma SearchRequestRoundTrip(r: SearchRequest)
    ensures DecodeSearchRequest(SearchRequestToValue(r).fields) == Ok(r)
  {
  }

  lemma AuthorSearchRequestRoundTrip(r: AuthorSearchRequest)
    ensures DecodeAuthorSearchRequest(AuthorSearchRequestToValue(r).fields) == Ok(r)
  {
  }

  lemma SearchDocumentRequestRoundTrip(r: SearchDocumentRequest)
    ensures DecodeSearchDocumentRequest(SearchDocumentRequestToValue(r).fields) == Ok(r)
  {
  }

  lemma KeywordRequestRoundTrip(r: KeywordRequest)
    ensures DecodeKeywordRequest(KeywordRequestToValue(r).fields) == Ok(r)
  {
  }
}
