# Smart-search tool server: verified model of the translation layer

This project models, in Dafny, the core of a small tool server. The server
offers tools (`search`, `search_by_author`, `upload_papers`,
`search_by_doc_id`, `search_by_keyword`, `list_tools`) through a
tool-invocation protocol. It turns each call into one HTTP request to a
search backend and hands the backend's JSON, or an error, back to the caller.

The model is pure functions over abstract inputs:

- The HTTP transport is a function `send: HttpRequest -> Outcome` carried by
  `Bridge.SearchClient`. It receives the request exactly as built: method,
  URL, content types, query object and multipart form. It gives back either
  a failure to send, or a status with the result of reading the body.
- The JSON parser is a second function of the client,
  `parseJson: string -> Result<Json, string>`.
- Every property below therefore holds whatever the backend and the parser do.

Modules follow the source files:

| module | file | what it holds |
|---|---|---|
| `Config` | `config.rs` | the base URL and the five endpoint paths |
| `Errors` | `errors.rs` | `RequestError`, its display texts, and a reader that recovers the error from its text |
| `Types` | `types.rs` | the five request records, a two-phase decode from the argument object, and serialization to JSON |
| `Bridge` | `search/mod.rs` | URL formation, request preparation, and classification of the backend's answer |
| `Server` | `server/mod.rs` | per-tool routing, the upload form loop, result/error wrapping, and `list_tools` |

`Wrappers`, `Text` and `JsonValue` are helpers: Option/Result, string
functions, and the JSON value type.

Decoding is two-phase. First each field is read with its JSON type checked.
An absent key gives `None`, and an explicit `null` for an optional field
gives `Some(None)`. Then defaults replace absent values only: `top_k`
becomes `Some(1)` and `full_metadata` becomes `Some(true)`. An absent
required field fails with `MissingField`. An explicit `null` for `top_k` is
kept as `None`: the declared default applies only to an absent key.

The source answers every status other than 200 and 422 with "Request
failed", 201 and 204 included (src/search/mod.rs:54-57). Both the 422 case and the generic case are
the same `Api` variant and differ only in the message.

## Model

| member | source | states |
|---|---|---|
| `Config.Endpoints` | src/config.rs:2-6 | there are exactly five endpoint paths; they are pairwise distinct and non-empty, and none starts with `/` |
| `Config.BaseUrlHasNoTrailingSlash` | src/config.rs:1 | the base URL `http://127.0.0.1:8000` does not end in `/`, so base and path are joined by a single `/` |
| `Errors.Display` | src/search/errors.rs:5-10 | an `Api` error displays as `Search API Error (<code>): <message>`, a `Request` error as `HTTP request failed: <cause>`, a `Json` error as `JSON parsing failed: <cause>`; the ensures give each variant's prefix, and `ParseDisplay` reads the text back to the same variant, code, message or cause |
| `Errors.ParseApiRoundTrip` | src/search/errors.rs:5-6 | after its prefix, an `Api` text reads back as the decimal status code and the message |
| `Errors.DisplayInjective` | src/search/errors.rs:4-11 | two different errors never display the same text |
| `Types.DefaultSearchRequest` | src/search/types.rs:4-24 | phase two for `SearchRequest`: `top_k` becomes `Some(1)` and `full_metadata` becomes `Some(true)` exactly when absent; present values are kept; a missing `query` fails |
| `Types.DefaultKeywordRequest` | src/search/types.rs:44-53 | phase two for `KeywordRequest`: `top_k` becomes `Some(1)` exactly when absent; a missing `keyword_query` fails |
| `Types.DecodeSearchRequest` | src/search/types.rs:12-24 | decoding succeeds iff `query` is a string, `top_k` is absent, null or a u32, and `full_metadata` is absent, null or a boolean; an absent field takes its default and a null one is `None` |
| `Types.DecodeAuthorSearchRequest` | src/search/types.rs:26-30 | succeeds iff `author` is a string; a missing `author` is a `MissingField` error |
| `Types.DecodePapersPayload` | src/search/types.rs:32-36 | succeeds iff `files` is an array of strings, which may be empty; the files are kept in order; a missing `files` is a `MissingField` error |
| `Types.DecodeSearchDocumentRequest` | src/search/types.rs:38-42 | succeeds iff `doc_id` is a string; a missing `doc_id` is a `MissingField` error |
| `Types.DecodeKeywordRequest` | src/search/types.rs:44-53 | succeeds iff `keyword_query` is a string and `top_k` is absent, null or a u32; an absent `top_k` is `Some(1)` |
| `Types.SearchRequestToValue` | src/search/types.rs:12-24 | the serialized request is an object whose keys are exactly the field names `query`, `top_k`, `full_metadata` |
| `Types.AuthorSearchRequestToValue` | src/search/types.rs:26-30 | the serialized request has exactly the key `author` |
| `Types.SearchDocumentRequestToValue` | src/search/types.rs:38-42 | the serialized request has exactly the key `doc_id` |
| `Types.KeywordRequestToValue` | src/search/types.rs:44-53 | the serialized request has exactly the keys `keyword_query` and `top_k` |
| `Types.SearchRequestRoundTrip` | src/search/types.rs:12-24 | decoding a serialized `SearchRequest` gives it back unchanged |
| `Types.AuthorSearchRequestRoundTrip` | src/search/types.rs:26-30 | decoding a serialized `AuthorSearchRequest` gives it back |
| `Types.SearchDocumentRequestRoundTrip` | src/search/types.rs:38-42 | decoding a serialized `SearchDocumentRequest` gives it back |
| `Types.KeywordRequestRoundTrip` | src/search/types.rs:44-53 | decoding a serialized `KeywordRequest` gives it back unchanged |
| `Bridge.Url` | src/search/mod.rs:28 | the URL is the base URL, then `/`, then the endpoint path |
| `Bridge.UrlRoundTrip` | src/search/mod.rs:28 | the endpoint can be read back from the URL |
| `Bridge.UrlInjective` | src/search/mod.rs:28 | different endpoints give different URLs |
| `Bridge.PrepareRequest` | src/search/mod.rs:28-41 | the request keeps the method and URL; query params are attached iff given, and a multipart form iff given, independently; each comes with its content type (`application/json` or `multipart/form-data`) |
| `Bridge.Classify` | src/search/mod.rs:43-58 | success iff status 200 with a read and parsed body, and then the parsed value unchanged; an `Api` error iff the status is not 200, carrying that status, with "Could not process request" for 422 and "Request failed" otherwise; a `Request` error iff sending fails or the 200 body cannot be read; a `Json` error iff the 200 body does not parse |
| `Bridge.Request` | src/search/mod.rs:21-59 | one request to `<base>/<endpoint>`: success iff the backend answers 200 with a readable body that parses, and then the parsed value; a transport failure becomes a `Request` error with its cause; 422 becomes `Api(422, "Could not process request")` and any other status `Api(status, "Request failed")`; `Url`, `PrepareRequest` and `Classify` state the parts |
| `Bridge.NonOkIgnoresBody` | src/search/mod.rs:50-57 | for any status other than 200 the result depends on the status alone, not on the body or the parser |
| `Server.BuildForm` | src/server/mod.rs:98-101 | the loop builds one `files[]` text part per file, in input order |
| `Server.FormKeepsFiles` | src/server/mod.rs:98-101 | the form's parts give back the uploaded files, in order |
| `Server.SentRequest` | src/server/mod.rs:43-166 | routing: `search`, `search_by_author`, `search_by_doc_id` (to `document_details_by_id`) and `search_by_keyword` send GET with query params and no form; `upload_papers` sends POST to `upload_papers` with no query and one `files[]` part per file |
| `Server.QueryCarriesRequest` | src/server/mod.rs:53 | the query params of a GET tool are keyed by the request's field names and decode back to the request |
| `Server.UrlIdentifiesTool` | src/config.rs:2-6 | two tool calls that send to the same URL are calls of the same tool |
| `Server.EmptyUploadIsForwarded` | src/server/mod.rs:98-105 | an upload with no files is still sent: a POST with a zero-part form and no query params |
| `Server.EndpointFollowsToolName` | src/config.rs:2-6 | each endpoint path equals its tool's name, except that `search_by_doc_id` uses `document_details_by_id` |
| `Server.CallTool` | src/server/mod.rs:43-166 | for each of the five backend tools: success iff the bridge succeeds, and then a success with the backend JSON as its single content item; otherwise an internal error whose message is the tool's prefix followed by the error's display text |
| `Server.ErrorMessageCarriesError` | src/server/mod.rs:61-64 | an error message starts with the tool's prefix, and the text after it reads back as the bridge's error |
| `Server.PrefixNamesTool` | src/server/mod.rs:62 | the five error prefixes are told apart: a message built on one tool's prefix is attributed to that tool |
| `Server.ErrorMessageNamesTool` | src/server/mod.rs:61-64 | the tool named by a failed call's message is the tool that was called |
| `Server.DocumentErrorNamesDocument` | src/server/mod.rs:136-139 | a failed `search_by_doc_id` message contains the requested `doc_id` |
| `Server.DocumentPrefixNamesDocument` | src/server/mod.rs:137 | the document-lookup error prefix embeds the requested `doc_id`, whatever text follows it |
| `Server.ApiTextMentions` | src/search/errors.rs:5-6 | a prefixed `Api` display text contains the status code in decimal and the message |
| `Server.BackendJsonReturnedUnchanged` | src/server/mod.rs:58-60 | with a 200 whose body parses, the tool returns a success whose one content item is the parsed JSON |
| `Server.UnprocessableReported` | src/search/mod.rs:50-53 | a 422 for any tool gives an error whose message contains "Could not process request" and "422" |
| `Server.OtherStatusReported` | src/search/mod.rs:54-57 | any other non-200 status, 2xx included, gives an error whose message contains "Request failed" and the status |
| `Server.TransportFailureReported` | src/search/mod.rs:43 | a failure to send gives the tool's prefix, then `HTTP request failed: `, then the cause |
| `Server.ToolNameFacts` | src/server/mod.rs:174 | tool names contain no line break, and distinct tools have distinct names |
| `Server.ToolNames` | src/server/mod.rs:170-175 | exactly six names, the k-th being the name of the k-th registered tool; every tool's name is present, none repeated and none with a line break |
| `Server.DistinctToolsSize` | src/server/mod.rs:170-175 | a list of tools without repeats has as many members as distinct tools |
| `Server.RegistrySize` | src/server/mod.rs:170-175 | a registry that lists each of the six tools once has exactly six entries |
| `Server.ListTools` | src/server/mod.rs:168-179 | `list_tools` always succeeds with one text item; split on `\n`, it gives back the registered names: every tool's name, each once |

## Left out

- src/main.rs: command-line parsing, tracing, the SSE and stdio transports, and ctrl-c handling. These are process bootstrap and I/O.
- `get_info` (src/server/mod.rs:184-194). Its instructions text is the debug rendering of a library value, and its protocol and capability values come from library builders.
- The rmcp macros, the router and JSON-schema generation. The tool set is the closed datatype `Server.Tool`. The router's listing order is not visible, so `ListTools` takes the registry as a duplicate-free enumeration of the tools and claims no order.
- The reqwest client, async/await and headers other than `Content-Type`. `.multipart()` may set its own `Content-Type` with a boundary; the model records only the two values the source sets.
- Query-string encoding of the params. They are kept as the JSON object, so how a `null` field is encoded is not modelled. An encoding failure would surface at send time, and the abstract `send` may return `SendFailed` for any request.
- JSON parsing. The parser is the abstract `parseJson`. JSON numbers are integers only, so floating-point numbers are not modelled.
- `Server.CallTool`: `Content::json` renders the value as JSON text in the library; the model keeps the value itself as `JsonContent`.
- The `.unwrap()` calls on serialization and on `Content::json` are taken to succeed.
- `Types.DecodeSearchRequest` and the other decoders: when several fields are wrong, the JSON library reports the first one in the object's key order. The model's argument object is a map with no key order, so it checks fields in declaration order. Error messages are modelled as the variants `MissingField` / `InvalidType` with the field name, not as the library's wording.
- Duplicate keys in the argument object cannot be expressed in a map and are not modelled.
- The `From` conversions of the library errors: each library error is kept as the text its own display writes.
- Status codes range over 100 to 999, the range the HTTP library admits.
