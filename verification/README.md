# A verified model of the typed web API engine

This project models, in Dafny 4.11, the runtime engine behind a typed web API: the router
that an API description is compiled to, the endpoint pipeline with its one-shot request body,
the framed streams, and the printers and parsers that one description gives rise to on the
client, the link builder, the server and the documentation. `dafny verify dfyconfig.toml`
checks it.

Code that the program writes as loops over mutable state is written here as methods and
classes, each proved against a specification function; what the program promises is then
proved of those functions as lemmas. Lemmas switch automatic induction off, so that every
induction is spelled out.

| files | part of the program |
|---|---|
| `Basics`, `TextLists` | options, results, bytes and text; splitting and joining |
| `RouteResults`, `Routing`, `RoutingTheorems` | the three-way outcome and best-error order; the merged trie and its interpreter; the trie as a linear scan |
| `RequestBodies`, `Chains`, `Extraction`, `Endpoints`, `EndpointTheorems` | the body slot; an endpoint as a chain of combinators and the walks over it; the phases of a call; body and authentication theorems, host guards |
| `Phases`, `Scopes`, `Arguments` | what a call decides, told of the request alone: the phases and their errors, named contexts as scopes, and what each combinator hands to the handler or refuses |
| `Negotiation` | Accept negotiation (section 12.5.1 of RFC 9110) and the codec that owns the answer |
| `Framing`, `ClientStream`, `ServerStream`, `Delivery`, `ServerSentEvents` | the four framings, the incremental and buffered decoders, server-sent events (section 9.2.5 of the HTML Living Standard) |
| `QueryCodec`, `DeepQueries`, `Targets`, `UrlBuilders`, `UrlPaths`, `UrlPairs`, `UrlRoundTrip` | percent-encoding (RFC 3986), query pairs and deep-object keys; the client and link printers; the end-to-end round trip |
| `AcceptLoop` | connection permits |
| `ApiDocs`, `RepeatedKeys`, `OpenApi` | the documentation merge, its laws for repeated keys, and the OpenAPI document |

## What turned out to need a condition

Several properties hold only under a condition. Each is proved as an equivalence.

- The trie equals the linear scan in every detail of the model exactly when recoverable 404s are
  plain: a decorated 404 behind an empty sibling loses its payload to the sibling's plain one. The
  server's own leaves are plain, so its trie is exactly the scan.
- A query pair with an empty key and no value is printed as nothing and is lost; every other
  list of pairs survives. A deep-object entry is lost when a segment holds `]`, or when it is a
  root-only flag under an empty root.
- The limited netstring parser refuses a length prefix longer than the limit as too large only
  while no colon has arrived. Behind more leading zeros than the limit an empty item arrives in
  one piece and is refused when it is cut before its colon. The outcome is independent of the
  chunking exactly when every such prefix, at the frame starts that are reached, stands for a
  length beyond the limit.
- The client bounds the bytes that wait for the rest of their frame, never the whole stream. A
  chunking gives the outputs of the whole body exactly when the waiting bytes stay within the
  limit, as they do when the longest frame and the longest chunk together fit it. All chunkings
  agree exactly when the body is within the limit or its first frame is not complete within it;
  so it is on the server for the framings other than netstring.
- Server-sent events come back, on a stream of any length, exactly when no field holds a carriage
  return, no name or id a line feed, and the waiting bytes stay within the limit.
- A URL gives its arguments back exactly when the path does not end in an empty piece (which the
  router takes for a trailing slash), no capture-all begins with an empty piece (which it drops),
  each path argument is one its capture reads back, and each query argument is found in the
  printed query: the first pair under a single name decodes to it, and no other combinator's pair
  is valued under a list's names. When no key is read under two names this comes down to each
  argument for itself: its value survives its codec, a query parameter holds no lenient error, and
  a set flag has a name. A concrete chain shows two parameters of one name losing an argument.
- Extending documentation is associative over a middle document exactly when each repetition of a
  key in it adds nothing to the first endpoint of that key; documents built from an API repeat no
  key. The empty document is a unit on the left of exactly the documents with unique keys.

The documentation of the merge key speaks of path and method (`servant-docs/src/model.rs:217-219`);
the code also compares the host, leaves the method out for raw endpoints, and compares captures
and literal segments by the same rendered text, so a literal `:id` and a capture named `id` merge.
The model follows the code. The client's netstring parser accepts a length with a leading plus
sign, the server's does not (`Framing.SignedLength`). An item that does not decode ends the server's
stream and not the client's, and a transport error makes the server drop what waits and the client
hand it over; the model keeps both.

## Model

| member | source | states |
|---|---|---|
| `RouteResults.CombineBestAssociative` | servant-server/src/result.rs:36-47 | the best-error combination, with no error as its unit, is associative, so nested choices may be regrouped |
| `RouteResults.BestOfIsBest` | servant-server/src/result.rs:20-47 | the fold keeps exactly the earliest failure of highest rank, and stays on it however many follow |
| `RouteResults.BestWins` | servant-server/src/result.rs:20-47 | the failure that wins, told by status code: the first 400 if there is one, else the first with a code outside the six ranked ones, else the first 406, 415, 401, 405 or 404, in that order |
| `Routing.MergeHintsLoop` | servant-server/src/router.rs:92-99 | the capture hints of the left router, then those of the right one that are new, in order |
| `Routing.MergeHintsIs` | servant-server/src/router.rs:92-99 | merged hints are those of the left router, followed by those of the right one that it lacks, each where it occurs first |
| `Routing.MergeRouters` | servant-server/src/router.rs:80-107 | the in-place smart constructor yields the merge of the two trees: map entries united, captures fused, choices reassociated |
| `Routing.RunChoiceLeaves` | servant-server/src/router.rs:179-197 | the leaf loop is the left-biased search over leaves that carries the best error and the threaded state |
| `Routing.RawGetsTheRest` | servant-server/src/router.rs:159-162 | a raw leaf is called with every segment that is left, a lone empty one counting as none |
| `RoutingTheorems.RunLeavesIsWalk` | servant-server/src/router.rs:179-197 | trying the leaves of a node is walking their candidates |
| `RoutingTheorems.PossibleCalls` | servant-server/src/router.rs:119-205 | no leaf is ever called with a lone empty segment as its tail |
| `RoutingTheorems.DispatchIsScan` | servant-server/src/router.rs:119-177 | on every tree, path and state the interpreter decides, ends in the state and fails as the linear scan of the candidate list does, up to the payload of a 404 |
| `RoutingTheorems.ExactlyScanIffPlainNotFound` | servant-server/src/router.rs:114-177 | interpreter and scan agree on every input, payloads included, if and only if recoverable 404s are plain |
| `RoutingTheorems.MergeAppendsCandidates` | servant-server/src/router.rs:80-107 | the candidates of a merged router are those of the left followed by those of the right, for every path |
| `RoutingTheorems.ServedCandidates` | servant-server/src/serve.rs:175-186 | the served trie offers the candidates of its endpoints from left to right |
| `RoutingTheorems.ServedIsFlatScan` | servant-server/src/serve.rs:175-203 | serving an API is trying its endpoints in declaration order |
| `RoutingTheorems.NestingIrrelevant` | servant-server/src/serve.rs:175-186 | APIs with the same endpoints in the same order are served alike however their alternatives are nested |
| `RoutingTheorems.WalkSelects` | servant-server/src/router.rs:179-197 | when failures leave the state alone, the walk stops at the first candidate that does not fail recoverably, judged in the initial state |
| `RoutingTheorems.DispatchSelects` | servant-server/src/router.rs:119-197 | when failures leave the state alone, one leaf alone changes it; if all fail the error is the one of theirs that wins by status code, its payload included where recoverable 404s are plain |
| `Negotiation.NegotiateMediaIndex` | servant/src/content/negotiation.rs:82-131 | on parsed ranges, the nested loops compute the negotiated index, early returns included |
| `Negotiation.SpecificityIs` | servant/src/content/negotiation.rs:51-61 | a range matches at level 1 anything, at level 2 a kind, at level 3 a kind and subtype, letter case aside, and at no other |
| `Negotiation.WorthOfIsWorth` | servant/src/content/negotiation.rs:51-66 | a type takes the quality of its most specific matching range, and of the best of those that tie |
| `Negotiation.NegotiateOptimal` | servant/src/content/negotiation.rs:82-131 | the answer is the earliest type maximising quality and then specificity among those of positive quality, and there is none exactly when no type is acceptable |
| `Negotiation.AbsentTakesFirst` | servant/src/content/negotiation.rs:86-89 | without an Accept header the first type is served |
| `Negotiation.WorthOrderFree` | servant/src/content/negotiation.rs:96-116 | what a type is worth does not depend on the order or repetition of the ranges |
| `Negotiation.NegotiateOrderFree` | servant/src/content/negotiation.rs:82-131 | permuting or repeating Accept ranges does not change the answer |
| `Negotiation.RenderIndex` | servant/src/content/lists.rs:67-81 | counting the index down marker by marker finds the codec that owns the flattened index |
| `Negotiation.OwnerOwns` | servant/src/content/lists.rs:56-81 | an index has an owner exactly when it is in range, and the owner lists that very media type at the remaining position |
| `Negotiation.AcceptCheckGuardsRender` | servant-server/src/extract/terminal.rs:41-84 | once the accept check has passed, rendering is in range and uses the codec that lists the negotiated type |
| `Negotiation.OwnTypesAccepted` | servant-server/src/extract/terminal.rs:41-47 | a request that accepts the endpoint's own types passes the accept check |
| `RequestBodies.BodyStream.Next` | servant-server/src/request/body.rs:115-141 | polling yields the first data frame behind any trailers, or the message of a broken one as an error after which nothing comes, or the end |
| `RequestBodies.ChunksOfFrames` | servant-server/src/request/body.rs:115-141 | a stream yields the data frames before the first broken one, each as one chunk, then that frame's message as an error, then nothing |
| `RequestBodies.CollectReadsFrames` | servant-server/src/request/body.rs:148-166 | collecting gives all the data exactly when no frame is broken and the data fits the limit; otherwise 400 when what comes before the first broken frame fits, and 413 when it does not |
| `RequestBodies.CollectLimited` | servant-server/src/request/body.rs:148-166 | the collecting loop has that outcome on the frames |
| `RequestBodies.RequestBody.Buffer` | servant-server/src/request/body.rs:47-54 | buffering takes the stream once, keeps its bytes, and leaves the slot taken on failure |
| `RequestBodies.RequestBody.GetBuffered` | servant-server/src/request/body.rs:56-63 | reading buffered bytes never changes the slot and fails unless they are there |
| `RequestBodies.RequestBody.TakeStream` | servant-server/src/request/body.rs:65-78 | the live stream is handed out once; buffered bytes stay where they are |
| `RequestBodies.RequestBody.TakeForBuffering` | servant-server/src/request/body.rs:91-102 | the slot transition that precedes buffering |
| `RequestBodies.TakenRefusesAll` | servant-server/src/request/body.rs:47-102 | a taken body refuses every later use, each with its own error, and stays taken |
| `RequestBodies.BufferedStays` | servant-server/src/request/body.rs:47-102 | a buffered body gives the same bytes for ever and refuses to be streamed |
| `RequestBodies.UsesOfFreshBody` | servant-server/src/request/body.rs:47-102 | what every use hands out, over every sequence of uses of a fresh body: the first that buffers or takes it decides, and before it, on it and after it each use gets its bytes, the body itself, or its own error |
| `RequestBodies.BodyIsOneShot` | servant-server/src/request/body.rs:47-102 | so the stream, the body itself, is given out at most once and never beside bytes; bytes are the data of all its frames, given only when none is broken and they fit |
| `Extraction.ParseSegments` | servant-server/src/extract/captures.rs:86-101 | the capture-all loop parses every segment or stops at the first error |
| `Extraction.ValidateCaptures` | servant-server/src/extract/captures.rs:20-85 | the validation walk gives the specified verdict and, when it succeeds, has moved its index past every capture |
| `Extraction.CollectQueryParams` | servant-server/src/extract/extractors.rs:70-91 | the loop collects the valued entries under the plain and the bracketed name, in order |
| `Extraction.ExtractState.NextCapture` | servant-server/src/extract/state.rs:32-34 | the capture cursor yields the next segment and moves on |
| `Extraction.ExtractState.TakeCaptureAll` | servant-server/src/extract/state.rs:36-38 | the rest segments are handed out once |
| `Extraction.ExtractState.TakePrechecked` | servant-server/src/extract/state.rs:61-68 | the first queued user of the type is removed, the others keep their order |
| `Extraction.ExtractState.ResolveBasicUser` | servant-server/src/extract/auth.rs:37-58 | basic authentication, on the state, as `Scopes.NamedBasicDecides` and `Scopes.UnconfiguredIsFatal` tell it: no check in force 500, missing or refused credentials 401, and no check is run without credentials |
| `Extraction.ExtractState.ResolveProtectedUser` | servant-server/src/extract/auth.rs:117-131 | protected authentication, on the state, as `Scopes.NamedAuthDecides` tells it: the innermost check decides with its own error |
| `Extraction.ExtractState.PreBodyCheck` | servant-server/src/extract/named_context.rs:7-43 | the pre-body walk queues one user per authentication combinator and pops every context it pushed |
| `Extraction.ExtractState.ExtractArgs` | servant-server/src/extract/chain.rs:60-83 | the stateful extraction over the shared cursors is the specified extraction, body slot included, whose arguments and refusals `Arguments.ExtractReads` and `Arguments.ExtractRefuses` tell |
| `Extraction.NothingTaken` | servant-server/src/extract/state.rs:61-68 | a type without a queued user takes nothing and leaves the queue as it was |
| `Scopes.LookupIsInnermost` | servant-server/src/extract/state.rs:40-47 | an entry is found exactly when some context in force holds it, and is that of the context pushed last among those that do |
| `Scopes.TopThenOuter` | servant-server/src/extract/state.rs:40-47 | checks, resources and named contexts alike: what the context pushed last holds, else what is found below it |
| `Scopes.NamedBasicDecides` | servant-server/src/extract/auth.rs:37-86 | under a named context that holds a basic check of the type, that check alone decides whatever the outer contexts hold: 401 when it refuses or there are no credentials, else exactly its user is queued |
| `Scopes.NamedAuthDecides` | servant-server/src/extract/auth.rs:117-131 | the same of a custom check, whose own error is the one the request fails with |
| `Scopes.SilentContextBasic` | servant-server/src/extract/named_context.rs:7-24 | where the named context holds no basic check of the type the combinator does what it does outside it |
| `Scopes.SilentContextAuth` | servant-server/src/extract/named_context.rs:7-24 | the same of a custom check |
| `Scopes.UnconfiguredIsFatal` | servant-server/src/extract/auth.rs:41-43 | a check that no context in force holds is a fatal 500 |
| `Scopes.NamedResourceDecides` | servant-server/src/extract/wrappers.rs:183-192 | under a named context that holds a resource of the type, the argument is that one whatever the outer contexts hold |
| `Scopes.SilentContextResource` | servant-server/src/extract/named_context.rs:43-46 | where it holds none the combinator takes what it takes outside it |
| `Endpoints.EndpointLeaf.Call` | servant-server/src/handler.rs:40-128 | the endpoint call in place: the phases that `Phases.PhasesDecide` tells, then the course that `Arguments.EndpointOnFreshBody` tells |
| `EndpointTheorems.ValidatedNeverFails` | servant-server/src/extract/captures.rs:20-101 | once the validation walk has succeeded the extraction walk never fails recoverably, over every chain |
| `EndpointTheorems.PreBodyNeverFails` | servant-server/src/extract/auth.rs:78-131 | the pre-body walk never fails recoverably and leaves the capture cursors alone |
| `EndpointTheorems.GatedNeverFails` | servant-server/src/handler.rs:40-128 | past the recoverable phases nothing fails recoverably any more |
| `EndpointTheorems.EndpointFailKeepsBody` | servant-server/src/handler.rs:40-128 | an endpoint that fails recoverably decided so before it touched the body |
| `EndpointTheorems.ServerFailKeepsBody` | servant-server/src/handler.rs:40-128 | that holds of every leaf a server runs, guarded and raw ones included |
| `EndpointTheorems.ServerNotFoundIsPlain` | servant-server/src/handler.rs:58-63 | the recoverable 404s of everything a server runs carry no payload |
| `EndpointTheorems.BodySurvivesBacktracking` | servant-server/src/router.rs:119-197 | every candidate starts with the unconsumed body, the first decisive one alone uses it, and if all fail the body is untouched and the error is exactly the one of theirs that wins by status code |
| `EndpointTheorems.ServerIsExactlyScan` | servant-server/src/router.rs:114-177 | the server's recoverable 404s are plain, so its trie does exactly what the scan of its endpoints does |
| `EndpointTheorems.PreBodyAuthenticates` | servant-server/src/extract/auth.rs:78-131 | the queue after the pre-body walk holds the users of the chain, each checked once, in order |
| `EndpointTheorems.ExtractTakesUsers` | servant-server/src/extract/auth.rs:88-145 | extraction takes the queued users in order without running a check |
| `EndpointTheorems.UsersLineUp` | servant-server/src/extract/state.rs:41-68 | each authentication argument is the user its own check produced, the queue ends empty, no check runs twice and the context stack is restored |
| `EndpointTheorems.GuardedCandidates` | servant-server/src/serve/raw.rs:166-189 | a guarded router offers the same candidates at the same calls, each behind the guard |
| `EndpointTheorems.GuardCommutes` | servant-server/src/serve/raw.rs:130-189 | a guarded router dispatches as the bare one when the guard matches and is otherwise a plain 404 with the body untouched |
| `EndpointTheorems.RawLeafAnswers` | servant-server/src/raw.rs:108-124 | a raw leaf answers from its tail and all the data of the body, or commits to the error of reading it |
| `Phases.ValidateDecides` | servant-server/src/extract/captures.rs:20-101 | validation passes exactly when every capture has a segment and every strict or rest segment parses; otherwise it fails as the first combinator for which not, with 404 or a 400 that names it |
| `Phases.HostsDecide` | servant-server/src/extract/wrappers.rs:62-70 | the host check passes exactly when the request has a host that every requirement of the chain admits, and is otherwise a plain 404 |
| `Phases.MethodDecides` | servant-server/src/handler.rs:65-70 | the method is the terminal combinator's, or HEAD where that is GET |
| `Phases.AcceptDecides` | servant-server/src/extract/terminal.rs:41-47 | the accept check passes exactly when the endpoint lists no media types or one of them is acceptable |
| `Phases.ContentTypeDecides` | servant-server/src/handler.rs:79-84 | the content type is judged by the first combinator that takes the body, if there is one |
| `Phases.BuffersDecides` | servant-server/src/handler.rs:98-105 | the body is buffered exactly when the first combinator that takes it reads it whole |
| `Phases.PhasesDecide` | servant-server/src/handler.rs:54-84 | what an endpoint answers before it commits, and in which order: the first capture's error, then 404, 405, 406, 415, each with the body untouched; a request that passes all never fails recoverably, and only such a request is answered |
| `Arguments.BuildArgPresents` | servant/src/modifiers.rs:71-121 | presence and strictness: which argument a decoding outcome gives, and when it is missing or unparsable |
| `Arguments.LookupFindsFirst` | servant-server/src/extract/extractors.rs:256-261 | a query lookup finds the first pair under the name |
| `Arguments.CollectDecodes` | servant-server/src/extract/extractors.rs:70-91 | a list is the decoded values under the plain and the bracketed name, in the order of the query |
| `Arguments.ParseAllDecodes` | servant-server/src/extract/captures.rs:86-101 | a rest is the decoded segments, one for one |
| `Arguments.ExtractReads` | servant-server/src/extract/chain.rs:60-83 | extraction with its cursors, queue and context stack gives exactly the arguments of the chain, one for each combinator that gives one, each told from the request |
| `Arguments.ExtractRefuses` | servant-server/src/extract/chain.rs:60-83 | extraction that commits to a failure does so as the first combinator that refuses, with that combinator's error |
| `Arguments.HandlerReceives` | servant-server/src/handler.rs:54-116 | on a fresh body a handler receives an argument list if and only if the request is admitted, the body can be read, and the list is the chain's: a body argument decodes the data of all frames, a stream is the body itself, a user is given by the innermost check, and so for headers, deep queries, whole queries, resources and request information |
| `Arguments.RespondResponds` | servant-server/src/extract/terminal.rs:61-84 | a handler's output is represented in the best acceptable media type, by the codec that lists it, without a body for HEAD; its error is itself the response |
| `Arguments.EndpointOnFreshBody` | servant-server/src/handler.rs:86-127 | an admitted request to its end: the first refusing check's error with the body untouched, else the error of reading the body, else the response to the chain's arguments or the first refusing combinator's error |
| `TextLists.Position` | servant/src/query.rs:95-104 | the search loop finds the first separator |
| `TextLists.SplitJoin` | servant/src/query.rs:95-120 | splitting joined parts gives them back when none holds the separator |
| `TextLists.JoinSplit` | servant/src/query.rs:95-120 | joining what was split gives the text back, for every text |
| `QueryCodec.EncodeByteIs` | servant/src/query.rs:23-27 | letters, digits and four marks stand for themselves, every other byte is escaped in upper-case hexadecimal |
| `QueryCodec.PercentDecodeIs` | servant/src/query.rs:126-129 | an escape in either case decodes to its byte and any other byte to itself, so that nothing is malformed |
| `QueryCodec.ParsePairIs` | servant/src/query.rs:95-104 | the first equals sign divides a piece, and a piece without one is a bare key |
| `QueryCodec.ParsePiecesMore` | servant/src/query.rs:95-104 | every piece but the empty ones gives one pair, in order |
| `QueryCodec.EncodedIsSafe` | servant/src/query.rs:23-27 | encoded text holds unreserved bytes and escapes only, as sections 2.1 and 2.3 of RFC 3986 have it |
| `QueryCodec.DecodeEncoded` | servant/src/query.rs:122-129 | decoding gives back encoded text in front of anything |
| `QueryCodec.DecodeComponentEncode` | servant/src/query.rs:122-129 | the query component codec round-trips every text |
| `QueryCodec.ParseRenderedPair` | servant/src/query.rs:95-120 | one printed pair parses to itself, with a bare key told from an empty value |
| `QueryCodec.ParseRender` | servant/src/query.rs:95-120 | printing and parsing a list drops exactly the bare empty keys and keeps order and duplicates |
| `QueryCodec.QueryRoundTripIff` | servant/src/query.rs:95-120 | the round trip is exact if and only if no pair is a bare empty key |
| `DeepQueries.ParsePathLoop` | servant/src/query/deep.rs:250-274 | the bracket loop computes the path of a suffix or its first error |
| `DeepQueries.ParseDeepQuery` | servant/src/query/deep.rs:204-220 | the entry loop collects the entries under a root in order |
| `DeepQueries.RenderDeepQueryKey` | servant/src/query/deep.rs:222-231 | the key-building loop prints the root and one bracketed group per segment |
| `DeepQueries.RenderKeyMore` | servant/src/query/deep.rs:222-231 | a printed key is the encoded root and, for each segment, the encoded segment between plain brackets |
| `DeepQueries.ParsePathIff` | servant/src/query/deep.rs:250-274 | a suffix parses to a path if and only if it is that path's bracketed text and no segment holds a closing bracket |
| `DeepQueries.ParsePathFails` | servant/src/query/deep.rs:250-274 | which error a suffix gives: a bracket that is not closed, or text where a bracket should open |
| `DeepQueries.ParseDeepIff` | servant/src/query/deep.rs:204-220 | a query parses to these entries if and only if they are, one for one and in order, those of the pairs whose key is the root or begins with it and a bracket |
| `DeepQueries.OpeningBracketNeverMissing` | servant/src/query/deep.rs:204-220 | the missing-opening-bracket error cannot come out of a whole query |
| `DeepQueries.DeepQueryRoundTripIff` | servant/src/query/deep.rs:204-248 | rendered, joined, split and parsed entries come back in order if and only if no segment holds a closing bracket and none is a root-only flag under an empty root |
| `Framing.FindEventEnd` | servant/src/stream/sse.rs:31-52 | the window loop finds the first blank line and its length |
| `Framing.FrameBuffer.Take` | servant/src/stream.rs:117-172 | draining the buffer cuts off the first frame and leaves the rest; without a frame it leaves the buffer alone |
| `Framing.FrameBuffer.TakeNetstring` | servant/src/stream.rs:156-172 | the netstring cut, with its length parser and the comma check |
| `Framing.FrameBuffer.TakeLimited` | servant/src/stream.rs:85-104 | the size-limited cut and its errors |
| `Framing.BlankLineIs` | servant/src/stream/sse.rs:31-52 | a blank line is one of four byte sequences, and its length is that of the one that is there |
| `Framing.NetstringVerdict` | servant/src/stream.rs:174-236 | the outcome of the bounded cut by what stands before the first colon and what follows it |
| `Framing.NoColonVerdict` | servant/src/stream.rs:180-191 | and without a colon: too large beyond the limit, malformed at the end of the stream |
| `Framing.OtherVerdict` | servant/src/stream.rs:85-104 | the other framings are refused only for their size; what is left at the end is an item, so that an incomplete trailing frame is never reported |
| `Framing.SignedLength` | servant/src/stream.rs:156-172 | a netstring with a plus sign before its length is cut by the client and refused by the server |
| `Framing.Deframe` | servant/src/stream.rs:75-84 | a cut removes a non-empty prefix, so the decoding loops end |
| `Framing.EventEndStable` | servant/src/stream/sse.rs:31-52 | no earlier line-ending window can complete once a later one is found: more data does not move an event's end |
| `Framing.NetstringStable` | servant/src/stream.rs:156-172 | more data does not change a netstring that is already whole |
| `Framing.DeframeStable` | servant/src/stream.rs:117-172 | for all four framings a frame that is cut off stays cut off when data is appended |
| `ClientStream.DeframeDecode.Next` | servant-client/src/client/streaming.rs:122-161 | the incremental decoder yields the specified run, item by item, with its size bound and end flush |
| `ClientStream.EndOfStream` | servant-client/src/client/streaming.rs:127-139 | at the end what waits is an item, or an incomplete one with netstrings |
| `ClientStream.BrokenOff` | servant-client/src/client/streaming.rs:150-157 | a transport error is reported, what waits is dealt with as at the end, and nothing follows |
| `ClientStream.BadItemGoesOn` | servant-client/src/client/streaming.rs:122-132 | an item that does not decode is reported in its place and the items after it still come |
| `ClientStream.UnframedIsOneItem` | servant/src/stream.rs:121-135 | an unframed body within the limit is one item however it is cut, and an empty one none |
| `ClientStream.ChunkIndependence` | servant-client/src/client/streaming.rs:122-161 | for a body of any length, ended or broken off, and any way of cutting it: the outputs are those of the whole body at once if and only if the waiting bytes stay within the limit |
| `ClientStream.ShortBodyStaysWithin` | servant-client/src/client/streaming.rs:141-149 | the waiting bytes of a body within the limit stay within it however it is cut |
| `ClientStream.ClientIndependentIff` | servant-client/src/client/streaming.rs:122-161 | a body gives the same outputs under every chunking if and only if it is within the limit or its first frame is not complete within it |
| `ClientStream.ChunkingIrrelevant` | servant-client/src/client/streaming.rs:102-161 | two ways of cutting the same body of at most 8 MiB give the same outputs |
| `ClientStream.CollapseIs` | servant/src/uverb/decode.rs:63-85 | the buffered decoder reports the first error there is, or all the items when there is none |
| `ClientStream.DrainItems` | servant/src/uverb/decode.rs:72-82 | one drain loop decodes frames until none is left or one does not decode, and terminates |
| `ClientStream.DecodeStreamArm` | servant/src/uverb/decode.rs:63-85 | the buffered decoder: both loops, the incomplete-frame verdict and the media check |
| `ClientStream.BufferedAgreesWithIncremental` | servant/src/uverb/decode.rs:72-82 | the buffered decoder gives the items and the verdict of the incremental one under any chunking whose waiting bytes stay within the limit |
| `ServerStream.StreamDecoder.Next` | servant-server/src/stream_body.rs:29-72 | the fused server decoder yields the specified run |
| `ServerStream.ItemsThenAtMostOneError` | servant-server/src/stream_body.rs:29-72 | every run is items, at most one error, then the end |
| `ServerStream.ServerEnds` | servant-server/src/stream_body.rs:29-72 | at the end what waits is an item, and with netstrings a malformed frame |
| `ServerStream.ServerBreaksOff` | servant-server/src/stream_body.rs:29-72 | a transport error is the last thing reported and what waits is dropped |
| `ServerStream.BadItemEnds` | servant-server/src/stream_body.rs:29-72 | an item that does not decode is the last thing reported |
| `ServerStream.NetstringLimitedStable` | servant/src/stream.rs:174-226 | more data does not change a decision of the limited netstring parser unless its prefix is still open |
| `ServerStream.ServerChunks` | servant-server/src/stream_body.rs:29-72 | a steady body, or for the other framings one within the limit, gives the same run under every chunking |
| `ServerStream.ServerIndependentIff` | servant/src/stream.rs:85-104 | for the framings other than netstring, a body gives the same run under every chunking if and only if it is within the limit or its first frame is not complete within it |
| `ServerStream.TooLargeIff` | servant/src/stream.rs:174-236 | a length prefix longer than the limit is refused as too large on the whole body exactly when its digits stand for a machine-word length beyond the limit |
| `ServerStream.UnsteadyCut` | servant/src/stream.rs:174-226 | a body in which some reached length prefix is longer than the limit without standing for a length beyond it has a chunking that changes the outcome |
| `ServerStream.ChunkIndependentIffSteady` | servant/src/stream.rs:174-226 | the outcome of a netstring body is independent of its chunking if and only if every reached length prefix that is longer than the limit stands for a length beyond it |
| `ServerStream.PaddedTwoWays` | servant/src/stream.rs:174-226 | an empty item behind more leading zeros than the limit arrives when sent in one piece and is refused as too large when cut before its colon |
| `ServerStream.PaddedDependsOnChunking` | servant/src/stream.rs:19-22 | that body depends on its chunking at the server's own limit |
| `ServerStream.FramesDeliver` | servant/src/stream.rs:149-236 | framed items that fit the limit are steady and decode to themselves |
| `ServerStream.NetstringDelivers` | servant/src/stream.rs:149-236 | items that fit arrive exactly, in order and complete, under every chunking of their frames |
| `ServerStream.NetstringDeliversAtDefaultLimit` | servant/src/stream.rs:19-22 | at the default limit of 8 MiB only the items' sizes matter |
| `Delivery.ClientReceivesIff` | servant-client/src/client/streaming.rs:122-161 | on a stream of any length, pieces that are cut off whole arrive one by one if and only if the waiting bytes stay within the limit |
| `Delivery.SmallPiecesStayWithin` | servant-client/src/client/streaming.rs:141-149 | they do whenever the longest piece and the longest chunk together fit the limit, however long the stream |
| `Delivery.ClientReceives` | servant-client/src/client/streaming.rs:122-161 | so such pieces arrive on a stream of any length |
| `Delivery.NewlineCutsWholeIff` | servant/src/stream.rs:131-147 | a newline-framed item survives if and only if it holds no newline |
| `Delivery.NetstringCutsWhole` | servant/src/stream.rs:149-172 | a netstring-framed item survives whatever it holds |
| `ServerSentEvents.MimeRender` | servant/src/stream/sse.rs:102-134 | the rendering loops print the fields of an event line by line |
| `ServerSentEvents.MimeUnrender` | servant/src/stream/sse.rs:136-179 | the line loop parses a block of text into the fields of an event |
| `ServerSentEvents.RenderIs` | servant/src/stream/sse.rs:102-134 | what an event looks like: comment, event, id and data lines behind their names, a blank line, and data left out when it is empty and anything else is there |
| `ServerSentEvents.LineEndsAlike` | servant/src/stream/sse.rs:136-140 | line feeds, carriage returns and pairs of both end lines alike |
| `ServerSentEvents.MarkDropped` | servant/src/stream/sse.rs:138-139 | one byte order mark in front is dropped |
| `ServerSentEvents.FeedReads` | servant/src/stream/sse.rs:147-166 | any line: the first colon ends the field name and one space after it is dropped, a line without a colon has an empty value, the last event and id stand, data and comments gather, other fields are ignored |
| `ServerSentEvents.FeedAllMore` | servant/src/stream/sse.rs:147-166 | the lines of a block are taken in order, blank ones among them |
| `ServerSentEvents.UnrenderedIsClean` | servant/src/stream/sse.rs:136-179 | no parsed event holds a carriage return, nor a line feed in its name or id |
| `ServerSentEvents.UnrenderBlock` | servant/src/stream/sse.rs:102-179 | parsing the block of a clean event gives the event back, empty and multi-line data and comments included |
| `ServerSentEvents.RenderedCutsWhole` | servant/src/stream/sse.rs:12-52 | a clean event is cut off the stream whole, whatever follows it |
| `ServerSentEvents.WholeRoundTripIff` | servant/src/stream/sse.rs:12-179 | events of any number and size, rendered and concatenated, are parsed back if and only if no field holds a carriage return and no name or id a line feed |
| `ServerSentEvents.EventRoundTripIff` | servant/src/stream/sse.rs:12-179 | on a stream of any length a client receives exactly the events sent if and only if they are clean in that sense and the waiting bytes stay within its limit |
| `ServerSentEvents.LongStreamRoundTripIff` | servant/src/stream/sse.rs:12-179 | where the longest event and the longest chunk together fit the limit, only cleanness matters, however long the stream |
| `Targets.TargetTexts` | servant-client/src/request.rs:135-163 | a target is written with slashes, one question mark and ampersands |
| `Targets.TargetDivides` | servant-server/src/request.rs:117-133 | the first question mark divides a target, and one without has no query |
| `Targets.SegmentsOfPath` | servant-server/src/request.rs:117-127 | the segments of a path are each decoded for themselves, a plus sign staying as it is |
| `Targets.PathComesBack` | servant-server/src/request.rs:117-119 | the server splits a printed path into the pieces it was printed from; no pieces come back as one empty segment |
| `Targets.TargetComesBack` | servant-server/src/request.rs:117-133 | path pieces and query texts are told apart and read back from one printed target |
| `UrlBuilders.ArgumentWritten` | servant-client/src/client/build.rs:43-171 | what each combinator prints: a capture one piece, empty when it has no value; a rest and a list one for each value; a parameter one pair or none; a raised flag its bare name |
| `UrlBuilders.ClientRequest.AppendPath` | servant-client/src/request.rs:73-76 | appends the encoded piece and nothing else |
| `UrlBuilders.ClientRequest.AppendQuery` | servant-client/src/request.rs:79-83 | appends the pair and nothing else |
| `UrlBuilders.ClientRequest.Target` | servant-client/src/request.rs:135-163 | the printed target of plain pairs: slash, joined segments, and a question mark only when there is a query |
| `UrlBuilders.ClientRequest.BuildRequest` | servant-client/src/client/build.rs:43-171 | on chains of path, capture and plain query combinators, the walk appends the path pieces and query pairs the argument list stands for, in chain order |
| `UrlBuilders.ParamTexts` | servant/src/link.rs:192-207 | a list element is written name[]=value in the default style and name=value in the plain one; a flag is its bare name |
| `UrlBuilders.NoArraysRender` | servant/src/link.rs:177-190 | without array elements the pair printer and the parameter printer give the same texts |
| `UrlBuilders.Link.ToUri` | servant/src/link.rs:131-207 | the printed link of single, array and flag parameters, through either branch of the parameter printer |
| `UrlBuilders.Link.AddToLink` | servant/src/haslink.rs:97-234 | on chains without whole-query and deep-query combinators, the walk adds the segments and parameters the argument list stands for, in chain order; combinators that leave no trace in a URL add nothing |
| `UrlPaths.ShapeDispatches` | servant-server/src/serve.rs:51-126 | routing through the router a chain is compiled to is matching the path against the chain and running its leaf |
| `UrlPaths.MatchSent` | servant-server/src/router.rs:119-177 | a printed path reaches the leaf exactly when it does not end in an empty piece, with its captures and, but for an empty first piece, its rest |
| `UrlPairs.ClientPairsParse` | servant-client/src/request.rs:79-163 | the client's pairs are parsed as they were appended, less bare empty keys |
| `UrlPairs.LinkParamsParse` | servant/src/link.rs:177-207 | a link's parameters parse to the same pairs, array elements under their bracketed names |
| `UrlPairs.ClashIffSharedKey` | servant-server/src/extract/extractors.rs:70-91 | two query names clash exactly when the server reads some key under both |
| `UrlPairs.LookupUnder` | servant-server/src/extract/extractors.rs:256-261 | a lookup depends only on the pairs under its name |
| `UrlPairs.CollectUnder` | servant-server/src/extract/extractors.rs:70-91 | a list depends only on the pairs under its two names |
| `UrlPairs.CollectAmong` | servant-server/src/extract/extractors.rs:70-91 | among other pairs a list is read as it is alone if and only if no other pair is valued under its names |
| `UrlPairs.PrintedIsolated` | servant-server/src/extract/extractors.rs:32-125 | when no two names clash, each combinator finds under its name exactly the pairs it printed |
| `UrlRoundTrip.EndpointAnswers` | servant-server/src/handler.rs:40-128 | an endpoint answers exactly when its handler receives arguments, with the handler's response to them |
| `UrlRoundTrip.ServerAnswers` | servant-server/src/router.rs:119-177 | so does a whole single-endpoint server, from the request target on |
| `UrlRoundTrip.RestReturns` | servant-server/src/extract/captures.rs:86-101 | a capture-all gives its values back exactly when the first piece is not empty and each value survives its codec |
| `UrlRoundTrip.ListReturns` | servant-server/src/extract/extractors.rs:70-91 | a list parameter gives its values back, in either style, exactly when each survives its codec |
| `UrlRoundTrip.ArgBuilt` | servant-server/src/extract/extractors.rs:32-51 | presence and strictness turn an outcome of decoding into this very argument exactly when it is the one the argument stands for |
| `UrlRoundTrip.ParamReturns` | servant-server/src/extract/extractors.rs:32-51 | the pair a parameter prints decodes to its argument exactly when its value survives its codec or it is an absent optional |
| `UrlRoundTrip.CaptureReturns` | servant-server/src/extract/captures.rs:41-53 | a capture gives its argument back exactly when its value survives its codec, or its error is the one of an empty piece |
| `UrlRoundTrip.FlagReturns` | servant-server/src/extract/extractors.rs:109-125 | a flag gives its argument back exactly when it is unset or its name is not empty |
| `UrlRoundTrip.ListReads` | servant-server/src/extract/extractors.rs:70-91 | in the whole printed query a list is read as its argument exactly when each value survives its codec and no other pair is valued under its names |
| `UrlRoundTrip.ExtractSent` | servant-server/src/extract/chain.rs:60-83 | extraction gives the printed argument list back exactly when each argument is found in the printed query |
| `UrlRoundTrip.ValidateSent` | servant-server/src/extract/captures.rs:20-85 | the arguments that are found pass capture validation |
| `UrlRoundTrip.PrintClientTarget` | servant-client/src/client/build.rs:43-171 | on chains of path, capture and plain query combinators, the client builder prints the target of an argument list |
| `UrlRoundTrip.PrintLink` | servant/src/haslink.rs:97-234 | on chains without whole-query and deep-query combinators, the link builder prints the link of an argument list |
| `UrlRoundTrip.ClientTargetParses` | servant-server/src/request.rs:117-127 | the server reads the client's pieces and pairs back from its target |
| `UrlRoundTrip.LinkTargetParses` | servant-server/src/request.rs:117-127 | the server reads a link's pieces and pairs back |
| `UrlRoundTrip.ClientRoundTripIff` | servant-client/src/client/build.rs:43-171 | whatever names the chain uses, the handler receives exactly the client's arguments if and only if the path does not end in an empty piece, no capture-all begins with one, and each argument is found in the printed query: the first pair under a single name decodes to it, and no other pair is valued under a list's names |
| `UrlRoundTrip.LinkRoundTripIff` | servant/src/haslink.rs:97-177 | the same for links, with bracketed and with plain array elements |
| `UrlRoundTrip.DistinctNamesFound` | servant-server/src/extract/extractors.rs:32-125 | when no key is read under two names, each argument is found if and only if it survives its own codec |
| `UrlRoundTrip.DistinctNamesRoundTripIff` | servant-client/src/client/build.rs:43-171 | so with distinct names client and link arguments come back if and only if the path and each argument for itself do |
| `UrlRoundTrip.LinkAgreesWithClient` | servant/src/link.rs:140-207 | with distinct names, from a safe link the server extracts what it extracts from the client's target, or nothing from either, for every argument list |
| `UrlRoundTrip.ClientRequestAccepted` | servant-client/src/client/decode.rs:19-22 | the method and Accept header the client sends pass its own endpoint's checks |
| `UrlRoundTrip.ClashingNamesLoseArguments` | servant-server/src/extract/extractors.rs:32-51 | names that clash can lose arguments: two parameters of one name whose values each return alone do not return together |
| `AcceptLoop.WithMaxConnections` | servant-server/src/listener.rs:52-58 | the cap is the allowed one nearest to the one asked for |
| `AcceptLoop.Server.Handle` | servant-server/src/listener.rs:110-132 | one turn of the loop or one ended connection takes the specified step |
| `AcceptLoop.Server.Run` | servant-server/src/listener.rs:98-134 | any sequence of accepts, accept errors and endings takes the specified steps |
| `AcceptLoop.StepSound` | servant-server/src/listener.rs:98-134 | every step keeps permits plus open connections at the cap and gives no connection two fates |
| `AcceptLoop.AlwaysSound` | servant-server/src/listener.rs:98-134 | that holds in every interleaving |
| `AcceptLoop.Accounted` | servant-server/src/listener.rs:98-134 | the connections that hold a permit are the served ones that have not ended; every accepted one is served or closed |
| `AcceptLoop.ServedIffBelowCap` | servant-server/src/listener.rs:98-134 | told without permits: a connection is served exactly when fewer than the cap are open as it is accepted, and closed otherwise; and the loop pauses once for every accept that fails |
| `ApiDocs.EndpointCell.Combine` | servant-docs/src/model.rs:237-277 | the field-by-field merge in place: lists grow, missing content types are added, what the left states stays |
| `ApiDocs.ApiDoc.Push` | servant-docs/src/model.rs:300-307 | an endpoint is merged into the first with its key, or appended |
| `ApiDocs.ApiDoc.Extend` | servant-docs/src/model.rs:312-316 | the endpoints of another document are pushed in order |
| `ApiDocs.SameKeyIff` | servant-docs/src/model.rs:217-230 | two endpoints share a key exactly when host names, rendered paths and methods agree; ports do not count, raw endpoints have no method, and a segment spelt like a capture counts as one |
| `ApiDocs.CombinedIsLeftFirst` | servant-docs/src/model.rs:237-277 | the left endpoint stands, its gaps are filled from the right one, lists go on with the right one's, and content types with those the left lacks |
| `ApiDocs.AddMissingIs` | servant-docs/src/model.rs:240-244 | what is added are the right list's items that the left one lacks, each where it occurs first |
| `ApiDocs.CombineKeepsKey` | servant-docs/src/model.rs:220-277 | merging endpoints of one key keeps the key |
| `ApiDocs.CombineAssociative` | servant-docs/src/model.rs:237-277 | merging is associative |
| `ApiDocs.AddMissingAssociative` | servant-docs/src/model.rs:240-244 | so is the union of content types |
| `ApiDocs.PushKeys` | servant-docs/src/model.rs:300-307 | pushing changes no key, adds at most the new one at the end, and keeps keys unique |
| `ApiDocs.ExtendGroups` | servant-docs/src/model.rs:300-316 | merging endpoint by endpoint is grouping by key: one entry per key in first-occurrence order, all its endpoints merged from left to right |
| `ApiDocs.ExtendAssociative` | servant-docs/src/model.rs:312-316 | extension is associative for a middle document with unique keys, as every built one has |
| `RepeatedKeys.AssociativeIff` | servant-docs/src/model.rs:312-316 | extension is associative over a middle document if and only if each repetition of a key in it adds nothing to the first endpoint of that key |
| `RepeatedKeys.IdleRepeatsAssociate` | servant-docs/src/model.rs:312-316 | over such a document it is |
| `RepeatedKeys.RepeatTells` | servant-docs/src/model.rs:300-316 | for a repetition that adds something there is a document that tells the two groupings apart |
| `RepeatedKeys.AbsorbsIff` | servant-docs/src/model.rs:237-277 | adding nothing, field by field |
| `RepeatedKeys.FirstsPush` | servant-docs/src/model.rs:300-307 | pushing sees only the first endpoint of each key |
| `ApiDocs.EmptyIsUnitIff` | servant-docs/src/model.rs:284-287 | the empty document is the unit on the right, and on the left of exactly the documents with unique keys |
| `ApiDocs.DocsAreGrouped` | servant-docs/src/walk.rs:90-98 | the documentation of an API is the grouping of its endpoints, with unique keys, whatever its combinators |
| `ApiDocs.DocsIgnoreNesting` | servant-docs/src/walk.rs:90-98 | the documentation does not depend on how alternatives are nested |
| `RepeatedKeys.RepeatedKeysReorder` | servant-docs/src/model.rs:312-316 | a concrete repetition that adds a header and is reordered |
| `OpenApi.AppendAlternative` | servant-openapi/src/openapi.rs:187-204 | the first operation stays as it is and both are listed as alternatives |
| `OpenApi.InsertOperation` | servant-openapi/src/openapi.rs:179-185 | the method gets the operation, or the one it has grows by it; other methods are untouched |
| `OpenApi.ToPaths` | servant-openapi/src/openapi.rs:131-161 | the grouping loop gives every place all its non-raw endpoints in API order, and nothing else |
| `OpenApi.TemplateMore` | servant-openapi/src/openapi.rs:295-310 | a path template grows part by part, captures in braces, and an empty path is the root |
| `OpenApi.OperationStates` | servant-openapi/src/operation.rs:12-120 | an operation carries what its endpoint states, part by part: media types by essence, and a schema by its name, else in place, else by its type |
| `OpenApi.EveryOperationInPlace` | servant-openapi/src/openapi.rs:131-219 | each endpoint's operation is described at its own path and method, at its rank among the endpoints there, the first one's fields unchanged |
| `OpenApi.EveryDescribedOperationIsAnEndpoints` | servant-openapi/src/openapi.rs:131-219 | each described operation is that of exactly one endpoint |
| `OpenApi.SchemaDocsMore` | servant-openapi/src/openapi.rs:263-278 | the schemas of a document in order, each endpoint's request body before its response |
| `OpenApi.ComponentSchemas` | servant-openapi/src/openapi.rs:263-278 | a component for every name with a body, with the first body registered |
| `OpenApi.CheckOperationIds` | servant-openapi/src/openapi.rs:228-241 | the check passes if and only if no two endpoints have one operation id, and otherwise names the first that repeats an earlier one |
| `OpenApi.CheckSchemaComponents` | servant-openapi/src/openapi.rs:243-261 | the check passes if and only if all bodies under one name agree, and names one that has two otherwise |
| `OpenApi.ToOpenApi` | servant-openapi/src/openapi.rs:131-177 | the unchecked document: grouped paths and listed components |
| `OpenApi.ToCheckedOpenApi` | servant-openapi/src/openapi.rs:221-226 | the document is produced if and only if both checks pass, and a repeated operation id is told before a schema name |
| `OpenApi.ResolveIff` | servant-openapi/src/openapi.rs:243-289 | every named schema leads to its own body if and only if the schema check passes and every named schema has a body |
| `OpenApi.EmittedReferencesResolve` | servant-openapi/src/operation.rs:52-120 | in a document whose schema check passed and whose named schemas have bodies, every reference of every described operation leads to that endpoint's own schema |

## Left out

- Asynchronous mechanics (futures, wakers, mutexes and their poisoning): a body is a finite list of frames, a dispatch is sequential, and the accept loop is the sequence of events it meets.
- Sockets, TLS, timers and the HTTP library: nothing is read or written; the pause after a failed accept is counted, not waited for.
- Serialisation: JSON, form and MIME codecs, base64 and header parsing are functions of the model; a failing serialiser and its 500 response are not modelled.
- Text encoding: strings are valid UTF-8 byte sequences, lossy decoding is the identity, and the rejection of a server-sent event block that is not UTF-8 is not modelled.
- Accept header text: negotiation starts from the parsed ranges, with qualities as rationals; a blank header counts as absent.
- Host requirements: matching is a predicate on the request's authority; parsing and port policy are not part of this model.
- Middleware-like combinators (vault, connection security, HTTP version, remote host) are one combinator that reads the request.
- Verbs with headers, union verbs and streaming verbs share one terminal with a list of content-type markers; status codes and response headers are not rendered.
- Whole query strings, deep-object queries, headers and bodies in the end-to-end round trip: the first captures every later pair, and unrepresentable headers are dropped silently; their codecs are proved on their own.
- Link fragments and relative links: they do not change the path or the query.
- Capture hints keep their names; type names in hints and in the router layout are empty.
- Markdown rendering and JSON member order; an OpenAPI operation keeps the parts its parameters are made from instead of the parameter objects.
- RequestBodies.CollectLimited: sums of lengths are unbounded, where the program checks for overflow and answers 413 alike.
- ServerStream.NetstringDelivers: each item's frame has a length that fits the machine word, as every frame in memory has.
- ApiDocs.EndpointCell.Combine: documents hold endpoint values, and a cell is made for the one that is merged into; aliasing between a document and its endpoints is not modelled.
- OpenApi.EmittedReferencesResolve: references inside a schema body are not followed; a body is opaque text.
- Negotiation.NegotiateMediaIndex: the header text is not split and its qualities are not parsed.
- Endpoints.EndpointLeaf.Call: the response carries no status, no extra headers and no serialised bytes, and a failing serialiser's 500 is missing.
- ServerSentEvents.MimeUnrender: a block that is not UTF-8 is not rejected, because text is UTF-8 throughout.
- UrlBuilders.ClientRequest.Target: no raw query prefix and no deep-object keys, which only whole-query and deep-query combinators set.
- UrlBuilders.ClientRequest.BuildRequest: no headers, bodies, hosts, deep queries or whole query strings; the first three leave the target alone.
- UrlBuilders.Link.ToUri: no raw query, no deep-object parameters, no fragment, and always the leading slash.
- UrlBuilders.Link.AddToLink: no deep queries, whole query strings or fragments.
- UrlRoundTrip.PrintClientTarget: covers the chains of `UrlBuilders.ClientRequest.BuildRequest`.
- UrlRoundTrip.PrintLink: covers the chains of `UrlBuilders.Link.AddToLink`.
