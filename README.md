# Vector store client: translation layer

This project models the vector client of the `vector` package
(`pkg/services/llm/vector/client.go`). The client is a stateless adapter over a
remote Qdrant engine, reached through gRPC. It has six operations: list the
collections, check whether a collection exists, create a collection, check
whether a point exists, upsert a columnar batch, and run a similarity search.

The network calls cannot be modelled, so the engine is abstract. Each of its
gRPC calls is a total function from a request message to a reply, where a reply
is either a response message or an error (`Qdrant.CollectionsClient`,
`Qdrant.PointsClient`). The client value `Vector.QdrantClient` holds these two
sub-clients, as the Go struct does; the gRPC connection the struct also holds
is not modelled. Every contract talks about the exact
request the client sends, so it also fixes how that request is shaped:

- the collection name, size, point id, vector and limit are passed through unchanged;
- the distance is always `Cosine`;
- an upsert is sent with `Wait` set to `false`;
- a search asks for payloads and not for vectors.

The error classification used by both existence checks is written once
(`Vector.NotFoundAsFalse`):

- an error without a gRPC status propagates;
- a status with code NotFound (5) becomes the answer `false`;
- any other status propagates.

Everywhere else, an engine error is returned unchanged. The three operations
that build slices with `for … range` loops (`Collections`, `UpsertColumnar`,
`Search`) are methods with loops. Each one is proved against an outright
pointwise statement, or against the reference definition
`Vector.ColumnarPoints`.

Modules: `Qdrant` (`qdrant.dfy`) holds the wire messages, gRPC status errors
and payload values, plus the Go helpers `status.FromError`, map lookup and
`GetStringValue`. `Vector` (`vector_client.dfy`) holds the client.

The code does not check that the three columns of `UpsertColumnar` have the
same length: it indexes `embeddings` and `payloadJSONs` by the position in
`ids`. The model requires both columns to be at least as long as `ids` (where
the code would panic) and ignores any extra entries.

## Model

| member | source | states |
|---|---|---|
| Vector.ErrorOf | pkg/services/llm/vector/client.go:74-86 | The result is nil exactly when the engine's reply is a response; otherwise it is the reply's error unchanged. |
| Vector.NotFoundAsFalse | pkg/services/llm/vector/client.go:59-68 | A failed call never yields `true`. The error is dropped exactly when it is a gRPC status with code NotFound. Otherwise the same error is returned. |
| Vector.Collections | pkg/services/llm/vector/client.go:43-53 | On an engine error: no names, and that error unchanged. On success: no error and exactly one name per descriptor, so the length equals the descriptor count. Name i is descriptor i's name, in the engine's order. |
| Vector.CollectionExists | pkg/services/llm/vector/client.go:55-71 | `(true, nil)` iff the Get call succeeded. `(false, nil)` iff it failed with a NotFound status. An error is returned iff the call failed some other way, and then the result is `(false, err)` with the engine's error. |
| Vector.CreateCollection | pkg/services/llm/vector/client.go:73-87 | The request holds the given name and size, with distance Cosine. The result is nil iff that request succeeded; otherwise it is the engine's error unchanged. |
| Vector.PointExists | pkg/services/llm/vector/client.go:89-111 | For a Get of the single numeric id: `(true, nil)` iff the call succeeded with a non-nil result. `(false, nil)` iff it succeeded with a nil result or failed with a NotFound status. `(false, err)` with the engine's error iff it failed any other way. |
| Vector.ExistenceChecksAgreeOnErrors | pkg/services/llm/vector/client.go:96-106 | Given the same engine error, PointExists and CollectionExists return the same verdict, which is the shared classification's verdict. |
| Vector.MetadataPayload | pkg/services/llm/vector/client.go:122-126 | A point's payload has exactly the one key `"metadata"`, whose value is of the string kind, and Search's extraction reads the written string back from it. |
| Vector.Metadata | pkg/services/llm/vector/client.go:152-154 | For a result whose `"metadata"` value is a string, that string; for a missing key or a non-string value, `""`. |
| Vector.EmptyMetadataIsAmbiguous | pkg/services/llm/vector/client.go:152-154 | For every payload, the extraction gives `""` exactly when the key is missing, its value is not a string, or its value is the empty string. |
| Vector.ColumnarPoint | pkg/services/llm/vector/client.go:117-127 | The point has numeric id `id` and vector `embedding`. Its payload has exactly the key `"metadata"`, holding a string value, and Search's extraction reads `json` from it. |
| Vector.ColumnarPoints | pkg/services/llm/vector/client.go:115-129 | The batch built from the columns has exactly `|ids|` points. |
| Vector.ColumnarPointsAt | pkg/services/llm/vector/client.go:116-128 | Point i has numeric id `ids[i]` and vector `embeddings[i]`. Its payload is the map whose only key is `"metadata"`, holding the string `payloadJSONs[i]`. |
| Vector.ColumnarPointsIgnoreExtraEntries | pkg/services/llm/vector/client.go:116-126 | Entries of `embeddings` and `payloadJSONs` past `|ids|` do not change the batch. |
| Vector.UpsertedMetadataReadsBack | pkg/services/llm/vector/client.go:122-124 | The metadata written into point i is read back by Search's extraction as `payloadJSONs[i]`. This concerns the client's own encoding and decoding, not the engine. |
| Vector.UpsertColumnar | pkg/services/llm/vector/client.go:113-136 | Requires both columns to be at least as long as `ids`. Sends the named collection the batch `ColumnarPoints(ids, embeddings, payloadJSONs)` with `Wait` = false. The result is that call's error unchanged, or nil. |
| Vector.Search | pkg/services/llm/vector/client.go:138-157 | The request holds the given collection, vector and limit, with vectors off and payload on. On an engine error: no payloads, and that error. On success: one entry per result, in the engine's order, where entry i is result i's metadata string (or `""`). |

## Left out

- `NewQdrantClient` and its close function (client.go:28-41): gRPC dialing, insecure transport credentials and the connection's lifetime are I/O. The close function calls `conn.Close()` and discards its error; the code adds no guard of its own against a second call.
- `grpc.WaitForReady(true)` call options and `context.Context` cancellation and timeouts: these are transport behaviour.
- The engine's semantics: storage, the cosine distance computation, ranking, and durability. Each engine call is an arbitrary total function, so upsert-then-exists and upsert-then-search round trips are not stated. They depend on the engine, not on this client.
- Sending the same request twice: the model always gives the same reply, while a live engine may answer differently. A second call is modelled as a call on another client value.
- Float32 contents: vectors are sequences of 32-bit patterns (`bv32`) that are passed through untouched.
- Response fields the client never reads: timings, collection info and operation status are dropped; some messages keep a few unread fields (a retrieved point's id and payload, a hit's id and score), which no contract inspects. The UUID form of point ids is left out.
- UpsertColumnar: when a column is shorter than `ids`, the Go code panics with an index out of range. The model makes the length condition a precondition instead of modelling the panic.
- Nil versus empty slices: on an engine error Go returns a nil slice (client.go:46, client.go:148), and on a success with no items a non-nil empty slice (client.go:48, client.go:150). The model returns `[]` in both cases; only the error value tells them apart.
- Concurrent use of the shared connection: the client has no state or locking to model.
