/** The vector client's translation layer (package vector, client.go): how
    each of its six operations shapes a request for the Qdrant engine and
    turns the engine's reply into the client's own result. */
module Vector {
  import opened Qdrant

  /** The client: its two protocol sub-clients. The gRPC connection they
      share is not modelled. */
  datatype QdrantClient = QdrantClient(collectionsClient: CollectionsClient, pointsClient: PointsClient)

  /** The (bool, error) pair returned by the two existence checks. */
  datatype Verdict = Verdict(present: bool, err: Option<Err>)

  /** The payload key under which a point's metadata string is stored. */
  const MetadataKey: string := "metadata"

  /** The engine said "not found" through a gRPC status. */
  predicate IsNotFound(err: Err)
  {
    err.Status? && err.code == NotFound
  }

  /** Go's `_, err := call(...); return err`. */
  function ErrorOf<T>(reply: Reply<T>): (err: Option<Err>)
    ensures err.None? <==> reply.Ok?
    ensures err.Some? ==> reply.Fail? && err.value == reply.err
  {
    match reply
    case Ok(_) => None
    case Fail(e) => Some(e)
  }

  /** The classification of a failed call shared by CollectionExists and
      PointExists: a NotFound status is the answer `false`, every other
      error (with or without a status) is passed on unchanged. */
  function NotFoundAsFalse(err: Err): (v: Verdict)
    ensures !v.present
    ensures v.err.None? <==> IsNotFound(err)
    ensures v.err.Some? ==> v.err.value == err
  {
    var (code, ok) := FromError(err);
    if !ok then Verdict(false, Some(err))
    else if code == NotFound then Verdict(false, None)
    else Verdict(false, Some(err))
  }

  /** Lists the collections: one name per descriptor, in the engine's order. */
  method Collections(q: QdrantClient) returns (names: seq<string>, err: Option<Err>)
    ensures var reply := q.collectionsClient.list(ListCollectionsRequest);
            reply.Fail? ==> names == [] && err == Some(reply.err)
    ensures var reply := q.collectionsClient.list(ListCollectionsRequest);
            reply.Ok? ==>
              && err.None?
              && |names| == |reply.value.collections|
              && forall i :: 0 <= i < |names| ==> names[i] == reply.value.collections[i].name
  {
    var reply := q.collectionsClient.list(ListCollectionsRequest);
    if reply.Fail? {
      return [], Some(reply.err);
    }
    var collections := reply.value.collections;
    names := [];
    for i := 0 to |collections|
      invariant |names| == i
      invariant forall k :: 0 <= k < i ==> names[k] == collections[k].name
    {
      names := names + [collections[i].name];
    }
    err := None;
  }

  /** Asks the engine for the collection's info; only the reply's success
      matters. The three possible answers are exactly (true, nil) on
      success, (false, nil) on a NotFound status, and (false, err) with the
      engine's own error otherwise. */
  function CollectionExists(q: QdrantClient, collection: string): (v: Verdict)
    ensures var reply := q.collectionsClient.get(GetCollectionInfoRequest(collection));
            v == Verdict(true, None) <==> reply.Ok?
    ensures var reply := q.collectionsClient.get(GetCollectionInfoRequest(collection));
            v == Verdict(false, None) <==> reply.Fail? && IsNotFound(reply.err)
    ensures var reply := q.collectionsClient.get(GetCollectionInfoRequest(collection));
            v.err.Some? <==> reply.Fail? && !IsNotFound(reply.err)
    ensures var reply := q.collectionsClient.get(GetCollectionInfoRequest(collection));
            v.err.Some? ==> v == Verdict(false, Some(reply.err))
  {
    match q.collectionsClient.get(GetCollectionInfoRequest(collection))
    case Fail(e) => NotFoundAsFalse(e)
    case Ok(_) => Verdict(true, None)
  }

  /** Creates a collection of vectors of the given size under the cosine
      distance, and returns the engine's error, if any, unchanged. */
  function CreateCollection(q: QdrantClient, collection: string, size: U64): (err: Option<Err>)
    ensures var reply := q.collectionsClient.create(CreateCollectionRequest(collection, VectorParams(size, Cosine)));
            err.None? <==> reply.Ok?
    ensures var reply := q.collectionsClient.create(CreateCollectionRequest(collection, VectorParams(size, Cosine)));
            reply.Fail? ==> err == Some(reply.err)
  {
    var params := VectorParams(size, Cosine);
    ErrorOf(q.collectionsClient.create(CreateCollectionRequest(collection, params)))
  }

  /** Asks the engine for the one point with numeric id `id`. Besides the
      error classification of CollectionExists, a successful reply with no
      result (a nil slice) also means "absent". */
  function PointExists(q: QdrantClient, collection: string, id: U64): (v: Verdict)
    ensures var reply := q.pointsClient.get(GetPoints(collection, [Num(id)]));
            v == Verdict(true, None) <==> reply.Ok? && reply.value.result.Some?
    ensures var reply := q.pointsClient.get(GetPoints(collection, [Num(id)]));
            v == Verdict(false, None) <==>
              (reply.Ok? && reply.value.result.None?) || (reply.Fail? && IsNotFound(reply.err))
    ensures var reply := q.pointsClient.get(GetPoints(collection, [Num(id)]));
            v.err.Some? <==> reply.Fail? && !IsNotFound(reply.err)
    ensures var reply := q.pointsClient.get(GetPoints(collection, [Num(id)]));
            v.err.Some? ==> v == Verdict(false, Some(reply.err))
  {
    match q.pointsClient.get(GetPoints(collection, [Num(id)]))
    case Fail(e) => NotFoundAsFalse(e)
    case Ok(point) => if point.result.None? then Verdict(false, None) else Verdict(true, None)
  }

  /** The two existence checks decide a failed call the same way: given the
      same error from the engine, they return the same verdict, the one the
      shared classification gives. */
  lemma ExistenceChecksAgreeOnErrors(q1: QdrantClient, collection: string,
                                     q2: QdrantClient, pointCollection: string, id: U64, e: Err)
    requires q1.collectionsClient.get(GetCollectionInfoRequest(collection)) == Fail(e)
    requires q2.pointsClient.get(GetPoints(pointCollection, [Num(id)])) == Fail(e)
    ensures CollectionExists(q1, collection) == PointExists(q2, pointCollection, id)
    ensures CollectionExists(q1, collection) == NotFoundAsFalse(e)
  {
  }

  /** The payload written for one point: the metadata string under the one
      metadata key. Reading it back the way Search does gives the string. */
  function MetadataPayload(json: string): (payload: map<string, Value>)
    ensures payload.Keys == {MetadataKey}
    ensures payload[MetadataKey].StringValue?
    ensures Metadata(payload) == json
  {
    map[MetadataKey := StringValue(json)]
  }

  /** What Search reports for one hit: the metadata string, or "" when the
      key is missing or holds something other than a string. */
  function Metadata(payload: map<string, Value>): (s: string)
    ensures MetadataKey in payload && payload[MetadataKey].StringValue? ==> s == payload[MetadataKey].s
    ensures !(MetadataKey in payload && payload[MetadataKey].StringValue?) ==> s == ""
  {
    GetStringValue(Lookup(payload, MetadataKey))
  }

  /** The empty string Search reports is ambiguous: a payload reads as ""
      exactly when its metadata key is missing, holds a non-string value, or
      holds the empty string. */
  lemma EmptyMetadataIsAmbiguous(payload: map<string, Value>)
    ensures Metadata(payload) == "" <==>
            (MetadataKey !in payload || !payload[MetadataKey].StringValue? || payload[MetadataKey].s == "")
  {
  }

  /** The point built from one position of the columns: the numeric id, the
      vector, and a payload from which Search's extraction reads `json`. */
  function ColumnarPoint(id: U64, embedding: Embedding, json: string): (p: PointStruct)
    ensures p.id == Num(id) && p.vector == embedding
    ensures p.payload.Keys == {MetadataKey} && p.payload[MetadataKey].StringValue?
    ensures Metadata(p.payload) == json
  {
    PointStruct(Num(id), embedding, MetadataPayload(json))
  }

  /** Reference definition of the batch UpsertColumnar sends: one point per
      id, built from the columns position by position. */
  function ColumnarPoints(ids: seq<U64>, embeddings: seq<Embedding>, payloadJSONs: seq<string>): (points: seq<PointStruct>)
    requires |embeddings| >= |ids| && |payloadJSONs| >= |ids|
    ensures |points| == |ids|
    decreases |ids|
  {
    if ids == [] then []
    else [ColumnarPoint(ids[0], embeddings[0], payloadJSONs[0])]
         + ColumnarPoints(ids[1..], embeddings[1..], payloadJSONs[1..])
  }

  /** Point i of the batch carries id ids[i], vector embeddings[i], and a
      payload with exactly the metadata key, holding payloadJSONs[i]. */
  lemma {:induction false} ColumnarPointsAt(ids: seq<U64>, embeddings: seq<Embedding>, payloadJSONs: seq<string>, i: nat)
    requires |embeddings| >= |ids| && |payloadJSONs| >= |ids|
    requires i < |ids|
    ensures ColumnarPoints(ids, embeddings, payloadJSONs)[i]
            == PointStruct(Num(ids[i]), embeddings[i], map[MetadataKey := StringValue(payloadJSONs[i])])
  {
    if i > 0 {
      ColumnarPointsAt(ids[1..], embeddings[1..], payloadJSONs[1..], i - 1);
    }
  }

  /** Entries of embeddings and payloadJSONs past |ids| do not affect the batch. */
  lemma ColumnarPointsIgnoreExtraEntries(ids: seq<U64>, embeddings1: seq<Embedding>, payloadJSONs1: seq<string>,
                                         embeddings2: seq<Embedding>, payloadJSONs2: seq<string>)
    requires |embeddings1| >= |ids| && |payloadJSONs1| >= |ids|
    requires |embeddings2| >= |ids| && |payloadJSONs2| >= |ids|
    requires embeddings1[..|ids|] == embeddings2[..|ids|]
    requires payloadJSONs1[..|ids|] == payloadJSONs2[..|ids|]
    ensures ColumnarPoints(ids, embeddings1, payloadJSONs1) == ColumnarPoints(ids, embeddings2, payloadJSONs2)
  {
    var p1 := ColumnarPoints(ids, embeddings1, payloadJSONs1);
    var p2 := ColumnarPoints(ids, embeddings2, payloadJSONs2);
    forall i | 0 <= i < |ids|
      ensures p1[i] == p2[i]
    {
      ColumnarPointsAt(ids, embeddings1, payloadJSONs1, i);
      ColumnarPointsAt(ids, embeddings2, payloadJSONs2, i);
      assert embeddings1[i] == embeddings1[..|ids|][i];
      assert payloadJSONs1[i] == payloadJSONs1[..|ids|][i];
    }
  }

  /** The metadata stored in point i of the batch is what Search's
      extraction reads back from that payload: payloadJSONs[i]. This is
      about the client's own encoding and decoding, not about the engine. */
  lemma UpsertedMetadataReadsBack(ids: seq<U64>, embeddings: seq<Embedding>, payloadJSONs: seq<string>, i: nat)
    requires |embeddings| >= |ids| && |payloadJSONs| >= |ids|
    requires i < |ids|
    ensures Metadata(ColumnarPoints(ids, embeddings, payloadJSONs)[i].payload) == payloadJSONs[i]
  {
    ColumnarPointsAt(ids, embeddings, payloadJSONs, i);
    assert ColumnarPoints(ids, embeddings, payloadJSONs)[i].payload == MetadataPayload(payloadJSONs[i]);
  }

  /** Upserts the columns as one batch, without waiting for the write to be
      committed. Position i of each column describes one point, so the
      columns must be at least as long as `ids`. */
  method UpsertColumnar(q: QdrantClient, collection: string, ids: seq<U64>,
                        embeddings: seq<Embedding>, payloadJSONs: seq<string>) returns (err: Option<Err>)
    requires |embeddings| >= |ids| && |payloadJSONs| >= |ids|
    ensures err == ErrorOf(q.pointsClient.upsert(
              UpsertPoints(collection, ColumnarPoints(ids, embeddings, payloadJSONs), Some(false))))
  {
    var waitUpsert := false;
    var upsertPoints: seq<PointStruct> := [];
    for i := 0 to |ids|
      invariant |upsertPoints| == i
      invariant forall k :: 0 <= k < i ==> upsertPoints[k] == ColumnarPoint(ids[k], embeddings[k], payloadJSONs[k])
    {
      var point := PointStruct(Num(ids[i]), embeddings[i], map[MetadataKey := StringValue(payloadJSONs[i])]);
      upsertPoints := upsertPoints + [point];
    }
    forall k | 0 <= k < |ids|
      ensures upsertPoints[k] == ColumnarPoints(ids, embeddings, payloadJSONs)[k]
    {
      ColumnarPointsAt(ids, embeddings, payloadJSONs, k);
    }
    assert upsertPoints == ColumnarPoints(ids, embeddings, payloadJSONs);
    err := ErrorOf(q.pointsClient.upsert(UpsertPoints(collection, upsertPoints, Some(waitUpsert))));
  }

  /** Searches for up to `limit` neighbours of `vector`, asking for payloads
      and not for vectors, and reports each hit's metadata string in the
      engine's order. */
  method Search(q: QdrantClient, collection: string, vector: Embedding, limit: U64)
    returns (payloads: seq<string>, err: Option<Err>)
    ensures var reply := q.pointsClient.search(SearchPoints(collection, vector, limit, false, true));
            reply.Fail? ==> payloads == [] && err == Some(reply.err)
    ensures var reply := q.pointsClient.search(SearchPoints(collection, vector, limit, false, true));
            reply.Ok? ==>
              && err.None?
              && |payloads| == |reply.value.result|
              && forall i :: 0 <= i < |payloads| ==> payloads[i] == Metadata(reply.value.result[i].payload)
  {
    var reply := q.pointsClient.search(SearchPoints(collection, vector, limit, false, true));
    if reply.Fail? {
      return [], Some(reply.err);
    }
    var result := reply.value.result;
    payloads := [];
    for i := 0 to |result|
      invariant |payloads| == i
      invariant forall k :: 0 <= k < i ==> payloads[k] == Metadata(result[k].payload)
    {
      var payload := Lookup(result[i].payload, MetadataKey);
      payloads := payloads + [GetStringValue(payload)];
    }
    err := None;
  }
}
