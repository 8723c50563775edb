/** The parts of the Qdrant gRPC protocol and of gRPC status errors that the
    vector client reads or writes. The remote engine itself is not modelled:
    each of its calls is a total function from a request to a reply, so a
    given client value answers a given request in one fixed way. */
module Qdrant {

  datatype Option<+T> = None | Some(value: T)

  /** Go's uint64, used for point ids, vector sizes and search limits. */
  type U64 = x: int | 0 <= x < 0x1_0000_0000_0000_0000

  /** A float32 carried as its bit pattern; the client never inspects one. */
  type Float32 = bv32

  /** A dense vector (Go's []float32). */
  type Embedding = seq<Float32>

  /** A gRPC status code (codes.Code is a uint32). */
  type Code = c: int | 0 <= c < 0x1_0000_0000

  /** codes.Unknown: the code status.FromError reports for a non-status error. */
  const Unknown: Code := 2

  /** codes.NotFound. */
  const NotFound: Code := 5

  /** A non-nil Go error returned by a gRPC call: either it carries a gRPC
      status, or it is some other error (a connectivity fault, say). */
  datatype Err = NonStatus(message: string) | Status(code: Code, message: string)

  /** status.FromError applied to a non-nil error: the status code, and
      whether the error carried a status at all. */
  function FromError(err: Err): (Code, bool)
  {
    match err
    case NonStatus(_) => (Unknown, false)
    case Status(code, _) => (code, true)
  }

  /** The outcome of one gRPC call: a response message or an error. */
  datatype Reply<T> = Ok(value: T) | Fail(err: Err)

  /** A payload value (qdrant.Value). Only the string kind is told apart;
      OtherKind stands for every other kind, for a Value without a kind
      and for a nil entry in a payload map. */
  datatype Value = StringValue(s: string) | OtherKind

  /** Go's lookup `m[key]` in a map[string]*Value: nil when the key is absent. */
  function Lookup(m: map<string, Value>, key: string): Option<Value>
  {
    if key in m then Some(m[key]) else None
  }

  /** Value.GetStringValue(), which is nil-safe: the string of a string
      value, and "" for nil and for every other kind. */
  function GetStringValue(v: Option<Value>): string
  {
    match v
    case Some(StringValue(s)) => s
    case _ => ""
  }

  /** qdrant.PointId; the client only ever builds the numeric form. */
  datatype PointId = Num(num: U64)

  /** qdrant.PointStruct with a single dense vector. */
  datatype PointStruct = PointStruct(id: PointId, vector: Embedding, payload: map<string, Value>)

  /** A point returned by a get-points call; the client does not read it. */
  datatype RetrievedPoint = RetrievedPoint(id: PointId, payload: map<string, Value>)

  /** One search hit. */
  datatype ScoredPoint = ScoredPoint(id: PointId, payload: map<string, Value>, score: Float32)

  /** qdrant.Distance. */
  datatype Distance = UnknownDistance | Cosine | Euclid | Dot | Manhattan

  /** qdrant.VectorParams, the single-vector form of VectorsConfig. */
  datatype VectorParams = VectorParams(size: U64, distance: Distance)

  datatype ListCollectionsRequest = ListCollectionsRequest
  datatype CollectionDescription = CollectionDescription(name: string)
  datatype ListCollectionsResponse = ListCollectionsResponse(collections: seq<CollectionDescription>)

  datatype GetCollectionInfoRequest = GetCollectionInfoRequest(collectionName: string)

  /** qdrant.CreateCollection. */
  datatype CreateCollectionRequest = CreateCollectionRequest(collectionName: string, vectorsConfig: VectorParams)

  datatype GetPoints = GetPoints(collectionName: string, ids: seq<PointId>)

  /** qdrant.GetResponse. `result` is None when the Go slice is nil; an empty
      repeated field arrives from the wire as nil. */
  datatype GetResponse = GetResponse(result: Option<seq<RetrievedPoint>>)

  /** qdrant.UpsertPoints; `wait` is the optional *bool flag. */
  datatype UpsertPoints = UpsertPoints(collectionName: string, points: seq<PointStruct>, wait: Option<bool>)

  /** qdrant.SearchPoints; the two selectors are reduced to their Enable flags. */
  datatype SearchPoints = SearchPoints(collectionName: string, vector: Embedding, limit: U64,
                                       withVectors: bool, withPayload: bool)

  datatype SearchResponse = SearchResponse(result: seq<ScoredPoint>)

  /** A response message whose contents the client never reads. */
  datatype Unread = Unread

  /** qdrant.CollectionsClient: the three collection calls the client makes. */
  datatype CollectionsClient = CollectionsClient(
    list: ListCollectionsRequest -> Reply<ListCollectionsResponse>,
    get: GetCollectionInfoRequest -> Reply<Unread>,
    create: CreateCollectionRequest -> Reply<Unread>)

  /** qdrant.PointsClient: the three point calls the client makes. */
  datatype PointsClient = PointsClient(
    get: GetPoints -> Reply<GetResponse>,
    upsert: UpsertPoints -> Reply<Unread>,
    search: SearchPoints -> Reply<SearchResponse>)
}
