/**
 * The values that travel through the client-side store: protobuf messages
 * decoded into plain objects, gRPC requests and responses, and redux actions.
 *
 * A resource instance (organization, project, site) is an object with a
 * `name` and other fields; it is kept as its name plus a field map, so that
 * an object spread `{...a, ...b}` is a right-biased map union.
 */
module Messages {
  import opened Wrappers

  /** A field value of a decoded message. */
  datatype Value = Text(s: string) | Number(n: int) | Boolean(b: bool)

  /** A resource instance or request message: its `name` field and every other field. */
  datatype Entity = Entity(name: string, fields: map<string, Value>)

  /** The request carried by `@ grpc / INVOKED` and echoed in every response. */
  datatype GrpcRequest = GrpcRequest(methodName: string, data: Entity, service: string)

  /** What a successful call decoded: nothing, one instance, or lists keyed by resource name. */
  datatype ResponseData = NoData | Single(entity: Entity) | Listing(lists: map<string, seq<Entity>>)

  datatype GrpcResponse = GrpcResponse(request: GrpcRequest, data: ResponseData, error: Option<string>)

  /** The payload shapes the actions of this store carry. */
  datatype Payload =
    | RequestPayload(request: GrpcRequest)
    | ResponsePayload(response: GrpcResponse)
    | EntityPayload(entity: Entity)
    | NoPayload

  /** A redux action: its type string and its payload. */
  datatype Action = Action(kind: string, payload: Payload)
}
