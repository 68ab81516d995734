/** The worker/primary message shapes of src/types/worker.ts, as typed
    values and as the JSON objects that travel over the IPC channel. */
module WorkerTypes {
  import opened Wrappers
  import opened Json
  import opened HttpTypes

  /** The values of the `Result` string enum. */
  const ErrorResult: string := "error"
  const SuccessResult: string := "success"

  function ResultValues(): set<string>
  {
    {ErrorResult, SuccessResult}
  }

  /** A primary-to-worker reply as src/multi.ts builds it: a success carries
      a status and the controller's data, an error a status and a message.
      (`ResponseError` also declares a `type` field; the primary never sets it.) */
  datatype ParentMessage =
    | SuccessReply(statusCode: int, data: Json)
    | ErrorReply(statusCode: int, message: string)

  /** The object `JSON.stringify` serialises and the worker's `JSON.parse`
      gets back. */
  function ParentMessageJson(m: ParentMessage): (j: Json)
    ensures HasKey(j, "result") && HasKey(j, "response")
    ensures j.fields["result"] == JString(if m.SuccessReply? then SuccessResult else ErrorResult)
    ensures !HasKey(j.fields["response"], "type")
  {
    match m
    case SuccessReply(s, d) =>
      JObject(map["result" := JString(SuccessResult),
                  "response" := JObject(map["statusCode" := JNumber(s), "data" := d])])
    case ErrorReply(s, msg) =>
      JObject(map["result" := JString(ErrorResult),
                  "response" := JObject(map["statusCode" := JNumber(s), "message" := JString(msg)])])
  }

  /** A worker-to-primary message once `isWorkerMessage` accepted it: the
      method, the endpoint string, and `userId` and `body` exactly as they
      came (unchecked, possibly absent). */
  datatype WorkerMessage = WorkerMessage(verb: HTTPMethod, endpoint: string, userId: Option<Json>, body: Option<Json>)
}
