/** What travels between client and server: codec.go. Encoding is the identity. */
module RpcMessages {
  import opened Options

  /** An argument or a result, in encoded form. */
  type Value = string

  /** A heartbeat is a request whose `target` is empty. */
  datatype Request = Request(target: string, args: seq<Value>, num: nat)

  datatype Payload = Payload(replyv: Option<Value>, err: string)

  datatype Response = Response(num: nat, payload: Payload)

  const HeartBeat := Request("", [], 0)

  /** Which payloads the registered services may compute for a method and its arguments. */
  type Service = (string, seq<Value>, Payload) -> bool

  const TimedOut := Payload(None, "service time out")

  /** What the server may answer: a service's result, or the time-out in its place. */
  predicate Answers(serve: Service, target: string, args: seq<Value>, payload: Payload) {
    serve(target, args, payload) || payload == TimedOut
  }
}
