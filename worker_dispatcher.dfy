/** A worker's request handler in cluster mode (src/worker-dispatcher.ts):
    it turns a request into an Intent message for the primary, answers
    locally when the request cannot be forwarded, and renders the primary's
    Reply. */
module WorkerDispatcher {
  import opened Wrappers
  import opened Json
  import opened Errors
  import opened HttpTypes
  import opened Endpoints
  import opened WorkerTypes
  import opened Validators

  /** The message `sendMessageToParent` serialises.  `userId` is `None`
      when the key is left out and `Some(None)` when it is `null`. */
  datatype Intent = Intent(verb: HTTPMethod, endpoint: Endpoint, userId: Option<Option<string>>, body: Option<string>)

  function UserIdJson(u: Option<string>): Json
  {
    if u.Some? then JString(u.value) else JNull
  }

  /** The object `JSON.stringify` writes for an Intent. */
  function IntentJson(i: Intent): (j: Json)
    ensures j.JObject?
    ensures "userId" in j.fields <==> i.userId.Some?
    ensures "body" in j.fields <==> i.body.Some?
  {
    var base := map["method" := JString(MethodName(i.verb)), "endpoint" := JString(EndpointValue(i.endpoint))];
    var withId := if i.userId.Some? then base["userId" := UserIdJson(i.userId.value)] else base;
    JObject(if i.body.Some? then withId["body" := JString(i.body.value)] else withId)
  }

  /** The method switch of `dispatcher` on a parsed route: GET and DELETE
      send the id, POST the body, PUT both; POST and PUT read the body
      first, and a method outside the four is rejected. */
  function BuildIntent(verb: string, ed: EndpointData, body: RequestBody): (r: Result<Intent, Error>)
    ensures r.Success? <==>
      verb in MethodNames() && (verb == "POST" || verb == "PUT" ==> body.Received?)
    ensures verb !in MethodNames() ==> r == Failure(InvalidHTTPMethodError)
    ensures r.Success? ==>
      && MethodName(r.value.verb) == verb && r.value.endpoint == ed.endpoint
      && (r.value.userId.Some? <==> r.value.verb != Post)
      && (r.value.userId.Some? ==> r.value.userId.value == ed.userId)
      && (r.value.body.Some? <==> r.value.verb == Post || r.value.verb == Put)
      && (r.value.body.Some? ==> body.Received? && r.value.body.value == body.text)
  {
    match ParseMethod(verb)
    case None => Failure(InvalidHTTPMethodError)
    case Some(Get) => Success(Intent(Get, ed.endpoint, Some(ed.userId), None))
    case Some(Post) =>
      (match body
       case ReadFailed(m) => Failure(OtherError(m))
       case Received(t, _) => Success(Intent(Post, ed.endpoint, None, Some(t))))
    case Some(Put) =>
      (match body
       case ReadFailed(m) => Failure(OtherError(m))
       case Received(t, _) => Success(Intent(Put, ed.endpoint, Some(ed.userId), Some(t))))
    case Some(Delete) => Success(Intent(Delete, ed.endpoint, Some(ed.userId), None))
  }

  /** The Intent for a request, or what was thrown before one could be sent. */
  function Route(req: Request): Result<Intent, Error>
  {
    match ParseEndpoint(req.url)
    case Failure(e) => Failure(e)
    case Success(ed) => BuildIntent(req.verb, ed, req.body)
  }

  /** `sendErrorResponse` of src/helpers/response.ts. */
  function SendErrorResponse(e: Error): (r: Response)
    ensures IsHTTPError(e) ==> r == PlaintextResponse(e.statusCode, e.text)
    ensures !IsHTTPError(e) && !e.NonError? ==> r == PlaintextResponse(ServerErrorStatus, Message(e))
    ensures e.NonError? ==> r == PlaintextResponse(ServerErrorStatus, "Unknown error")
  {
    if IsHTTPError(e) then PlaintextResponse(e.statusCode, e.text)
    else if e.NonError? then PlaintextResponse(ServerErrorStatus, "Unknown error")
    else PlaintextResponse(ServerErrorStatus, Message(e))
  }

  /** A response that was only ended: no status, no header, no body. */
  const Ended: Response := Response(None, None, NoBody)

  /** `actOnParentMessage`, given what `JSON.parse` made of the reply. */
  function ActOnParentMessage(enums: StringEnums, parsed: ParseOutcome): (r: Response)
    ensures r == Ended <==> parsed.SyntaxError? || !IsParentMessage(enums, parsed.value)
    ensures parsed.Parsed? && IsParentMessage(enums, parsed.value) ==>
      var resp := parsed.value.fields["response"];
      r.statusCode == Some(resp.fields["statusCode"].n)
  {
    match parsed
    case SyntaxError(_) => Ended
    case Parsed(v) =>
      if !IsParentMessage(enums, v) then Ended
      else
        var resp := v.fields["response"];
        if v.fields["result"] == JString(ErrorResult) then
          PlaintextResponse(resp.fields["statusCode"].n, resp.fields["message"].s)
        else
          JSONResponse(resp.fields["statusCode"].n, if "data" in resp.fields then Some(resp.fields["data"]) else None)
  }

  /** Intent shapes: GET and DELETE carry the id and no body, POST the body
      and no id, PUT both; the primary's `isWorkerMessage` accepts every
      Intent and reads back its method, endpoint, id and body. */
  lemma {:induction false} IntentAccepted(i: Intent)
    ensures IsWorkerMessage(IntentJson(i))
    ensures DecodeWorkerMessage(IntentJson(i)) == Some(WorkerMessage(i.verb, EndpointValue(i.endpoint),
      if i.userId.Some? then Some(UserIdJson(i.userId.value)) else None,
      if i.body.Some? then Some(JString(i.body.value)) else None))
  {
    var j := IntentJson(i);
    assert j.fields["method"] == JString(MethodName(i.verb));
    assert j.fields["endpoint"] == JString(EndpointValue(i.endpoint));
    ParseMethodName(i.verb);
  }

  /** The requests answered locally, without a message to the primary: an
      unknown route whatever the method, then an unsupported method.  The
      five error classes are not `HTTPError`s, so both are 500. */
  lemma LocalRejections(req: Request)
    ensures !IsUsersPath(req.url) && !IsUserIdPath(req.url) ==>
      Route(req) == Failure(InvalidEndpointError)
      && SendErrorResponse(InvalidEndpointError) == PlaintextResponse(ServerErrorStatus, "Request to non-existing endpoint")
    ensures (IsUsersPath(req.url) || IsUserIdPath(req.url)) && req.verb !in MethodNames() ==>
      Route(req) == Failure(InvalidHTTPMethodError)
      && SendErrorResponse(InvalidHTTPMethodError) == PlaintextResponse(ServerErrorStatus, "Invalid HTTP method")
  {
  }

  /** A success reply with a valid status is rendered as JSON with its
      status and data; the primary's error replies, which have no `type`,
      are all rendered as a response that is only ended. */
  lemma {:induction false} RenderedReplies(enums: StringEnums, m: ParentMessage)
    ensures m.SuccessReply? && m.statusCode in StatusCodes() ==>
      ActOnParentMessage(enums, Parsed(ParentMessageJson(m))) == JSONResponse(m.statusCode, Some(m.data))
    ensures m.ErrorReply? ==> ActOnParentMessage(enums, Parsed(ParentMessageJson(m))) == Ended
  {
    RepliesAgainstIsParentMessage(enums, m);
    var j := ParentMessageJson(m);
    if m.SuccessReply? {
      assert j.fields["result"] == JString(SuccessResult) != JString(ErrorResult);
      assert j.fields["response"].fields["data"] == m.data;
    }
  }

  /** An error reply that does pass `isParentMessage` (one with a `type`)
      is rendered as plain text with its status and message. */
  lemma ErrorReplyAsText(enums: StringEnums, v: Json)
    requires IsParentMessage(enums, v) && v.fields["result"] == JString(ErrorResult)
    ensures var resp := v.fields["response"];
      ActOnParentMessage(enums, Parsed(v)) == PlaintextResponse(resp.fields["statusCode"].n, resp.fields["message"].s)
  {
  }

  /** A rendered response and the request it answers. */
  datatype Rendered = Rendered(request: nat, response: Response)

  /** Every pending one-shot listener fires on the next message from the
      primary, each rendering that same message. */
  function Deliver(enums: StringEnums, pending: seq<nat>, parsed: ParseOutcome): seq<Rendered>
  {
    seq(|pending|, i requires 0 <= i < |pending| => Rendered(pending[i], ActOnParentMessage(enums, parsed)))
  }

  /** The corrected delivery: the oldest pending request takes the reply
      and the others keep waiting. */
  datatype Delivery = Delivery(rendered: seq<Rendered>, pending: seq<nat>)

  function DeliverInOrder(enums: StringEnums, pending: seq<nat>, parsed: ParseOutcome): Delivery
  {
    if |pending| == 0 then Delivery([], [])
    else Delivery([Rendered(pending[0], ActOnParentMessage(enums, parsed))], pending[1..])
  }

  /** A run of replies delivered in order, one at a time. */
  function RunInOrder(enums: StringEnums, pending: seq<nat>, replies: seq<ParseOutcome>): Delivery
    decreases |replies|
  {
    if |replies| == 0 then Delivery([], pending)
    else
      var d := DeliverInOrder(enums, pending, replies[0]);
      var rest := RunInOrder(enums, d.pending, replies[1..]);
      Delivery(d.rendered + rest.rendered, rest.pending)
  }

  /** As written: with two requests pending, the first reply is rendered to
      both, and the second reply reaches nobody. */
  lemma {:induction false} SharedFirstReply(enums: StringEnums, a: nat, b: nat, r1: ParseOutcome, r2: ParseOutcome)
    ensures Deliver(enums, [a, b], r1) ==
      [Rendered(a, ActOnParentMessage(enums, r1)), Rendered(b, ActOnParentMessage(enums, r1))]
    ensures Deliver(enums, [], r2) == []
  {
    var rs := Deliver(enums, [a, b], r1);
    assert rs[0] == Rendered(a, ActOnParentMessage(enums, r1));
    assert rs[1] == Rendered(b, ActOnParentMessage(enums, r1));
  }

  /** Corrected: with one reply per pending request, arriving in the order
      the Intents were sent, each request gets exactly its own reply. */
  lemma {:induction false} InOrderPairsReplies(enums: StringEnums, pending: seq<nat>, replies: seq<ParseOutcome>)
    requires |replies| == |pending|
    ensures RunInOrder(enums, pending, replies).pending == []
    ensures RunInOrder(enums, pending, replies).rendered ==
      seq(|pending|, i requires 0 <= i < |pending| => Rendered(pending[i], ActOnParentMessage(enums, replies[i])))
    decreases |replies|
  {
    if |replies| > 0 {
      InOrderPairsReplies(enums, pending[1..], replies[1..]);
      var want := seq(|pending|, i requires 0 <= i < |pending| => Rendered(pending[i], ActOnParentMessage(enums, replies[i])));
      var got := RunInOrder(enums, pending, replies).rendered;
      assert got == [Rendered(pending[0], ActOnParentMessage(enums, replies[0]))] + RunInOrder(enums, pending[1..], replies[1..]).rendered;
      assert |got| == |want|;
      forall i | 0 <= i < |want|
        ensures got[i] == want[i]
      {
        if i > 0 {
          assert got[i] == RunInOrder(enums, pending[1..], replies[1..]).rendered[i - 1];
        }
      }
    }
  }

  /** A worker process: the messages it has sent the primary, and the
      requests whose one-shot reply listener is registered, oldest first. */
  class WorkerProcess {
    var outbox: seq<Json>
    var pending: seq<nat>

    constructor ()
      ensures outbox == [] && pending == []
    {
      outbox := [];
      pending := [];
    }

    /** `dispatcher` for the request numbered `request`: one Intent sent
        and one listener registered, or a local error response and neither. */
    method Dispatch(request: nat, req: Request) returns (local: Option<Response>)
      modifies this
      ensures Route(req).Success? ==>
        outbox == old(outbox) + [IntentJson(Route(req).value)] && pending == old(pending) + [request] && local.None?
      ensures Route(req).Failure? ==>
        outbox == old(outbox) && pending == old(pending) && local == Some(SendErrorResponse(Route(req).error))
    {
      var r := Route(req);
      match r {
        case Failure(e) =>
          local := Some(SendErrorResponse(e));
        case Success(intent) =>
          outbox := outbox + [IntentJson(intent)];
          pending := pending + [request];
          local := None;
      }
    }

    /** A message from the primary: every registered listener fires on it
        and is removed. */
    method OnParentMessage(enums: StringEnums, parsed: ParseOutcome) returns (rendered: seq<Rendered>)
      modifies this
      ensures rendered == Deliver(enums, old(pending), parsed)
      ensures pending == [] && outbox == old(outbox)
    {
      var response := ActOnParentMessage(enums, parsed);
      var listeners := pending;
      rendered := seq(|listeners|, i requires 0 <= i < |listeners| => Rendered(listeners[i], response));
      assert rendered == Deliver(enums, listeners, parsed);
      pending := [];
    }
  }

  /** The as-written behaviour on one worker: requests `a` and `b` are
      both accepted before the primary's first reply arrives.  The first
      reply is rendered to both, which clears every listener, so the second
      reply is rendered to no one. */
  method TwoPendingRequests(w: WorkerProcess, enums: StringEnums, a: nat, reqA: Request, b: nat, reqB: Request,
                            r1: ParseOutcome, r2: ParseOutcome)
    returns (first: seq<Rendered>, second: seq<Rendered>)
    requires w.pending == [] && Route(reqA).Success? && Route(reqB).Success?
    modifies w
    ensures first == [Rendered(a, ActOnParentMessage(enums, r1)), Rendered(b, ActOnParentMessage(enums, r1))]
    ensures second == [] && w.pending == []
    ensures w.outbox == old(w.outbox) + [IntentJson(Route(reqA).value), IntentJson(Route(reqB).value)]
  {
    var localA := w.Dispatch(a, reqA);
    var localB := w.Dispatch(b, reqB);
    assert w.pending == [a, b];
    first := w.OnParentMessage(enums, r1);
    second := w.OnParentMessage(enums, r2);
    SharedFirstReply(enums, a, b, r1, r2);
  }
}
