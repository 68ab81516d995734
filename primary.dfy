/** The primary process of cluster mode (src/multi.ts): it answers each
    worker's Intent message with a Reply, and keeps the `activeWorkers`
    registry from worker pid to worker port. */
module Primary {
  import opened Wrappers
  import opened Json
  import opened Errors
  import opened HttpTypes
  import opened WorkerTypes
  import opened Validators

  const InvalidFormat: string := "Worker message have invalid format"

  /** The `{ statusCode, message }` pair `getErrorResponse` builds. */
  datatype ErrorResponse = ErrorResponse(statusCode: int, message: string)

  /** `getErrorResponse`: an `HTTPError` keeps its own status and message,
      any other `Error` is 500 with its message, and a thrown non-`Error`
      is 500 with `ErrorMessage.UnknownError`. */
  function GetErrorResponse(enums: StringEnums, e: Error): (r: ErrorResponse)
    ensures IsHTTPError(e) ==> r == ErrorResponse(e.statusCode, e.text)
    ensures !IsHTTPError(e) ==> r.statusCode == ServerErrorStatus
    ensures !IsHTTPError(e) && !e.NonError? ==> r.message == Message(e)
    ensures e.NonError? ==> r.message == enums.unknownError
  {
    if IsHTTPError(e) then ErrorResponse(e.statusCode, e.text)
    else if e.NonError? then ErrorResponse(ServerErrorStatus, enums.unknownError)
    else ErrorResponse(ServerErrorStatus, Message(e))
  }

  /** `parseWorkerMessage`, given what `JSON.parse` made of the string: a
      syntax error propagates as that `Error`; a value failing
      `isWorkerMessage` is a `ServerError`. */
  function ParseWorkerMessage(parsed: ParseOutcome): (r: Result<WorkerMessage, Error>)
    ensures parsed.SyntaxError? ==> r == Failure(OtherError(parsed.message))
    ensures parsed.Parsed? ==> (r.Success? <==> IsWorkerMessage(parsed.value))
    ensures parsed.Parsed? && !IsWorkerMessage(parsed.value) ==> r == Failure(ServerError(InvalidFormat))
    ensures r.Success? ==> parsed.Parsed? && Some(r.value) == DecodeWorkerMessage(parsed.value)
  {
    match parsed
    case SyntaxError(m) => Failure(OtherError(m))
    case Parsed(v) =>
      match DecodeWorkerMessage(v)
      case None => Failure(ServerError(InvalidFormat))
      case Some(m) => Success(m)
  }

  /** A message on the IPC channel: the number a worker sends once it
      listens, a string (with what `JSON.parse` makes of it), or anything
      else. */
  datatype IpcMessage = IpcNumber(n: int) | IpcString(parsed: ParseOutcome) | IpcOther

  /** The status of a successful reply to each method. */
  function SuccessStatus(m: HTTPMethod): int
  {
    match m
    case Get => OK
    case Post => Created
    case Put => OK
    case Delete => NoContent
  }

  function ErrorReplyOf(enums: StringEnums, e: Error): ParentMessage
  {
    var er := GetErrorResponse(enums, e);
    ErrorReply(er.statusCode, er.message)
  }

  /** `actOnWorkerMessage`.  The controller calls of src/multi.ts:64-79 do
      not match the `Controller` signatures of src/controller.ts, so the
      controller's answer to the message is a parameter: the data it
      returned or the error it threw. */
  function ActOnWorkerMessage(enums: StringEnums, msg: IpcMessage, outcome: Result<Json, Error>): (r: ParentMessage)
    ensures r.SuccessReply? <==>
      msg.IpcString? && msg.parsed.Parsed? && IsWorkerMessage(msg.parsed.value) && outcome.Success?
    ensures r.SuccessReply? ==>
      var m := DecodeWorkerMessage(msg.parsed.value).value;
      r.statusCode == SuccessStatus(m.verb) && r.data == (if m.verb == Delete then JNull else outcome.value)
    ensures r.ErrorReply? ==>
      exists e :: r == ErrorReplyOf(enums, e)
  {
    match msg
    case IpcString(p) =>
      (match ParseWorkerMessage(p)
       case Failure(e) => ErrorReplyOf(enums, e)
       case Success(m) =>
         match outcome
         case Failure(e) => ErrorReplyOf(enums, e)
         case Success(d) => SuccessReply(SuccessStatus(m.verb), if m.verb == Delete then JNull else d))
    case _ => ErrorReplyOf(enums, ServerError(InvalidFormat))
  }

  /** Every failure (a non-string, bad JSON, a bad shape, a controller
      error) is answered with the error reply `getErrorResponse` builds for
      what was thrown. */
  lemma FailureReplies(enums: StringEnums, msg: IpcMessage, outcome: Result<Json, Error>)
    ensures !msg.IpcString? ==>
      ActOnWorkerMessage(enums, msg, outcome) == ErrorReply(ServerErrorStatus, InvalidFormat)
    ensures msg.IpcString? && msg.parsed.SyntaxError? ==>
      ActOnWorkerMessage(enums, msg, outcome) == ErrorReply(ServerErrorStatus, msg.parsed.message)
    ensures msg.IpcString? && msg.parsed.Parsed? && !IsWorkerMessage(msg.parsed.value) ==>
      ActOnWorkerMessage(enums, msg, outcome) == ErrorReply(ServerErrorStatus, InvalidFormat)
    ensures msg.IpcString? && msg.parsed.Parsed? && IsWorkerMessage(msg.parsed.value) && outcome.Failure? ==>
      ActOnWorkerMessage(enums, msg, outcome) == ErrorReplyOf(enums, outcome.error)
  {
  }

  /** No error reply carries a `type`, so the worker's `isParentMessage`
      accepts a reply exactly when it is a success. */
  lemma {:induction false} ReplyAcceptedIffSuccess(enums: StringEnums, msg: IpcMessage, outcome: Result<Json, Error>)
    ensures var r := ActOnWorkerMessage(enums, msg, outcome);
      IsParentMessage(enums, ParentMessageJson(r)) <==> r.SuccessReply?
  {
    var r := ActOnWorkerMessage(enums, msg, outcome);
    RepliesAgainstIsParentMessage(enums, r);
    if r.SuccessReply? {
      assert r.statusCode in {OK, Created, NoContent};
    }
  }

  /** What the `'message'` listener does with one message: a number
      resolves the worker's readiness promise; anything else is answered. */
  datatype ListenerStep = Resolve | Reply(message: ParentMessage)

  function OnWorkerMessage(enums: StringEnums, msg: IpcMessage, outcome: Result<Json, Error>): (s: ListenerStep)
    ensures s.Resolve? <==> msg.IpcNumber?
    ensures s.Reply? ==> s.message == ActOnWorkerMessage(enums, msg, outcome)
  {
    if msg.IpcNumber? then Resolve else Reply(ActOnWorkerMessage(enums, msg, outcome))
  }

  /** The replies sent on one worker's channel for a run of messages, each
      paired with the controller's answer to it. */
  function Replies(enums: StringEnums, msgs: seq<IpcMessage>, outcomes: seq<Result<Json, Error>>): seq<ParentMessage>
    requires |outcomes| == |msgs|
  {
    if |msgs| == 0 then []
    else
      var rest := Replies(enums, msgs[..|msgs| - 1], outcomes[..|msgs| - 1]);
      match OnWorkerMessage(enums, msgs[|msgs| - 1], outcomes[|msgs| - 1])
      case Resolve => rest
      case Reply(m) => rest + [m]
  }

  function NonNumeric(msgs: seq<IpcMessage>): nat
  {
    if |msgs| == 0 then 0
    else NonNumeric(msgs[..|msgs| - 1]) + (if msgs[|msgs| - 1].IpcNumber? then 0 else 1)
  }

  /** Numeric messages get no reply and every other message exactly one,
      in order. */
  lemma {:induction false} OneReplyPerMessage(enums: StringEnums, msgs: seq<IpcMessage>, outcomes: seq<Result<Json, Error>>)
    requires |outcomes| == |msgs|
    ensures |Replies(enums, msgs, outcomes)| == NonNumeric(msgs)
    ensures |msgs| > 0 && !msgs[|msgs| - 1].IpcNumber? ==>
      Replies(enums, msgs, outcomes)[NonNumeric(msgs) - 1] == ActOnWorkerMessage(enums, msgs[|msgs| - 1], outcomes[|msgs| - 1])
  {
    if |msgs| > 0 {
      OneReplyPerMessage(enums, msgs[..|msgs| - 1], outcomes[..|msgs| - 1]);
    }
  }

  /** Later messages only append: the replies to a prefix of the run are a
      prefix of the replies to the whole run. */
  lemma {:induction false} RepliesPrefix(enums: StringEnums, msgs: seq<IpcMessage>, outcomes: seq<Result<Json, Error>>, k: nat)
    requires |outcomes| == |msgs| && k <= |msgs|
    ensures Replies(enums, msgs[..k], outcomes[..k]) <= Replies(enums, msgs, outcomes)
    decreases |msgs| - k
  {
    if k < |msgs| {
      var n := |msgs| - 1;
      var init := Replies(enums, msgs[..n], outcomes[..n]);
      assert init <= Replies(enums, msgs, outcomes);
      RepliesPrefix(enums, msgs[..n], outcomes[..n], k);
      assert msgs[..n][..k] == msgs[..k];
      assert outcomes[..n][..k] == outcomes[..k];
    } else {
      assert msgs[..k] == msgs;
      assert outcomes[..k] == outcomes;
    }
  }

  /** Replies go out in message order: the reply to the `k`-th message, when
      it is not a number, is the reply numbered by the non-numeric messages
      up to and including it. */
  lemma {:induction false} RepliesInOrder(enums: StringEnums, msgs: seq<IpcMessage>, outcomes: seq<Result<Json, Error>>, k: nat)
    requires |outcomes| == |msgs| && k < |msgs| && !msgs[k].IpcNumber?
    ensures 0 < NonNumeric(msgs[..k + 1]) <= |Replies(enums, msgs, outcomes)|
    ensures Replies(enums, msgs, outcomes)[NonNumeric(msgs[..k + 1]) - 1] == ActOnWorkerMessage(enums, msgs[k], outcomes[k])
  {
    var pm, po := msgs[..k + 1], outcomes[..k + 1];
    assert pm[|pm| - 1] == msgs[k] && po[|po| - 1] == outcomes[k];
    OneReplyPerMessage(enums, pm, po);
    RepliesPrefix(enums, msgs, outcomes, k + 1);
  }

  // ---------------------------------------------------------------------
  // The activeWorkers registry

  /** `!pid` is false for pids that are present and non-zero. */
  predicate IsSet(p: Option<int>)
  {
    p.Some? && p.value != 0
  }

  /** The registry and the port a respawn was forked on, if any. */
  datatype ExitOutcome = ExitOutcome(workers: map<int, int>, forked: Option<int>)

  /** `handleWorkerExit` on values: `deadPid` is the dead worker's pid and
      `newPid` what `cluster.fork` would report for its replacement. */
  function ExitStep(m: map<int, int>, deadPid: Option<int>, newPid: Option<int>): ExitOutcome
  {
    if !IsSet(deadPid) then ExitOutcome(m, None)
    else
      var d := deadPid.value;
      if d !in m || m[d] == 0 then ExitOutcome(m - {d}, None)
      else if !IsSet(newPid) then ExitOutcome(m - {d}, Some(m[d]))
      else ExitOutcome((m - {d})[newPid.value := m[d]], Some(m[d]))
  }

  /** How many pids the registry maps to `port`. */
  function PortCount(m: map<int, int>, port: int): nat
  {
    |set k | k in m && m[k] == port|
  }

  /** A known pid with a port: the replacement is forked on that port, the
      dead pid is gone, the new pid has the port and no other entry
      changes; with a fresh new pid every port keeps its count. */
  lemma {:induction false} RespawnOnSamePort(m: map<int, int>, d: int, n: int)
    requires d != 0 && d in m && m[d] != 0 && n != 0
    ensures var o := ExitStep(m, Some(d), Some(n));
      && o.forked == Some(m[d])
      && n in o.workers && o.workers[n] == m[d]
      && (d != n ==> d !in o.workers)
      && (forall k :: k in m && k != d && k != n ==> k in o.workers && o.workers[k] == m[k])
      && o.workers.Keys == m.Keys - {d} + {n}
    ensures n !in m ==> forall p :: PortCount(ExitStep(m, Some(d), Some(n)).workers, p) == PortCount(m, p)
  {
    var o := ExitStep(m, Some(d), Some(n));
    assert o.workers == (m - {d})[n := m[d]];
    if n !in m {
      forall p
        ensures PortCount(o.workers, p) == PortCount(m, p)
      {
        var s := set k | k in m && m[k] == p;
        var s' := set k | k in o.workers && o.workers[k] == p;
        if p == m[d] {
          assert s' == s - {d} + {n};
          assert d in s && n !in s;
          assert |s - {d}| == |s| - 1;
        } else {
          assert s' == s;
        }
      }
    }
  }

  /** A known pid without a port (absent, or the falsy port 0): its entry
      is removed, nothing is forked and nothing else changes. */
  lemma NoPortNoRespawn(m: map<int, int>, d: int, newPid: Option<int>)
    requires d != 0 && (d !in m || m[d] == 0)
    ensures ExitStep(m, Some(d), newPid) == ExitOutcome(m - {d}, None)
  {
  }

  /** A dead worker without a (truthy) pid leaves the registry alone. */
  lemma UnknownPidUnchanged(m: map<int, int>, deadPid: Option<int>, newPid: Option<int>)
    requires !IsSet(deadPid)
    ensures ExitStep(m, deadPid, newPid) == ExitOutcome(m, None)
  {
  }

  /** A replacement whose pid is falsy is forked but not registered. */
  lemma UnknownNewPid(m: map<int, int>, d: int, newPid: Option<int>)
    requires d != 0 && d in m && m[d] != 0 && !IsSet(newPid)
    ensures ExitStep(m, Some(d), newPid) == ExitOutcome(m - {d}, Some(m[d]))
  {
  }

  /** The number of workers `createWorkers` forks. */
  function ForkCount(numCores: int): nat
  {
    if numCores > 1 then numCores - 1 else 0
  }

  /** The ports `createWorkers` forks on, in order. */
  function WorkerPorts(basePort: int, numCores: int): (ps: seq<int>)
    ensures |ps| == ForkCount(numCores)
    ensures forall j :: 0 <= j < |ps| ==> ps[j] == basePort + j + 1
  {
    seq(ForkCount(numCores), j => basePort + j + 1)
  }

  /** The ports lie strictly above `basePort` and below `basePort +
      numCores`; there are none when `numCores` is at most 1. */
  lemma WorkerPortRange(basePort: int, numCores: int)
    ensures basePort !in WorkerPorts(basePort, numCores)
    ensures forall p :: p in WorkerPorts(basePort, numCores) ==> basePort < p < basePort + numCores
    ensures numCores <= 1 ==> WorkerPorts(basePort, numCores) == []
  {
  }

  /** The registry after the `j`-th fork (counting from 0) reported
      `pids[j]` for the worker on `basePort + j + 1`. */
  function Registered(m: map<int, int>, basePort: int, pids: seq<Option<int>>): map<int, int>
    decreases |pids|
  {
    if |pids| == 0 then m
    else
      var m1 := Registered(m, basePort, pids[..|pids| - 1]);
      var p := pids[|pids| - 1];
      if IsSet(p) then m1[p.value := basePort + |pids|] else m1
  }

  /** Every entry is an old one or maps to one of the forked ports, and old
      entries whose pid no fork reported stay as they were. */
  lemma {:induction false} RegisteredEntries(m: map<int, int>, basePort: int, pids: seq<Option<int>>)
    ensures var r := Registered(m, basePort, pids);
      forall k :: k in r ==> (k in m && r[k] == m[k]) || basePort < r[k] <= basePort + |pids|
    ensures var r := Registered(m, basePort, pids);
      forall k :: k in m && Some(k) !in pids ==> k in r && r[k] == m[k]
  {
    if |pids| > 0 {
      var init := pids[..|pids| - 1];
      RegisteredEntries(m, basePort, init);
    }
  }

  /** A worker whose pid no later fork reports again is registered on its
      own port. */
  lemma {:induction false} RegisteredPort(m: map<int, int>, basePort: int, pids: seq<Option<int>>, j: nat)
    requires j < |pids| && IsSet(pids[j])
    requires forall l :: j < l < |pids| ==> pids[l] != pids[j]
    ensures pids[j].value in Registered(m, basePort, pids)
    ensures Registered(m, basePort, pids)[pids[j].value] == basePort + j + 1
  {
    if j < |pids| - 1 {
      var init := pids[..|pids| - 1];
      assert init[j] == pids[j];
      RegisteredPort(m, basePort, init, j);
      assert pids[|pids| - 1] != pids[j];
    }
  }

  // ---------------------------------------------------------------------
  // Which workers the primary answers

  /** Every registered worker has a `'message'` listener, so the Intents of
      every worker the balancer routes to are answered.  Listeners are
      attached to worker objects; here they are named by the pids those
      workers report. */
  predicate Served(m: map<int, int>, listening: set<int>)
  {
    forall k :: k in m ==> k in listening
  }

  /** The reported pids of the workers `createWorkers` attaches a listener
      to: every worker it forks. */
  function ForkedPids(pids: seq<Option<int>>): set<int>
    decreases |pids|
  {
    if |pids| == 0 then {}
    else
      var p := pids[|pids| - 1];
      ForkedPids(pids[..|pids| - 1]) + (if IsSet(p) then {p.value} else {})
  }

  /** `createWorkers` keeps every registered worker answered: each pid it
      registers is one it attached a listener to. */
  lemma {:induction false} RegisteredServed(m: map<int, int>, listening: set<int>, basePort: int, pids: seq<Option<int>>)
    requires Served(m, listening)
    ensures Served(Registered(m, basePort, pids), listening + ForkedPids(pids))
  {
    if |pids| > 0 {
      RegisteredServed(m, listening, basePort, pids[..|pids| - 1]);
    }
  }

  /** As written, `handleWorkerExit` forks and registers the replacement
      but attaches no `'message'` listener to it: once a registered worker
      is respawned under a fresh pid, the registry holds a worker whose
      Intents the primary never answers. */
  lemma {:induction false} RespawnUnserved(m: map<int, int>, listening: set<int>, d: int, n: int)
    requires Served(m, listening)
    requires d != 0 && d in m && m[d] != 0 && n != 0 && n !in listening
    ensures var o := ExitStep(m, Some(d), Some(n));
      n in o.workers && o.workers[n] == m[d] && !Served(o.workers, listening)
  {
    RespawnOnSamePort(m, d, n);
  }

  /** The listeners after a respawn that, like `createWorkers`, attaches a
      listener to the worker it forks. */
  function RespawnListening(m: map<int, int>, listening: set<int>, deadPid: Option<int>, newPid: Option<int>): set<int>
  {
    if ExitStep(m, deadPid, newPid).forked.Some? && IsSet(newPid) then listening + {newPid.value}
    else listening
  }

  /** With that listener, every exit keeps every registered worker
      answered, and a replacement with a pid is answered. */
  lemma {:induction false} CorrectedRespawnServed(m: map<int, int>, listening: set<int>, deadPid: Option<int>, newPid: Option<int>)
    requires Served(m, listening)
    ensures Served(ExitStep(m, deadPid, newPid).workers, RespawnListening(m, listening, deadPid, newPid))
    ensures ExitStep(m, deadPid, newPid).forked.Some? && IsSet(newPid) ==>
      newPid.value in RespawnListening(m, listening, deadPid, newPid)
  {
    var o := ExitStep(m, deadPid, newPid);
    var l' := RespawnListening(m, listening, deadPid, newPid);
    forall k | k in o.workers
      ensures k in l'
    {
      if IsSet(deadPid) && IsSet(newPid) && o.forked.Some? && k == newPid.value {
      } else {
        assert k in m;
      }
    }
  }

  /** The primary's pid to port map. */
  class ActiveWorkers {
    var workers: map<int, int>
    /** The pids of the workers with a `'message'` listener. */
    var listening: set<int>

    constructor ()
      ensures workers == map[] && listening == {}
    {
      workers := map[];
      listening := {};
    }

    /** `handleWorkerExit`; `newPid` is the pid `cluster.fork` reports for
        the replacement, if one is forked. */
    method HandleWorkerExit(deadPid: Option<int>, newPid: Option<int>) returns (forkedPort: Option<int>)
      modifies this
      ensures ExitOutcome(workers, forkedPort) == ExitStep(old(workers), deadPid, newPid)
      ensures listening == old(listening)
    {
      if !IsSet(deadPid) {
        return None;
      }
      var d := deadPid.value;
      var workerPort := if d in workers then workers[d] else 0;
      workers := workers - {d};
      if workerPort == 0 {
        return None;
      }
      forkedPort := Some(workerPort);
      if !IsSet(newPid) {
        return;
      }
      workers := workers[newPid.value := workerPort];
    }

    /** `createWorkers`: `pids[j]` is the pid `cluster.fork` reports for
        the worker on port `basePort + j + 1`; the result lists the ports
        forked on, one readiness listener each. */
    method CreateWorkers(basePort: int, numCores: int, pids: seq<Option<int>>) returns (forkedPorts: seq<int>)
      requires |pids| == ForkCount(numCores)
      modifies this
      ensures forkedPorts == WorkerPorts(basePort, numCores)
      ensures workers == Registered(old(workers), basePort, pids)
      ensures listening == old(listening) + ForkedPids(pids)
      ensures Served(old(workers), old(listening)) ==> Served(workers, listening)
    {
      forkedPorts := [];
      var i := 1;
      while i < numCores
        invariant 1 <= i && i - 1 <= |pids|
        invariant numCores > 1 ==> i <= numCores
        invariant forkedPorts == WorkerPorts(basePort, i)
        invariant workers == Registered(old(workers), basePort, pids[..i - 1])
        invariant listening == old(listening) + ForkedPids(pids[..i - 1])
      {
        var newWorkerPid := pids[i - 1];
        assert pids[..i][..i - 1] == pids[..i - 1];
        if IsSet(newWorkerPid) {
          workers := workers[newWorkerPid.value := basePort + i];
          listening := listening + {newWorkerPid.value};
        }
        forkedPorts := forkedPorts + [basePort + i];
        i := i + 1;
      }
      assert pids[..i - 1] == pids;
      if Served(old(workers), old(listening)) {
        RegisteredServed(old(workers), old(listening), basePort, pids);
      }
    }
  }
}
