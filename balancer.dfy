/** The load balancer of cluster mode (src/balancer-dispatcher.ts): a
    round-robin cursor over the worker ports, and the header checks on a
    worker's response. */
module Balancer {
  import opened Wrappers
  import opened Errors
  import opened HttpTypes

  /** A JavaScript number as far as the cursor needs one: an integer, or
      the `NaN` that `x % 0` yields. */
  datatype JsInt = Int(value: int) | NaN

  /** JavaScript's `%` on integers: the remainder takes the sign of the
      dividend, and a zero divisor gives `NaN`. */
  function JsRem(a: JsInt, n: int): (r: JsInt)
    ensures n == 0 || a.NaN? <==> r.NaN?
    ensures a.Int? && a.value >= 0 && n > 0 ==> r == Int(a.value % n)
  {
    if a.NaN? || n == 0 then NaN
    else if a.value >= 0 then Int(a.value % (if n > 0 then n else -n))
    else Int(-((-a.value) % (if n > 0 then n else -n)))
  }

  function Inc(a: JsInt): JsInt
  {
    if a.NaN? then NaN else Int(a.value + 1)
  }

  /** `currentWorkerIdx = (currentWorkerIdx + 1) % numWorkers`. */
  function Advance(cursor: JsInt, numWorkers: int): JsInt
  {
    JsRem(Inc(cursor), numWorkers)
  }

  /** `workerStartPort + currentWorkerIdx`. */
  function PortOf(workerStartPort: int, cursor: JsInt): JsInt
  {
    if cursor.NaN? then NaN else Int(workerStartPort + cursor.value)
  }

  /** The cursor after `k` requests have reached the update. */
  function CursorAfter(numWorkers: int, k: nat): JsInt
  {
    if k == 0 then Int(0) else Advance(CursorAfter(numWorkers, k - 1), numWorkers)
  }

  lemma {:induction false} MulAtLeast(x: int, n: int)
    requires x >= 1 && n > 0
    ensures x * n >= n
  {
    if x > 1 {
      MulAtLeast(x - 1, n);
      assert x * n == (x - 1) * n + n;
    }
  }

  /** `0 <= r < n` and `a == q * n + r` fix `a / n` and `a % n`. */
  lemma DivModUnique(a: int, n: int, q: int, r: int)
    requires n > 0 && 0 <= r < n && a == q * n + r
    ensures a / n == q && a % n == r
  {
    var q', r' := a / n, a % n;
    assert q' * n + r' == q * n + r;
    if q' > q {
      MulAtLeast(q' - q, n);
      assert false;
    } else if q' < q {
      MulAtLeast(q - q', n);
      assert false;
    }
  }

  /** How `k / n` and `k % n` step from `k - 1` to `k`. */
  lemma DivModStep(k: nat, n: int)
    requires k > 0 && n > 0
    ensures (k - 1) % n + 1 < n ==> k / n == (k - 1) / n && k % n == (k - 1) % n + 1
    ensures (k - 1) % n + 1 == n ==> k / n == (k - 1) / n + 1 && k % n == 0
  {
    var q, r := (k - 1) / n, (k - 1) % n;
    assert k - 1 == q * n + r;
    if r + 1 < n {
      DivModUnique(k, n, q, r + 1);
    } else {
      assert k == (q + 1) * n + 0;
      DivModUnique(k, n, q + 1, 0);
    }
  }

  /** With at least one worker the cursor after `k` requests is `k mod n`,
      so it stays in `[0, n)`; with none it is `NaN` from the first update. */
  lemma {:induction false} CursorIsMod(numWorkers: int, k: nat)
    ensures numWorkers > 0 ==> CursorAfter(numWorkers, k) == Int(k % numWorkers)
    ensures numWorkers > 0 ==> 0 <= CursorAfter(numWorkers, k).value < numWorkers
    ensures numWorkers == 0 && k > 0 ==> CursorAfter(numWorkers, k) == NaN
  {
    if k > 0 {
      CursorIsMod(numWorkers, k - 1);
      if numWorkers > 0 {
        var r := (k - 1) % numWorkers;
        assert Inc(CursorAfter(numWorkers, k - 1)) == Int(r + 1);
        assert CursorAfter(numWorkers, k) == Int((r + 1) % numWorkers);
        DivModStep(k, numWorkers);
        if r + 1 < numWorkers {
          DivModUnique(r + 1, numWorkers, 0, r + 1);
        } else {
          DivModUnique(r + 1, numWorkers, 1, 0);
        }
      }
    }
  }

  /** The `i`-th request (from 0) to complete its dispatch goes to port
      `workerStartPort + i mod n`. */
  lemma RoundRobinTarget(workerStartPort: int, numWorkers: int, i: nat)
    requires numWorkers > 0
    ensures PortOf(workerStartPort, CursorAfter(numWorkers, i)) == Int(workerStartPort + i % numWorkers)
  {
    CursorIsMod(numWorkers, i);
  }

  /** Of the first `m` requests, how many go to the worker at offset `p`. */
  function Hits(numWorkers: int, m: nat, p: int): nat
    requires numWorkers > 0
  {
    if m == 0 then 0 else Hits(numWorkers, m - 1, p) + (if (m - 1) % numWorkers == p then 1 else 0)
  }

  /** Each worker gets `m / n` of `m` requests, or one more: the first
      `m mod n` workers get the extra one. */
  lemma {:induction false} FairShare(numWorkers: int, m: nat, p: int)
    requires numWorkers > 0 && 0 <= p < numWorkers
    ensures Hits(numWorkers, m, p) == m / numWorkers + (if p < m % numWorkers then 1 else 0)
  {
    if m > 0 {
      FairShare(numWorkers, m - 1, p);
      DivModStep(m, numWorkers);
    }
  }

  /** What a worker's response contributes to the client's response. */
  datatype Forwarded = Forwarded(statusCode: int, contentType: string)

  const NoStatus: string := "Response from worker doesn't contain status code"
  const NoContentType: string := "Response from worker doesn't contain 'Content-Type' header"

  /** `handleResponse`: a falsy status (absent or 0) or a falsy content
      type (absent or empty) is a `ServerError`; otherwise both are copied. */
  function HandleResponse(statusCode: Option<int>, contentType: Option<string>): (r: Result<Forwarded, Error>)
    ensures r.Success? <==>
      statusCode.Some? && statusCode.value != 0 && contentType.Some? && contentType.value != ""
    ensures r.Success? ==> r.value == Forwarded(statusCode.value, contentType.value)
    ensures statusCode.None? || statusCode.value == 0 ==> r == Failure(ServerError(NoStatus))
    ensures statusCode.Some? && statusCode.value != 0 && (contentType.None? || contentType.value == "") ==>
      r == Failure(ServerError(NoContentType))
  {
    if statusCode.None? || statusCode.value == 0 then Failure(ServerError(NoStatus))
    else if contentType.None? || contentType.value == "" then Failure(ServerError(NoContentType))
    else Success(Forwarded(statusCode.value, contentType.value))
  }

  /** The request listener `createBalancer` returns, with its closure
      variable `currentWorkerIdx` as `cursor`. */
  class RoundRobin {
    const workerStartPort: int
    const numWorkers: int
    var cursor: JsInt

    constructor (workerStartPort: int, numWorkers: int)
      ensures this.workerStartPort == workerStartPort && this.numWorkers == numWorkers
      ensures cursor == Int(0)
    {
      this.workerStartPort := workerStartPort;
      this.numWorkers := numWorkers;
      cursor := Int(0);
    }

    /** One request: the upstream request goes to the cursor's port; once
        the client body is read it is written upstream and the cursor
        advances.  A failed read (its error message given) is answered
        500 and leaves the cursor where it was. */
    method Dispatch(body: Result<string, string>) returns (target: JsInt, written: Option<string>, local: Option<Response>)
      modifies this
      ensures target == PortOf(workerStartPort, old(cursor))
      ensures body.Success? ==>
        written == Some(body.value) && local.None? && cursor == Advance(old(cursor), numWorkers)
      ensures body.Failure? ==>
        written.None? && local == Some(PlaintextResponse(ServerErrorStatus, body.error)) && cursor == old(cursor)
    {
      target := PortOf(workerStartPort, cursor);
      match body {
        case Failure(m) =>
          written := None;
          local := Some(PlaintextResponse(ServerErrorStatus, m));
        case Success(text) =>
          written := Some(text);
          local := None;
          cursor := Advance(cursor, numWorkers);
      }
    }
  }
}
