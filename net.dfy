/**
  The network and the clock as the adapters see them.

  A `requests.Session` is an oracle: a script of replies handed out one per
  GET, in order, together with the log of the requests it was sent; the
  `i`-th GET receives the `i`-th reply. When the script runs out every
  further GET fails in transport (connection refused, timeout). JSON
  decoding is abstracted: a body is either not JSON, the JSON value `null`,
  or a document of a per-endpoint shape `T`.
 */
module Net {

  datatype Json<T> = NotJson | Null | Doc(doc: T)

  datatype Reply<T> = Transport | Response(status: int, body: Json<T>)

  /** The statuses for which `raise_for_status()` raises `HTTPError`. */
  predicate HttpError(status: int) {
    400 <= status < 600
  }

  /** `n` copies of the same request: what a retry loop sends. */
  function Repeat<Q>(q: Q, n: nat): (r: seq<Q>)
    ensures |r| == n && forall i :: 0 <= i < n ==> r[i] == q
  {
    seq(n, _ => q)
  }

  /** The reply the `i`-th GET (from 0) receives. */
  function ReplyAt<T>(script: seq<Reply<T>>, i: nat): Reply<T> {
    if i < |script| then script[i] else Transport
  }

  /** `requests.Session`, scripted. */
  class Session<Q, T> {
    const script: seq<Reply<T>>
    var sent: seq<Q>

    constructor (replies: seq<Reply<T>>)
      ensures script == replies && sent == []
    {
      script := replies;
      sent := [];
    }

    /** `session.get(url, params=q)`: the reply after those already handed out. */
    method Get(q: Q) returns (r: Reply<T>)
      modifies this
      ensures r == ReplyAt(script, |old(sent)|)
      ensures sent == old(sent) + [q]
    {
      r := ReplyAt(script, |sent|);
      sent := sent + [q];
    }
  }

  /** `time.sleep`, recorded instead of waited: whole seconds, in call order. */
  class Clock {
    var slept: seq<int>

    constructor ()
      ensures slept == []
    {
      slept := [];
    }

    method Sleep(seconds: int)
      modifies this
      ensures slept == old(slept) + [seconds]
    {
      slept := slept + [seconds];
    }
  }
}
