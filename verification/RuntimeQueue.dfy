/** SharedRuntimeQueue (sim-runtime): a bounded FIFO with ready times and a retry budget. */
module RuntimeQueue {
  import opened SimCore

  datatype Record<T> = Record(payload: T, readyAt: nat, attempts: nat)

  predicate IsReady<T>(r: Record<T>, now: nat) { now == U64_MAX || r.readyAt <= now }

  /** The ready entries, in queue order. */
  function Ready<T>(q: seq<Record<T>>, now: nat): (r: seq<Record<T>>)
    ensures now == U64_MAX ==> r == q
    ensures forall x :: x in r ==> x in q && IsReady(x, now)
  {
    if q == [] then []
    else
      var rest, last := Ready(q[..|q| - 1], now), q[|q| - 1];
      if IsReady(last, now) then rest + [last] else rest
  }

  /** The entries that stay, in queue order. */
  function Deferred<T>(q: seq<Record<T>>, now: nat): (r: seq<Record<T>>)
    ensures now == U64_MAX ==> r == []
    ensures forall x :: x in r ==> x in q && !IsReady(x, now)
  {
    if q == [] then []
    else
      var rest, last := Deferred(q[..|q| - 1], now), q[|q| - 1];
      if IsReady(last, now) then rest else rest + [last]
  }

  /** Draining loses and invents nothing. */
  lemma {:induction false} DrainPartitions<T>(q: seq<Record<T>>, now: nat)
    ensures multiset(Ready(q, now)) + multiset(Deferred(q, now)) == multiset(q)
    ensures |Ready(q, now)| + |Deferred(q, now)| == |q|
  {
    if q != [] {
      DrainPartitions(q[..|q| - 1], now);
      assert q == q[..|q| - 1] + [q[|q| - 1]];
    }
  }

  function Retried<T>(r: Record<T>, now: nat, delay: nat): Record<T> {
    r.(attempts := r.attempts + 1, readyAt := if now == U64_MAX then now else SaturatingAdd(now, delay))
  }

  class RuntimeQueue<T> {
    const issueLatency: nat
    const retryDelay: nat
    const depth: nat
    const maxRetries: nat
    var pending: seq<Record<T>>

    constructor (issueLatency: nat, retryDelay: nat, depth: nat, maxRetries: nat)
      ensures this.issueLatency == issueLatency && this.retryDelay == retryDelay
      ensures this.depth == depth && this.maxRetries == maxRetries && pending == []
    {
      this.issueLatency := issueLatency;
      this.retryDelay := retryDelay;
      this.depth := depth;
      this.maxRetries := maxRetries;
      pending := [];
    }

    method Enqueue(payload: T, now: nat) returns (r: Result<(), SimError>)
      modifies this
      ensures |old(pending)| >= depth ==>
                r == Err(InvalidInput(RuntimeQueueFull)) && pending == old(pending)
      ensures |old(pending)| < depth ==>
                r == Ok(()) && pending == old(pending) + [Record(payload, SaturatingAdd(now, issueLatency), 0)]
    {
      if |pending| >= depth {
        return Err(InvalidInput(RuntimeQueueFull));
      }
      pending := pending + [Record(payload, SaturatingAdd(now, issueLatency), 0)];
      return Ok(());
    }

    method DrainReady(now: nat) returns (ready: seq<Record<T>>, forceFlush: bool)
      modifies this
      ensures ready == Ready(old(pending), now) && pending == Deferred(old(pending), now)
      ensures forceFlush == (now == U64_MAX)
    {
      forceFlush := now == U64_MAX;
      ready := [];
      var deferred := [];
      ghost var taken := [];
      while pending != []
        invariant taken + pending == old(pending)
        invariant ready == Ready(taken, now) && deferred == Deferred(taken, now)
        decreases |pending|
      {
        var entry := pending[0];
        pending := pending[1..];
        taken := taken + [entry];
        assert taken[..|taken| - 1] + [entry] == taken;
        if !forceFlush && entry.readyAt > now {
          deferred := deferred + [entry];
        } else {
          ready := ready + [entry];
        }
      }
      assert taken == old(pending);
      pending := deferred;
    }

    method Retry(entry: Record<T>, now: nat) returns (kept: bool)
      modifies this
      ensures kept <==> entry.attempts < maxRetries
      ensures pending == if kept then old(pending) + [Retried(entry, now, retryDelay)] else old(pending)
    {
      if entry.attempts >= maxRetries {
        return false;
      }
      pending := pending + [entry.(attempts := entry.attempts + 1,
                                   readyAt := if now == U64_MAX then now else SaturatingAdd(now, retryDelay))];
      return true;
    }
  }
}
