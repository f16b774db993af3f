/**
 * Histories of the whole timer table: calls on all timers, expiries and calls
 * made directly to the resource manager, in any order. Each timer sees its own
 * part of the history as a trace, so the bounds of one timer bound the releases
 * that reach the manager.
 */
module TimerCalls {
  import opened Basics
  import opened RmModel
  import opened InactivityTimer

  /** What may happen at time `at`. `Manage` stands for everything that concerns no timer. */
  datatype Call =
    | Start(i: nat, at: nat, jiffies: nat)
    | Destroy(i: nat, at: nat)
    | Ask(i: nat, at: nat, env: nat -> Reply)
    | LetGo(i: nat, at: nat)
    | Elapse(i: nat, at: nat, env: nat -> Reply)
    | Manage(at: nat, op: Op)

  /** The handle is in use; calls for another are refused. */
  predicate Known(ts: seq<Timer>, i: nat)
  {
    i < |ts| && ts[i].initied
  }

  function TableStep(ts: seq<Timer>, call: Call): (r: seq<Timer>)
    ensures |r| == |ts|
  {
    match call
    case Start(i, _, jiffies) => if i < |ts| && !ts[i].initied then ts[i := Started(jiffies)] else ts
    case Destroy(i, _) => if Known(ts, i) then ts[i := UNUSED] else ts
    case Ask(i, _, _) => if Known(ts, i) then ts[i := TimerRequested(ts[i])] else ts
    case LetGo(i, at) => if Known(ts, i) then ts[i := TimerReleased(ts[i], at)] else ts
    case Elapse(i, at, _) => if i < |ts| then ts[i := TimerExpired(ts[i], at)] else ts
    case Manage(_, _) => ts
  }

  /** The calls that reach the resource manager. */
  function Issued(ts: seq<Timer>, call: Call): seq<Op>
  {
    match call
    case Ask(i, _, env) => if Known(ts, i) then [OpRequest(i, env)] else []
    case Elapse(i, _, env) => if i < |ts| && Releases(ts[i]) then [OpRelease(i, env)] else []
    case Manage(_, op) => [op]
    case _ => []
  }

  /** Only queued work that is due expires. */
  predicate Possible(ts: seq<Timer>, call: Call)
  {
    call.Elapse? ==> call.i < |ts| && ts[call.i].due.Some? && ts[call.i].due.value <= call.at
  }

  /** The table after the first n calls. */
  function TableAfter(ts: seq<Timer>, calls: seq<Call>, n: nat): (r: seq<Timer>)
    requires n <= |calls|
    ensures |r| == |ts|
  {
    if n == 0 then ts else TableStep(TableAfter(ts, calls, n - 1), calls[n - 1])
  }

  /** What the first n calls have sent to the resource manager. */
  function Sent(ts: seq<Timer>, calls: seq<Call>, n: nat): seq<Op>
    requires n <= |calls|
  {
    if n == 0 then [] else Sent(ts, calls, n - 1) + Issued(TableAfter(ts, calls, n - 1), calls[n - 1])
  }

  predicate Occurs(ts: seq<Timer>, calls: seq<Call>, k: nat)
    requires k < |calls|
  {
    Possible(TableAfter(ts, calls, k), calls[k]) && (k > 0 ==> calls[k - 1].at <= calls[k].at)
  }

  predicate History(ts: seq<Timer>, calls: seq<Call>)
  {
    forall k :: 0 <= k < |calls| ==> Occurs(ts, calls, k)
  }

  // ----- the history as one timer sees it

  function EventOf(call: Call, i: nat): TimerEvent
  {
    match call
    case Ask(j, at, _) => if j == i then Request(at) else Tick(at)
    case LetGo(j, at) => if j == i then Release(at) else Tick(at)
    case Elapse(j, at, _) => if j == i then Expire(at) else Tick(at)
    case _ => Tick(call.at)
  }

  function Events(calls: seq<Call>, i: nat): seq<TimerEvent>
  {
    seq(|calls|, k requires 0 <= k < |calls| => EventOf(calls[k], i))
  }

  /** Timer i has just been started and is not destroyed. */
  predicate Runs(ts: seq<Timer>, calls: seq<Call>, i: nat, jiffies: nat)
  {
    && i < |ts| && ts[i] == Started(jiffies)
    && forall k :: 0 <= k < |calls| ==> !(calls[k].Destroy? && calls[k].i == i)
  }

  lemma {:induction false} TimerAfter(ts: seq<Timer>, calls: seq<Call>, i: nat, jiffies: nat, n: nat)
    requires Runs(ts, calls, i, jiffies) && n <= |calls|
    ensures var t := TableAfter(ts, calls, n)[i]; t == After(Started(jiffies), Events(calls, i), n) && t.initied
  {
    if n > 0 {
      TimerAfter(ts, calls, i, jiffies, n - 1);
      assert !(calls[n - 1].Destroy? && calls[n - 1].i == i);
    }
  }

  /** The calls on one timer, among all others, are a trace of it. */
  lemma HistoryIsTrace(ts: seq<Timer>, calls: seq<Call>, i: nat, jiffies: nat)
    requires Runs(ts, calls, i, jiffies) && History(ts, calls)
    ensures Trace(Started(jiffies), Events(calls, i))
  {
    forall k | 0 <= k < |calls| ensures Follows(Started(jiffies), Events(calls, i), k) {
      assert Occurs(ts, calls, k);
      TimerAfter(ts, calls, i, jiffies, k);
    }
  }

  // ----- what reaches the manager

  predicate CallOn(call: Call, i: nat)
  {
    (call.Ask? || call.LetGo?) && call.i == i
  }

  lemma {:induction false} LastCallMade(calls: seq<Call>, i: nat, n: nat) returns (m: nat)
    requires n <= |calls| && LastCall(Events(calls, i), n).Some?
    ensures m < n && CallOn(calls[m], i) && LastCall(Events(calls, i), n) == Some(EventOf(calls[m], i))
    ensures forall k :: m < k < n ==> !CallOn(calls[k], i)
  {
    m := n - 1;
    if !CallOn(calls[n - 1], i) {
      m := LastCallMade(calls, i, n - 1);
    }
  }

  /** A release reaches the manager from timer i only if the last call on i was a release, at least
      one timeout ago. */
  lemma ReleasedLate(ts: seq<Timer>, calls: seq<Call>, i: nat, jiffies: nat, k: nat) returns (m: nat)
    requires Runs(ts, calls, i, jiffies) && History(ts, calls) && k < |calls| && calls[k].Elapse? && calls[k].i == i
    requires Issued(TableAfter(ts, calls, k), calls[k]) != []
    ensures m < k && calls[m].LetGo? && calls[m].i == i && calls[m].at + jiffies <= calls[k].at
    ensures forall x :: m < x < k ==> !CallOn(calls[x], i)
  {
    HistoryIsTrace(ts, calls, i, jiffies);
    TimerAfter(ts, calls, i, jiffies, k);
    NeverEarly(jiffies, Events(calls, i), k);
    m := LastCallMade(calls, i, k);
  }

  /** If the work of timer i expires at most `latency` late, then a release of i that no call on i
      follows reaches the manager between one timeout and two (and two latencies) later. */
  lemma ReleaseArrives(ts: seq<Timer>, calls: seq<Call>, i: nat, jiffies: nat, k: nat, latency: nat)
    returns (m: nat)
    requires Runs(ts, calls, i, jiffies) && History(ts, calls)
    requires Punctual(Started(jiffies), Events(calls, i), latency)
    requires k < |calls| && calls[k].LetGo? && calls[k].i == i
    requires forall x :: k < x < |calls| ==> !CallOn(calls[x], i)
    requires calls[|calls| - 1].at > calls[k].at + 2 * jiffies + 2 * latency
    ensures k < m < |calls| && calls[m].Elapse? && calls[m].i == i
    ensures Issued(TableAfter(ts, calls, m), calls[m]) == [OpRelease(i, calls[m].env)]
    ensures calls[k].at + jiffies <= calls[m].at <= calls[k].at + 2 * jiffies + 2 * latency
  {
    var es := Events(calls, i);
    HistoryIsTrace(ts, calls, i, jiffies);
    assert NoCallAfter(es, k);
    InactivityWindow(jiffies, es, k, latency);
    m :| k < m < |es| && FiresInTime(jiffies, es, m, es[k].at, latency);
    TimerAfter(ts, calls, i, jiffies, m);
  }
}
