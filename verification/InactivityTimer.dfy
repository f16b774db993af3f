/**
 * The inactivity timer of one resource: three flags, a wake lock and at most
 * one delayed work. Its release calls are delayed by at least one and at most
 * two timeouts, whatever calls and expiries interleave.
 */
module InactivityTimer {
  import opened Basics

  /** `due` is the time of the delayed work that is queued, if one is. */
  datatype Timer = Timer(
    initied: bool, requested: bool, reschedule: bool, inProgress: bool,
    jiffies: nat, wakeLock: bool, due: Option<nat>)

  const UNUSED := Timer(false, false, false, false, 0, false, None)

  /** ipa_rm_inactivity_timer_init */
  function Started(jiffies: nat): Timer
  {
    UNUSED.(initied := true, jiffies := jiffies)
  }

  /** ipa_rm_inactivity_timer_request_resource, before it asks the resource manager */
  function TimerRequested(t: Timer): Timer
  {
    t.(requested := true)
  }

  /** ipa_rm_inactivity_timer_release_resource at time now */
  function TimerReleased(t: Timer, now: nat): Timer
  {
    if t.inProgress then t.(requested := false, reschedule := true)
    else t.(requested := false, inProgress := true, reschedule := false, wakeLock := true, due := Some(now + t.jiffies))
  }

  /** Whether an expiry of t releases the resource. */
  predicate Releases(t: Timer)
  {
    !t.reschedule && !t.requested
  }

  /** ipa_rm_inactivity_timer_func at time now; the work that expires is no longer queued */
  function TimerExpired(t: Timer, now: nat): Timer
  {
    if t.reschedule then t.(reschedule := false, due := Some(now + t.jiffies))
    else if t.requested then t.(inProgress := false, due := None)
    else t.(wakeLock := false, inProgress := false, due := None)
  }

  // ----- runs of one timer

  datatype TimerEvent =
    | Request(at: nat)
    | Release(at: nat)
    | Expire(at: nat)
    | Tick(at: nat)

  function TimerStep(t: Timer, e: TimerEvent): Timer
  {
    match e
    case Request(_) => TimerRequested(t)
    case Release(at) => TimerReleased(t, at)
    case Expire(at) => TimerExpired(t, at)
    case Tick(_) => t
  }

  /** The timer after the first n events. */
  function After(t: Timer, es: seq<TimerEvent>, n: nat): Timer
    requires n <= |es|
  {
    if n == 0 then t else TimerStep(After(t, es, n - 1), es[n - 1])
  }

  function Now(es: seq<TimerEvent>, n: nat): nat
    requires n <= |es|
  {
    if n == 0 then 0 else es[n - 1].at
  }

  /** An event may follow: time does not run backwards, and only queued work that is due expires. */
  predicate MayFollow(t: Timer, now: nat, e: TimerEvent)
  {
    e.at >= now && (e.Expire? ==> t.due.Some? && t.due.value <= e.at)
  }

  /** Nothing happens later than `latency` after queued work was due. */
  predicate OnTime(t: Timer, e: TimerEvent, latency: nat)
  {
    t.due.Some? ==> e.at <= t.due.value + latency
  }

  predicate Follows(t: Timer, es: seq<TimerEvent>, k: nat)
    requires k < |es|
  {
    MayFollow(After(t, es, k), Now(es, k), es[k])
  }

  predicate InTime(t: Timer, es: seq<TimerEvent>, k: nat, latency: nat)
    requires k < |es|
  {
    OnTime(After(t, es, k), es[k], latency)
  }

  predicate Trace(t: Timer, es: seq<TimerEvent>)
  {
    forall k :: 0 <= k < |es| ==> Follows(t, es, k)
  }

  predicate Punctual(t: Timer, es: seq<TimerEvent>, latency: nat)
  {
    forall k :: 0 <= k < |es| ==> InTime(t, es, k, latency)
  }

  /** Event k is an expiry that releases the resource. */
  predicate Fires(t: Timer, es: seq<TimerEvent>, k: nat)
    requires k < |es|
  {
    es[k].Expire? && Releases(After(t, es, k))
  }

  /** The last request or release among the first n events. */
  function LastCall(es: seq<TimerEvent>, n: nat): Option<TimerEvent>
    requires n <= |es|
  {
    if n == 0 then None
    else if es[n - 1].Request? || es[n - 1].Release? then Some(es[n - 1])
    else LastCall(es, n - 1)
  }

  /** The flags, the lock and the queued work agree. */
  predicate Consistent(t: Timer)
  {
    && (t.inProgress <==> t.due.Some?)
    && (t.inProgress ==> t.wakeLock)
    && (t.wakeLock ==> t.inProgress || t.requested)
    && (t.reschedule ==> t.inProgress)
  }

  /** What the flags say about the last call: work that will release was queued after it. */
  predicate Explained(t: Timer, now: nat, last: Option<TimerEvent>)
  {
    && (t.due.Some? ==> t.due.value <= now + t.jiffies)
    && (match last
        case None => !t.requested && t.due.None?
        case Some(Request(_)) => t.requested
        case Some(Release(at)) =>
          && !t.requested && at <= now
          && (t.due.Some? && !t.reschedule ==> at + t.jiffies <= t.due.value)
        case Some(_) => false)
  }

  lemma {:induction false} TraceExplained(jiffies: nat, es: seq<TimerEvent>, n: nat)
    requires Trace(Started(jiffies), es) && n <= |es|
    ensures var t := After(Started(jiffies), es, n);
            Consistent(t) && t.jiffies == jiffies && Explained(t, Now(es, n), LastCall(es, n))
  {
    if n > 0 {
      TraceExplained(jiffies, es, n - 1);
      assert Follows(Started(jiffies), es, n - 1);
    }
  }

  /** The release is never early: it fires only when the last call was a release, one full
      timeout ago or more. */
  lemma NeverEarly(jiffies: nat, es: seq<TimerEvent>, k: nat)
    requires Trace(Started(jiffies), es) && k < |es| && Fires(Started(jiffies), es, k)
    ensures var last := LastCall(es, k);
            last.Some? && last.value.Release? && last.value.at + jiffies <= es[k].at
  {
    TraceExplained(jiffies, es, k);
    assert Follows(Started(jiffies), es, k);
  }

  // ----- the wake lock

  /** Since the release call k no expiry before event n has released the resource. */
  predicate Unfired(t: Timer, es: seq<TimerEvent>, k: nat, n: nat)
    requires k < n <= |es|
  {
    es[k].Release? && forall m :: k < m < n ==> !Fires(t, es, m)
  }

  lemma UnfiredStep(t: Timer, es: seq<TimerEvent>, k: nat, n: nat)
    requires k < n < |es|
    ensures Unfired(t, es, k, n + 1) <==> Unfired(t, es, k, n) && !Fires(t, es, n)
  {
  }

  /** The wake lock is held exactly from a release call to the expiry that releases the resource:
      a request in between keeps it. */
  lemma {:induction false} LockExactly(jiffies: nat, es: seq<TimerEvent>, n: nat)
    requires Trace(Started(jiffies), es) && n <= |es|
    ensures After(Started(jiffies), es, n).wakeLock <==>
              exists k :: 0 <= k < n && Unfired(Started(jiffies), es, k, n)
  {
    var t0 := Started(jiffies);
    if n > 0 {
      LockExactly(jiffies, es, n - 1);
      TraceExplained(jiffies, es, n - 1);
      assert Follows(t0, es, n - 1);
      forall k | 0 <= k < n - 1 ensures Unfired(t0, es, k, n) <==> Unfired(t0, es, k, n - 1) && !Fires(t0, es, n - 1) {
        UnfiredStep(t0, es, k, n - 1);
      }
      var before := After(t0, es, n - 1);
      if es[n - 1].Release? {
        assert Unfired(t0, es, n - 1, n);
      } else {
        assert After(t0, es, n).wakeLock == (before.wakeLock && !Fires(t0, es, n - 1));
        if before.wakeLock {
          var k :| 0 <= k < n - 1 && Unfired(t0, es, k, n - 1);
          assert Unfired(t0, es, k, n) <==> !Fires(t0, es, n - 1);
        }
      }
    }
  }

  // ----- the upper bound

  predicate NoCallAfter(es: seq<TimerEvent>, k: nat)
  {
    forall m :: k < m < |es| ==> !es[m].Request? && !es[m].Release?
  }

  /** The work queued since a release at time `at` is due in its window. */
  predicate InWindow(t: Timer, at: nat, latency: nat)
  {
    && t.due.Some? && !t.requested
    && (t.reschedule ==> t.due.value <= at + t.jiffies)
    && (!t.reschedule ==> at + t.jiffies <= t.due.value <= at + 2 * t.jiffies + latency)
  }

  lemma WindowOpens(t: Timer, now: nat, at: nat, latency: nat)
    requires Consistent(t) && now <= at && (t.due.Some? ==> t.due.value <= now + t.jiffies)
    ensures InWindow(TimerReleased(t, at), at, latency)
  {
  }

  /** An event that is no call leaves the work in its window, or is the release, in time. */
  lemma WindowStep(t: Timer, now: nat, e: TimerEvent, at: nat, latency: nat)
    requires InWindow(t, at, latency) && MayFollow(t, now, e) && OnTime(t, e, latency)
    requires !e.Request? && !e.Release? && at <= e.at
    ensures InWindow(TimerStep(t, e), at, latency) ||
            (e.Expire? && Releases(t) && at + t.jiffies <= e.at <= at + 2 * t.jiffies + 2 * latency)
  {
  }

  /** After a release and no further call, either the work is still queued in its window or
      it has fired in time. */
  lemma {:induction false} WindowOrFired(jiffies: nat, es: seq<TimerEvent>, k: nat, n: nat, latency: nat)
    requires Trace(Started(jiffies), es) && Punctual(Started(jiffies), es, latency)
    requires k < n <= |es| && es[k].Release? && NoCallAfter(es, k)
    ensures InWindow(After(Started(jiffies), es, n), es[k].at, latency) ||
            exists m :: k < m < n && FiresInTime(jiffies, es, m, es[k].at, latency)
    decreases n
  {
    var t := After(Started(jiffies), es, n - 1);
    TraceExplained(jiffies, es, n - 1);
    assert Follows(Started(jiffies), es, n - 1) && InTime(Started(jiffies), es, n - 1, latency);
    if n == k + 1 {
      WindowOpens(t, Now(es, k), es[k].at, latency);
    } else {
      NoEarlierEvent(Started(jiffies), es, k, n - 1);
      WindowOrFired(jiffies, es, k, n - 1, latency);
      if InWindow(t, es[k].at, latency) {
        WindowStep(t, Now(es, n - 1), es[n - 1], es[k].at, latency);
        if !InWindow(TimerStep(t, es[n - 1]), es[k].at, latency) {
          assert FiresInTime(jiffies, es, n - 1, es[k].at, latency);
        }
      }
    }
  }

  predicate FiresInTime(jiffies: nat, es: seq<TimerEvent>, m: nat, at: nat, latency: nat)
    requires m < |es|
  {
    Fires(Started(jiffies), es, m) && at + jiffies <= es[m].at <= at + 2 * jiffies + 2 * latency
  }

  lemma {:induction false} NoEarlierEvent(t: Timer, es: seq<TimerEvent>, k: nat, n: nat)
    requires Trace(t, es) && k <= n < |es|
    ensures es[k].at <= es[n].at
    decreases n
  {
    if k < n {
      assert Follows(t, es, n);
      NoEarlierEvent(t, es, k, n - 1);
    }
  }

  /**
   * The inactivity window. If work expires at most `latency` late, then once time has passed
   * 2 timeouts + 2 latencies after a release that no call follows, the resource has been
   * released, and not before one timeout.
   */
  lemma InactivityWindow(jiffies: nat, es: seq<TimerEvent>, k: nat, latency: nat)
    requires Trace(Started(jiffies), es) && Punctual(Started(jiffies), es, latency)
    requires k < |es| && es[k].Release? && NoCallAfter(es, k)
    requires Now(es, |es|) > es[k].at + 2 * jiffies + 2 * latency
    ensures exists m :: k < m < |es| && FiresInTime(jiffies, es, m, es[k].at, latency)
  {
    var n := |es| - 1;
    WindowOrFired(jiffies, es, k, n, latency);
    var t := After(Started(jiffies), es, n);
    TraceExplained(jiffies, es, n);
    assert InTime(Started(jiffies), es, n, latency);
    assert !InWindow(t, es[k].at, latency);
    var m :| k < m < n && FiresInTime(jiffies, es, m, es[k].at, latency);
    assert FiresInTime(jiffies, es, m, es[k].at, latency);
  }

  /** At most one release follows a release call that no other call follows. */
  lemma {:induction false} FiresOnce(jiffies: nat, es: seq<TimerEvent>, k: nat, m: nat, n: nat)
    requires Trace(Started(jiffies), es) && k < m < n <= |es| && NoCallAfter(es, k) && Fires(Started(jiffies), es, m)
    ensures After(Started(jiffies), es, n).due.None?
    ensures n < |es| ==> !Fires(Started(jiffies), es, n)
    decreases n
  {
    var t0 := Started(jiffies);
    if n > m + 1 {
      FiresOnce(jiffies, es, k, m, n - 1);
      assert Follows(t0, es, n - 1);
    }
    if n < |es| {
      assert Follows(t0, es, n);
    }
  }
}
