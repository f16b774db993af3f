/** The table of timers, on top of the resource manager. */
module InactivityTimers {
  import opened Basics
  import opened RmModel
  import opened InactivityTimer
  import opened TimerCalls
  import opened ResourceManager

  /** ipa_rm_it_handles: one timer per resource name, and the manager they call. */
  class Handles {
    const timers: array<Timer>
    const rm: Manager

    ghost predicate Valid()
      reads this, rm
    {
      rm.Valid() && timers.Length == rm.table.Length && timers !in rm.Footprint() && this !in rm.Footprint()
    }

    constructor (n: nat)
      ensures Valid() && fresh(timers) && fresh(rm.Footprint())
      ensures rm.Model() == Init(n) && timers[..] == seq(n, _ => UNUSED)
    {
      timers := new Timer[n](_ => UNUSED);
      rm := new Manager(n);
    }

    /** ipa_rm_inactivity_timer_init */
    method InitTimer(i: nat, jiffies: nat) returns (code: int)
      requires Valid()
      modifies timers
      ensures Valid()
      ensures code == if i < timers.Length && !old(timers[..])[i].initied then 0 else -EINVAL
      ensures timers[..] == if code == 0 then old(timers[..])[i := Started(jiffies)] else old(timers[..])
    {
      if i >= timers.Length {
        return -EINVAL;
      }
      if timers[i].initied {
        return -EINVAL;
      }
      timers[i] := Started(jiffies);
      code := 0;
    }

    /** ipa_rm_inactivity_timer_destroy: the queued work is cancelled and the handle cleared */
    method DestroyTimer(i: nat) returns (code: int)
      requires Valid()
      modifies timers
      ensures Valid()
      ensures code == if i < timers.Length && old(timers[..])[i].initied then 0 else -EINVAL
      ensures timers[..] == if code == 0 then old(timers[..])[i := UNUSED] else old(timers[..])
    {
      if i >= timers.Length {
        return -EINVAL;
      }
      if !timers[i].initied {
        return -EINVAL;
      }
      timers[i] := UNUSED;
      code := 0;
    }

    /** ipa_rm_inactivity_timer_request_resource */
    method RequestResource(i: nat, env: nat -> Reply) returns (code: int)
      requires Valid()
      modifies timers, rm.Footprint()
      ensures Valid()
      ensures var known := i < timers.Length && old(timers[..])[i].initied;
              if known then
                && timers[..] == old(timers[..])[i := TimerRequested(old(timers[..])[i])]
                && Out(rm.Model(), code) == ApiRequest(old(rm.Model()), i, env)
              else
                code == -EINVAL && timers[..] == old(timers[..]) && rm.Model() == old(rm.Model())
    {
      if i >= timers.Length {
        return -EINVAL;
      }
      if !timers[i].initied {
        return -EINVAL;
      }
      timers[i] := timers[i].(requested := true);
      code := rm.RequestResource(i, env);
    }

    /** ipa_rm_inactivity_timer_release_resource at time now */
    method ReleaseResource(i: nat, now: nat) returns (code: int)
      requires Valid()
      modifies timers
      ensures Valid()
      ensures code == if i < timers.Length && old(timers[..])[i].initied then 0 else -EINVAL
      ensures timers[..] == if code == 0 then old(timers[..])[i := TimerReleased(old(timers[..])[i], now)]
                            else old(timers[..])
    {
      if i >= timers.Length {
        return -EINVAL;
      }
      if !timers[i].initied {
        return -EINVAL;
      }
      timers[i] := timers[i].(requested := false);
      code := 0;
      if timers[i].inProgress {
        timers[i] := timers[i].(reschedule := true);
        return;
      }
      timers[i] := timers[i].(inProgress := true, reschedule := false);
      timers[i] := timers[i].(wakeLock := true);
      timers[i] := timers[i].(due := Some(now + timers[i].jiffies));
    }

    /** ipa_rm_inactivity_timer_func: the work of timer i expires at time now */
    method Expire(i: nat, now: nat, env: nat -> Reply)
      requires Valid() && i < timers.Length && timers[i].due.Some?
      modifies timers, rm.Footprint()
      ensures Valid()
      ensures timers[..] == old(timers[..])[i := TimerExpired(old(timers[i]), now)]
      ensures rm.Model() == if Releases(old(timers[i])) then ApiRelease(old(rm.Model()), i, env).s
                            else old(rm.Model())
    {
      timers[i] := timers[i].(due := None);
      if timers[i].reschedule {
        timers[i] := timers[i].(reschedule := false);
        timers[i] := timers[i].(due := Some(now + timers[i].jiffies));
      } else if timers[i].requested {
        timers[i] := timers[i].(inProgress := false);
      } else {
        timers[i] := timers[i].(wakeLock := false);
        var ignored := rm.ReleaseResource(i, env);
        timers[i] := timers[i].(inProgress := false);
      }
    }

    /** One call, expiry or manager step: the table and the manager do what the history says. */
    method Serve(call: Call)
      requires Valid() && Possible(timers[..], call)
      modifies timers, rm.Footprint()
      ensures Valid()
      ensures timers[..] == TableStep(old(timers[..]), call)
      ensures rm.Model() == Run(old(rm.Model()), Issued(old(timers[..]), call))
    {
      match call
      case Start(i, _, jiffies) => var code := InitTimer(i, jiffies);
      case Destroy(i, _) => var code := DestroyTimer(i);
      case Ask(i, _, env) => var code := RequestResource(i, env);
      case LetGo(i, at) => var code := ReleaseResource(i, at);
      case Elapse(i, at, env) => Expire(i, at, env);
      case Manage(_, op) => rm.Perform(op);
    }

    /** A whole history: what reaches the manager is what the table sends. */
    method ServeAll(calls: seq<Call>)
      requires Valid() && History(timers[..], calls)
      modifies timers, rm.Footprint()
      ensures Valid()
      ensures timers[..] == TableAfter(old(timers[..]), calls, |calls|)
      ensures rm.Model() == Run(old(rm.Model()), Sent(old(timers[..]), calls, |calls|))
    {
      ghost var ts, s := timers[..], rm.Model();
      for k := 0 to |calls|
        invariant Valid()
        invariant timers[..] == TableAfter(ts, calls, k)
        invariant rm.Model() == Run(s, Sent(ts, calls, k))
      {
        assert Occurs(ts, calls, k);
        RunAppend(s, Sent(ts, calls, k), Issued(timers[..], calls[k]));
        Serve(calls[k]);
      }
    }
  }
}
