/**
 * Whole runs: any interleaving of API calls, delayed releases and workqueue
 * steps. What a run keeps depends on what it avoids. One in which no driver
 * refuses keeps the sums; one in which no driver fails keeps the votes of granted
 * resources and every promise too, and a drained queue leaves the manager at rest.
 */
module RmRuns {
  import opened Basics
  import opened Totals
  import opened RmModel
  import opened RmStructure
  import opened RmCharges
  import opened RmGrants
  import opened RmLedger
  import opened RmAccounts

  /** What a run avoids besides refusals: failing drivers, and two careless kinds of step. */
  datatype Care = Care(noFailure: bool, noRash: bool, noStale: bool)

  /** Anything may happen, but that a driver refuses what a producer asks for. */
  const UNREFUSED := Care(false, false, false)
  const NO_RASH := Care(false, true, false)
  /** Anything may be deleted; only no driver fails. */
  const ANY := Care(true, false, false)

  ghost predicate Allowed(s: Rm, op: Op, care: Care)
    requires Wf(s)
  {
    && (if care.noFailure then GoodOp(op) else !Refused(s, op))
    && (care.noRash ==> !Rash(s, op))
    && (care.noStale ==> !Stale(s, op))
  }

  ghost predicate AllowedRun(s: Rm, ops: seq<Op>, care: Care)
    requires Wf(s)
    decreases |ops|
  {
    |ops| > 0 ==> Allowed(s, ops[0], care) && AllowedRun(Step(s, ops[0]), ops[1..], care)
  }

  ghost predicate Sound(s: Rm, care: Care)
  {
    && Structured(s) && Charged(s) && Announced(s)
    && (care.noFailure ==> Coherent(s, care.noStale) && Promised(s))
    && (care.noRash ==> Granting(s))
  }

  lemma StepSound(s: Rm, op: Op, care: Care)
    requires Sound(s, care) && Allowed(s, op, care)
    ensures Sound(Step(s, op), care)
  {
    StepStructured(s, op);
    StepCharged(s, op);
    StepAnnounced(s, op);
    if care.noFailure {
      GoodIsWilling(s, op);
      StepCoherent(s, op, care.noStale);
    }
    if care.noRash { StepGrants(s, op); }
  }

  lemma {:induction false} RunSound(s: Rm, ops: seq<Op>, care: Care)
    requires Sound(s, care) && AllowedRun(s, ops, care)
    ensures Sound(Run(s, ops), care)
    decreases |ops|
  {
    if |ops| > 0 {
      StepSound(s, ops[0], care);
      RunSound(Step(s, ops[0]), ops[1..], care);
    }
  }

  lemma InitSound(n: nat, care: Care)
    ensures Sound(Init(n), care)
  {
    InitStructured(n);
    InitCharged(n);
    InitGrants(n);
    InitBooks(n);
  }

  // ----- what reachable states mean to a client

  /** Grant safety: a granted producer has everything it depends on. */
  lemma GrantSafety(n: nat, ops: seq<Op>, p: nat, c: nat)
    requires AllowedRun(Init(n), ops, NO_RASH) && p < n && c < n && IsProd(p)
    requires var s := Run(Init(n), ops); s.table[p].state == Granted && Present(s, p, c)
    ensures Run(Init(n), ops).table[c].state == Granted
  {
    InitSound(n, NO_RASH);
    RunSound(Init(n), ops, NO_RASH);
    assert GrantOk(Run(Init(n), ops), p);
  }

  /** A waiting producer waits for somebody, and for exactly as many as it counts. */
  lemma PendingExact(n: nat, ops: seq<Op>, p: nat)
    requires AllowedRun(Init(n), ops, NO_RASH) && p < n && IsProd(p)
    requires Run(Init(n), ops).table[p].state == RequestInProgress
    ensures var s := Run(Init(n), ops);
            && s.table[p].pendingRequest == Sum(Blocked(s, p))
            && exists c :: 0 <= c < n && Present(s, p, c) && s.table[c].state == RequestInProgress
  {
    InitSound(n, NO_RASH);
    RunSound(Init(n), ops, NO_RASH);
    var s := Run(Init(n), ops);
    assert GrantOk(s, p);
    var c := SumPositive(Blocked(s, p));
    assert Present(s, p, c);
  }

  /** One per producer that depends on c and is active. */
  function ActiveUsers(s: Rm, c: nat): seq<int>
    requires Wf(s) && c < |s.table|
  {
    seq(|s.table|, p requires 0 <= p < |s.table| => Unit(s.peers[p][c].Peer? && Active(s.table[p].state)))
  }

  function ActiveDemand(s: Rm, c: nat): seq<int>
    requires Wf(s) && c < |s.table|
  {
    seq(|s.table|, p requires 0 <= p < |s.table| =>
      if s.peers[p][c].Peer? && Active(s.table[p].state) then s.table[p].maxBw as int else 0)
  }

  /** The usage count is the number of active producers, the demand is the sum of their
      maxima, and a used consumer is active: in every run in which no driver refuses. */
  lemma UsageExact(n: nat, ops: seq<Op>, c: nat)
    requires AllowedRun(Init(n), ops, UNREFUSED) && c < n && IsCons(c)
    ensures var s := Run(Init(n), ops);
            && s.table[c].usage == Sum(ActiveUsers(s, c))
            && s.table[c].neededBw == Wrap(Sum(ActiveDemand(s, c)))
            && (s.table[c].usage > 0 ==> Active(s.table[c].state))
  {
    InitSound(n, UNREFUSED);
    RunSound(Init(n), ops, UNREFUSED);
    var s := Run(Init(n), ops);
    assert ChargedTo(s, n, {}, c);
    forall p | 0 <= p < n ensures s.peers[p][c].Peer? == s.peers[c][p].Peer? {
      assert Present(s, p, c) <==> Present(s, c, p);
    }
    assert ActiveUsers(s, c) == Uses(s, n, {}, c);
    assert ActiveDemand(s, c) == Demands(s, n, {}, c);
  }

  /** While the true sum fits in 32 bits, no release subtracts more than is there. */
  lemma DemandCovers(n: nat, ops: seq<Op>, p: nat, c: nat)
    requires AllowedRun(Init(n), ops, UNREFUSED) && p < n && c < n && IsCons(c)
    requires var s := Run(Init(n), ops);
             Present(s, p, c) && Active(s.table[p].state) && Sum(ActiveDemand(s, c)) < TWO_TO_THE_32
    ensures var s := Run(Init(n), ops); s.table[p].maxBw <= s.table[c].neededBw
  {
    UsageExact(n, ops, c);
    SumBounds(ActiveDemand(Run(Init(n), ops), c), p);
  }

  /** In every run in which no driver fails, a granted resource votes its floor voltage and what
      it needs up to its maximum, and a released producer votes nothing. */
  lemma VotesExact(n: nat, ops: seq<Op>, i: nat)
    requires AllowedRun(Init(n), ops, ANY) && i < n
    ensures var s := Run(Init(n), ops); var x := s.table[i];
            && (x.state == Granted ==> s.volt[i] == x.floor && s.bw[i] == Min(x.maxBw, x.neededBw))
            && (x.state == Released && IsProd(i) ==> s.volt[i] == 0 && s.bw[i] == 0)
  {
    InitSound(n, ANY);
    RunSound(Init(n), ops, ANY);
    assert VoteOk(Run(Init(n), ops), i, false);
  }

  // ----- clock votes

  /** The clock votes of c that the deletions and creations of a run leave unaccounted for. */
  function Strayed(s: Rm, ops: seq<Op>, c: nat): int
    requires Wf(s) && c < |s.table|
    decreases |ops|
  {
    if |ops| == 0 then 0 else Strays(s, ops[0], c) + Strayed(Step(s, ops[0]), ops[1..], c)
  }

  lemma {:induction false} RunClocks(s: Rm, ops: seq<Op>, c: nat, care: Care)
    requires Sound(s, care) && care.noFailure && AllowedRun(s, ops, care) && c < |s.table| && IsCons(c)
    ensures Surplus(Run(s, ops), c) == Surplus(s, c) + Strayed(s, ops, c)
    decreases |ops|
  {
    if |ops| > 0 {
      StepClocks(s, ops[0], c);
      StepSound(s, ops[0], care);
      RunClocks(Step(s, ops[0]), ops[1..], c, care);
    }
  }

  /** Conservation of clock votes, in every run in which no driver fails, whatever it deletes:
      votes held, to be taken and to be dropped come to one for an active consumer and to none
      for another, but for those that earlier deletions of the name have left. */
  lemma ClocksExact(n: nat, ops: seq<Op>, c: nat)
    requires AllowedRun(Init(n), ops, ANY) && c < n && IsCons(c)
    ensures var s := Run(Init(n), ops); var strayed := Strayed(Init(n), ops, c);
            if s.table[c].live then
              s.clk[c] + Resumes(s.queue, c) - Suspends(s.queue, c) == Unit(Active(s.table[c].state)) + strayed
            else s.clk[c] - Suspends(s.queue, c) == Unit(Handling(s, c)) + strayed
  {
    InitSound(n, ANY);
    InitBooks(n);
    RunClocks(Init(n), ops, c, ANY);
  }

  /** Nothing strays from a consumer that is never deleted. */
  lemma {:induction false} UndeletedStraysNot(s: Rm, ops: seq<Op>, c: nat, care: Care)
    requires Sound(s, care) && care.noFailure && AllowedRun(s, ops, care) && c < |s.table| && IsCons(c)
    requires s.table[c].live || Vacant(s, c)
    requires forall k :: 0 <= k < |ops| ==> !Deletes(ops[k], c)
    ensures Strayed(s, ops, c) == 0
    decreases |ops|
  {
    if |ops| > 0 {
      assert !Deletes(ops[0], c);
      if !Creates(ops[0], c) { NameStays(s, ops[0], c); }
      StepClocks(s, ops[0], c);
      StepSound(s, ops[0], care);
      UndeletedStraysNot(Step(s, ops[0]), ops[1..], c, care);
    }
  }

  /** So for a consumer that is never deleted the votes come to exactly one or none. */
  lemma ClocksConserved(n: nat, ops: seq<Op>, c: nat)
    requires AllowedRun(Init(n), ops, ANY) && c < n && IsCons(c)
    requires forall k :: 0 <= k < |ops| ==> !Deletes(ops[k], c)
    requires Run(Init(n), ops).table[c].live
    ensures var s := Run(Init(n), ops);
            s.clk[c] + Resumes(s.queue, c) - Suspends(s.queue, c) == Unit(Active(s.table[c].state))
  {
    InitSound(n, ANY);
    UndeletedStraysNot(Init(n), ops, c, ANY);
    ClocksExact(n, ops, c);
  }

  /** Nothing more strays from a deleted consumer until its name is used again. */
  lemma {:induction false} DeletedStraysNoMore(s: Rm, ops: seq<Op>, c: nat, care: Care)
    requires Sound(s, care) && AllowedRun(s, ops, care) && c < |s.table| && IsCons(c) && !s.table[c].live
    requires forall k :: 0 <= k < |ops| ==> !Creates(ops[k], c)
    ensures Strayed(s, ops, c) == 0 && !Run(s, ops).table[c].live
    decreases |ops|
  {
    if |ops| > 0 {
      assert !Creates(ops[0], c);
      if !Deletes(ops[0], c) { NameStays(s, ops[0], c); }
      StepSound(s, ops[0], care);
      DeletedStraysNoMore(Step(s, ops[0]), ops[1..], c, care);
    }
  }

  /** Whatever the drivers answer and whoever is deleted, the IPA driver will be told the
      current aggregates, and has been once the queue is empty. */
  lemma {:induction false} RunAnnounced(s: Rm, ops: seq<Op>)
    requires Structured(s) && Announced(s)
    ensures var r := Run(s, ops);
            && LastSent(r) == (MaxOf(r.volt), Min(SideTotal(r.bw, 0), SideTotal(r.bw, 1)))
            && (Drained(r) ==> r.profile == LastSent(r))
    decreases |ops|
  {
    if |ops| > 0 {
      StepStructured(s, ops[0]);
      StepAnnounced(s, ops[0]);
      RunAnnounced(Step(s, ops[0]), ops[1..]);
    }
  }

  // ----- stability: nothing but the producer itself takes a grant away

  ghost predicate KeepsGranted(s: Rm, r: Rm)
  {
    |r.table| == |s.table| &&
    forall c :: 0 <= c < |s.table| && IsCons(c) && s.table[c].state == Granted ==> r.table[c].state == Granted
  }

  ghost predicate NeverWaits(s: Rm, r: Rm)
  {
    |r.table| == |s.table| &&
    forall c :: 0 <= c < |s.table| && IsCons(c) && s.table[c].state != RequestInProgress ==>
      r.table[c].state != RequestInProgress
  }

  lemma RequestOneKeepsGranted(s: Rm, p: nat, k: nat, reply: Reply)
    requires Wf(s) && p < |s.table| && k < |s.table| && IsProd(p) && Good(reply.driver)
    ensures KeepsGranted(s, RequestOne(s, p, k, reply).s) && Good(RequestOne(s, p, k, reply).code)
  {
    var t := AddPending(s, p, 1);
    RequestEffect(t, k, t.table[p].maxBw, true, false, reply);
  }

  lemma {:induction false} RequestFromKeepsGranted(s: Rm, p: nat, k: nat, code: int, env: nat -> Reply)
    requires Wf(s) && p < |s.table| && k <= |s.table| && IsProd(p) && GoodEnv(env)
    ensures KeepsGranted(s, RequestFrom(s, p, k, code, env).s)
    decreases |s.table| - k
  {
    if k < |s.table| {
      if Present(s, p, k) {
        var o := RequestOne(s, p, k, env(k));
        RequestOneKeepsGranted(s, p, k, env(k));
        RequestFromKeepsGranted(o.s, p, k + 1, if o.code == 0 then code else o.code, env);
      } else {
        RequestFromKeepsGranted(s, p, k + 1, code, env);
      }
    }
  }

  lemma ReleaseOneNeverWaits(s: Rm, p: nat, k: nat, reply: Reply)
    requires Wf(s) && p < |s.table| && k < |s.table| && IsProd(p) && Good(reply.driver)
    ensures NeverWaits(s, ReleaseOne(s, p, k, reply))
  {
    var u := AddPendingRelease(s, p, 1);
    ReleaseEffect(u, k, u.table[p].maxBw, true, reply);
  }

  lemma {:induction false} ReleaseFromNeverWaits(s: Rm, p: nat, k: nat, env: nat -> Reply)
    requires Wf(s) && p < |s.table| && k <= |s.table| && IsProd(p) && GoodEnv(env)
    ensures NeverWaits(s, ReleaseFrom(s, p, k, env))
    decreases |s.table| - k
  {
    if k < |s.table| {
      if Present(s, p, k) {
        ReleaseOneNeverWaits(s, p, k, env(k));
        ReleaseFromNeverWaits(ReleaseOne(s, p, k, env(k)), p, k + 1, env);
      } else {
        ReleaseFromNeverWaits(s, p, k + 1, env);
      }
    }
  }

  lemma DeleteNeverWaits(s: Rm, p: nat, c: nat, userspace: bool, reply: Reply)
    requires Structured(s) && BothExist(s, p, c) && Good(reply.driver)
    ensures NeverWaits(s, DeleteDependency(s, p, c, userspace, reply).s)
  {
    DeleteGraph(s, p, c, userspace, reply);
    if Present(s, p, c) && s.peers[p][c].userspace == userspace {
      DeleteEffect(s, p, c, userspace, reply);
    }
  }

  lemma DeleteOneNeverWaits(s: Rm, i: nat, k: nat, reply: Reply)
    requires Structured(s) && Lookup(s, i) && k < |s.table| && Good(reply.driver)
    ensures NeverWaits(s, DeleteOne(s, i, k, reply))
  {
    if Present(s, i, k) {
      var p, c := if IsProd(i) then i else k, if IsProd(i) then k else i;
      DeleteNeverWaits(s, p, c, s.peers[i][k].userspace, reply);
    }
  }

  lemma {:induction false} DeleteFromNeverWaits(s: Rm, i: nat, k: nat, env: nat -> Reply)
    requires Structured(s) && Lookup(s, i) && k <= |s.table| && GoodEnv(env)
    ensures NeverWaits(s, DeleteFrom(s, i, k, env))
    decreases |s.table| - k
  {
    if k < |s.table| {
      DeleteOneStructured(s, i, k, env(k));
      DeleteOneNeverWaits(s, i, k, env(k));
      DeleteFromNeverWaits(DeleteOne(s, i, k, env(k)), i, k + 1, env);
    }
  }

  lemma HandleCbKeepsGranted(s: Rm, c: nat, ev: Event)
    requires Structured(s) && c < |s.table| && IsCons(c)
    ensures KeepsGranted(s, HandleCb(s, c, ev))
  {
    var t := if s.table[c].state == RequestInProgress then Perf(SetState(s, c, Granted), c)
             else SetState(s, c, Released);
    NotifyTouches(t, c, ev, 0);
    forall x | 0 <= x < |s.table| && IsCons(x) ensures !Present(s, c, x) {
    }
  }

  lemma ExecuteKeepsGranted(s: Rm, driver: int)
    requires Structured(s) && Good(driver)
    ensures KeepsGranted(s, FinishWork(s, driver))
  {
    if s.inflight.Some? {
      match s.inflight.value
      case Resume(c, _, _, _) => if c < |s.table| && IsCons(c) { HandleCbKeepsGranted(s, c, GrantedEvent); }
      case Suspend(c, _, _) => if c < |s.table| && IsCons(c) { HandleCbKeepsGranted(s, c, ReleasedEvent); }
      case ResourceCb(c, ev) => if c < |s.table| { HandleCbKeepsGranted(s, c, ev); }
      case _ =>
    }
  }

  lemma ProducerRequestKeepsGranted(s: Rm, p: nat, env: nat -> Reply)
    requires Structured(s) && p < |s.table| && IsProd(p) && s.table[p].live && GoodEnv(env)
    ensures KeepsGranted(s, ProducerRequest(s, p, env).s)
  {
    if s.table[p].state == Released {
      var t := Put(s, p, s.table[p].(state := RequestInProgress, pendingRequest := 0));
      StructuredFrame(s, t);
      RequestFromKeepsGranted(t, p, 0, 0, env);
    }
  }

  lemma ProducerReleaseNeverWaits(s: Rm, p: nat, env: nat -> Reply)
    requires Structured(s) && p < |s.table| && IsProd(p) && s.table[p].live && GoodEnv(env)
    ensures NeverWaits(s, ProducerRelease(s, p, env).s)
  {
    if s.table[p].state != Released {
      var t := Put(s, p, s.table[p].(state := ReleaseInProgress, pendingRelease := 0));
      ReleaseFromNeverWaits(t, p, 0, env);
    }
  }

  lemma DeleteResourceNeverWaits(s: Rm, i: nat, env: nat -> Reply)
    requires Structured(s) && Lookup(s, i) && GoodEnv(env)
    ensures NeverWaits(s, Delete(s, i, env).s)
  {
    var t := DeleteFrom(s, i, 0, env);
    DeleteFromNeverWaits(s, i, 0, env);
    DeleteFromStructured(s, i, 0, env);
    if IsProd(i) {
      ProducerReleaseNeverWaits(t, i, env);
    }
  }

  lemma AddKeepsGranted(s: Rm, p: nat, c: nat, userspace: bool, reply: Reply)
    requires Structured(s) && BothExist(s, p, c) && Good(reply.driver)
    ensures KeepsGranted(s, AddDependency(s, p, c, userspace, reply).s)
  {
    if CheckDependency(s, p, c).None? {
      if Active(s.table[p].state) {
        ActiveAddEffect(s, p, c, userspace, reply);
      } else {
        AddTouches(s, p, c, userspace, reply);
      }
    }
  }

  lemma TimersNeverWait(s: Rm, c: nat, reply: Reply)
    requires Wf(s) && Good(reply.driver)
    ensures KeepsGranted(s, TimerRequest(s, c, reply).s)
    ensures NeverWaits(s, DelayedRelease(s, c, reply))
  {
    if c < |s.table| {
      RequestEffect(s, c, 0, false, true, reply);
      if s.delayed[c] != 0 {
        ReleaseEffect(s.(delayed := s.delayed[c := s.delayed[c] - 1]), c, 0, false, reply);
      }
    }
  }

  /** In one step a granted consumer can be let go, but is never asked for anew. */
  lemma GrantedNeverWaits(s: Rm, op: Op, c: nat)
    requires Structured(s) && GoodOp(op) && c < |s.table| && IsCons(c) && s.table[c].state == Granted
    ensures Step(s, op).table[c].state != RequestInProgress
  {
    match op
    case OpDelete(i, env) => if Lookup(s, i) { DeleteResourceNeverWaits(s, i, env); }
    case OpAdd(p, x, u, reply) => if BothExist(s, p, x) { AddKeepsGranted(s, p, x, u, reply); }
    case OpDel(p, x, u, reply) => if BothExist(s, p, x) { DeleteNeverWaits(s, p, x, u, reply); }
    case OpRequest(p, env) => if IsProd(p) && Lookup(s, p) { ProducerRequestKeepsGranted(s, p, env); }
    case OpRelease(p, env) => if IsProd(p) && Lookup(s, p) { ProducerReleaseNeverWaits(s, p, env); }
    case OpTimerRequest(x, reply) => TimersNeverWait(s, x, reply);
    case OpDelayedRelease(x, reply) => TimersNeverWait(s, x, reply);
    case OpProfile(i, max) => if Lookup(s, i) && max != s.table[i].maxBw { ProfileTable(s, i, max); }
    case OpFinishWork(driver) => ExecuteKeepsGranted(s, driver);
    case _ =>
  }

  /** While p stays active and keeps its edge, no step of anybody takes c's grant away. */
  lemma GrantStable(s: Rm, op: Op, p: nat, c: nat)
    requires Sound(s, ANY) && GoodOp(op)
    requires p < |s.table| && c < |s.table| && IsProd(p) && IsCons(c)
    requires s.table[c].state == Granted
    requires var r := Step(s, op); Active(r.table[p].state) && Present(r, p, c)
    ensures Step(s, op).table[c].state == Granted
  {
    StepStructured(s, op);
    StepCharged(s, op);
    ActiveConsumers(Step(s, op), p);
    GrantedNeverWaits(s, op, c);
  }

  /** p is active and depends on c after each step of the run. */
  ghost predicate HoldsOn(s: Rm, ops: seq<Op>, p: nat, c: nat)
    requires Wf(s) && p < |s.table| && c < |s.table|
    decreases |ops|
  {
    |ops| > 0 ==>
      var r := Step(s, ops[0]);
      Active(r.table[p].state) && Present(r, p, c) && HoldsOn(r, ops[1..], p, c)
  }

  lemma {:induction false} GrantStableRun(s: Rm, ops: seq<Op>, p: nat, c: nat)
    requires Sound(s, ANY) && AllowedRun(s, ops, ANY)
    requires p < |s.table| && c < |s.table| && IsProd(p) && IsCons(c) && s.table[c].state == Granted
    requires HoldsOn(s, ops, p, c)
    ensures Run(s, ops).table[c].state == Granted
    decreases |ops|
  {
    if |ops| > 0 {
      GrantStable(s, ops[0], p, c);
      StepSound(s, ops[0], ANY);
      GrantStableRun(Step(s, ops[0]), ops[1..], p, c);
    }
  }

  // ----- draining the queue

  /** Items that are more than notifications. */
  function Commands(q: seq<Work>): nat
  {
    if |q| == 0 then 0
    else Commands(q[1..]) + if q[0].NotifyIpa? || q[0].NotifyProd? then 0 else 1
  }

  lemma {:induction false} NotesAddNoCommand(q: seq<Work>, r: seq<Work>)
    requires Notes(q, r)
    ensures Commands(r) == Commands(q)
    decreases |q| + |r|
  {
    if |r| > 0 {
      if |q| > 0 {
        assert r[0] == q[0];
        assert forall i :: |q[1..]| <= i < |r[1..]| ==> r[1..][i] == r[i + 1];
        NotesAddNoCommand(q[1..], r[1..]);
      } else {
        assert forall i :: 0 <= i < |r[1..]| ==> r[1..][i] == r[i + 1];
        NotesAddNoCommand([], r[1..]);
      }
    }
  }

  /** A handler queues notifications at most. */
  lemma HandlersOnlyNotify(s: Rm, w: Work, driver: int)
    requires Wf(s)
    ensures Notes(s.queue, Execute(s, w, driver).queue)
    ensures w.NotifyIpa? || w.NotifyProd? ==> Execute(s, w, driver).queue == s.queue
  {
  }

  predicate Drained(s: Rm)
  {
    s.inflight.None? && |s.queue| == 0
  }

  /** The thread's turn: take an item unless one is in hand, then execute it. */
  function Turn(s: Rm, driver: int): (r: Rm)
    requires Wf(s)
    ensures Wf(r) && r.inflight.None? && |r.table| == |s.table|
  {
    FinishWork(StartWork(s), driver)
  }

  lemma TurnShrinks(s: Rm, driver: int)
    requires Wf(s) && s.inflight.None? && |s.queue| > 0
    ensures var r := Turn(s, driver);
            Commands(r.queue) < Commands(s.queue) ||
            (Commands(r.queue) == Commands(s.queue) && |r.queue| < |s.queue|)
  {
    var t := StartWork(s);
    HandlersOnlyNotify(t, s.queue[0], driver);
    NotesAddNoCommand(t.queue, Execute(t, s.queue[0], driver).queue);
  }

  /** Runs the thread until the queue is empty; `answers` are the driver results in order. */
  function Drain(s: Rm, answers: nat -> int, i: nat): (r: Rm)
    requires Wf(s) && s.inflight.None?
    ensures Wf(r) && Drained(r) && |r.table| == |s.table|
    decreases Commands(s.queue), |s.queue|
  {
    if |s.queue| == 0 then s
    else
      TurnShrinks(s, answers(i));
      Drain(Turn(s, answers(i)), answers, i + 1)
  }

  ghost predicate TurnKeeps(inv: Rm -> bool, s: Rm, driver: int)
  {
    Wf(s) && s.inflight.None? && inv(s) ==> inv(Turn(s, driver))
  }

  /** The rule of draining: what every turn keeps holds at the end. */
  lemma {:induction false} DrainLoop(inv: Rm -> bool, s: Rm, answers: nat -> int, i: nat)
    requires Wf(s) && s.inflight.None? && inv(s)
    requires forall t: Rm, k: nat :: TurnKeeps(inv, t, answers(k))
    ensures inv(Drain(s, answers, i))
    decreases Commands(s.queue), |s.queue|
  {
    if |s.queue| > 0 {
      TurnShrinks(s, answers(i));
      assert TurnKeeps(inv, s, answers(i));
      DrainLoop(inv, Turn(s, answers(i)), answers, i + 1);
    }
  }

  lemma TurnSound(s: Rm, driver: int, care: Care)
    requires Sound(s, care) && Good(driver)
    ensures Sound(Turn(s, driver), care)
  {
    GoodIsWilling(s, OpStartWork);
    StepSound(s, OpStartWork, care);
    GoodIsWilling(StartWork(s), OpFinishWork(driver));
    StepSound(StartWork(s), OpFinishWork(driver), care);
  }

  lemma DrainSound(s: Rm, answers: nat -> int, i: nat, care: Care)
    requires Sound(s, care) && s.inflight.None? && forall k: nat :: Good(answers(k))
    ensures Sound(Drain(s, answers, i), care)
  {
    var inv := (t: Rm) => Sound(t, care);
    forall t: Rm, k: nat ensures TurnKeeps(inv, t, answers(k)) {
      if Wf(t) && t.inflight.None? && inv(t) {
        TurnSound(t, answers(k), care);
      }
    }
    DrainLoop(inv, s, answers, i);
  }

  lemma TurnClocks(s: Rm, driver: int, c: nat, care: Care)
    requires Sound(s, care) && care.noFailure && Good(driver) && c < |s.table| && IsCons(c)
    ensures Surplus(Turn(s, driver), c) == Surplus(s, c)
  {
    StepClocks(s, OpStartWork, c);
    StepSound(s, OpStartWork, care);
    StepClocks(StartWork(s), OpFinishWork(driver), c);
  }

  lemma DrainClocks(s: Rm, answers: nat -> int, i: nat, c: nat, care: Care)
    requires Sound(s, care) && care.noFailure && s.inflight.None? && c < |s.table| && IsCons(c)
    requires forall k: nat :: Good(answers(k))
    ensures Surplus(Drain(s, answers, i), c) == Surplus(s, c)
  {
    var v := Surplus(s, c);
    var inv := (t: Rm) => Sound(t, care) && c < |t.table| && Surplus(t, c) == v;
    forall t: Rm, k: nat ensures TurnKeeps(inv, t, answers(k)) {
      if Wf(t) && t.inflight.None? && inv(t) {
        TurnSound(t, answers(k), care);
        TurnClocks(t, answers(k), c, care);
      }
    }
    DrainLoop(inv, s, answers, i);
  }

  /** What the thread makes of s: it finishes the item in hand and empties the queue. */
  function Settle(s: Rm, answers: nat -> int): (r: Rm)
    requires Wf(s)
    ensures Wf(r) && Drained(r) && |r.table| == |s.table|
  {
    Drain(FinishWork(s, answers(0)), answers, 1)
  }

  lemma SettleSound(s: Rm, answers: nat -> int, care: Care)
    requires Sound(s, care) && forall k: nat :: Good(answers(k))
    ensures Sound(Settle(s, answers), care)
  {
    var t := FinishWork(s, answers(0));
    GoodIsWilling(s, OpFinishWork(answers(0)));
    StepSound(s, OpFinishWork(answers(0)), care);
    DrainSound(t, answers, 1, care);
  }

  lemma SettleClocks(s: Rm, answers: nat -> int, c: nat, care: Care)
    requires Sound(s, care) && care.noFailure && c < |s.table| && IsCons(c) && forall k: nat :: Good(answers(k))
    ensures Surplus(Settle(s, answers), c) == Surplus(s, c)
  {
    StepSound(s, OpFinishWork(answers(0)), care);
    StepClocks(s, OpFinishWork(answers(0)), c);
    DrainClocks(FinishWork(s, answers(0)), answers, 1, c, care);
  }

  // ----- the manager at rest

  /** No driver owes a grant of consumer i, or of a consumer that producer i depends on. */
  ghost predicate Answered(s: Rm, i: nat)
    requires Wf(s) && i < |s.table|
  {
    if IsCons(i) then !s.owed[i]
    else forall c :: 0 <= c < |s.table| && Present(s, i, c) ==> !s.owed[c]
  }

  /** Some active producer depends on c. */
  ghost predicate InUse(s: Rm, c: nat)
    requires Wf(s) && c < |s.table|
  {
    exists p :: 0 <= p < |s.table| && Present(s, p, c) && Active(s.table[p].state)
  }

  lemma ConsumerRests(s: Rm, c: nat, care: Care)
    requires Sound(s, care) && care.noFailure && Drained(s) && c < |s.table| && IsCons(c) && !s.owed[c]
    ensures s.table[c].state == Granted || s.table[c].state == Released
  {
    assert PromisedAt(s, c);
  }

  /** With an empty queue, what is answered rests granted or released. */
  lemma Resting(s: Rm, i: nat, care: Care)
    requires Sound(s, care) && care.noFailure && Drained(s) && i < |s.table| && Answered(s, i) && (IsCons(i) || care.noRash)
    ensures s.table[i].state == Granted || s.table[i].state == Released
  {
    if IsCons(i) {
      ConsumerRests(s, i, care);
    } else {
      assert GrantOk(s, i);
      if s.table[i].state == RequestInProgress {
        var c := SumPositive(Blocked(s, i));
        assert Present(s, i, c);
        ConsumerRests(s, c, care);
      }
    }
  }

  /** A consumer in use is active; an active one without a delayed release coming is in use. */
  lemma UsedOrTimed(s: Rm, c: nat, care: Care)
    requires Sound(s, care) && care.noFailure && c < |s.table| && IsCons(c)
    ensures InUse(s, c) ==> Active(s.table[c].state)
    ensures Active(s.table[c].state) && s.delayed[c] == 0 ==> InUse(s, c)
  {
    assert PromisedAt(s, c);
    if InUse(s, c) {
      var p :| 0 <= p < |s.table| && Present(s, p, c) && Active(s.table[p].state);
      ActiveConsumers(s, p);
    } else if s.table[c].usage > 0 {
      var p := UsedIsHeld(s, |s.table|, {}, c);
      assert Present(s, c, p);
      assert Present(s, p, c);
    }
  }

  /**
   * Quiescence. Once the thread has emptied the queue, every consumer whose driver
   * owes no grant is granted or released, and so is every producer none of whose
   * consumers is owed, unless a deletion was rash. From every reachable state, whatever
   * else the run has deleted and whatever delayed releases are still to come.
   */
  lemma SettledStates(n: nat, ops: seq<Op>, answers: nat -> int, care: Care, i: nat)
    requires AllowedRun(Init(n), ops, care) && care.noFailure && i < n && forall k: nat :: Good(answers(k))
    requires Answered(Settle(Run(Init(n), ops), answers), i) && (IsCons(i) || care.noRash)
    ensures var x := Settle(Run(Init(n), ops), answers).table[i]; x.state == Granted || x.state == Released
  {
    InitSound(n, care);
    RunSound(Init(n), ops, care);
    SettleSound(Run(Init(n), ops), answers, care);
    Resting(Settle(Run(Init(n), ops), answers), i, care);
  }

  /** No completion takes an active producer out of activity, or puts another into it. */
  lemma ExecuteKeepsActivity(s: Rm, w: Work, driver: int, p: nat)
    requires Structured(s) && p < |s.table| && IsProd(p) && Good(driver) && (w.ResourceCb? ==> IsCons(w.c))
    ensures Active(Execute(s, w, driver).table[p].state) == Active(s.table[p].state)
  {
    match w
    case Resume(c, _, _, _) => if c < |s.table| && IsCons(c) { HandleCbView(s, c, GrantedEvent); }
    case Suspend(c, _, _) => if c < |s.table| && IsCons(c) { HandleCbView(s, c, ReleasedEvent); }
    case ResourceCb(c, ev) => if c < |s.table| { HandleCbView(s, c, ev); }
    case _ =>
  }

  lemma FinishKeepsActivity(s: Rm, driver: int, p: nat)
    requires Structured(s) && p < |s.table| && IsProd(p) && Good(driver)
    ensures Active(FinishWork(s, driver).table[p].state) == Active(s.table[p].state)
  {
    if s.inflight.Some? {
      ExecuteKeepsActivity(s, s.inflight.value, driver, p);
    }
  }

  lemma TurnKeepsActivity(s: Rm, driver: int, p: nat)
    requires Structured(s) && p < |s.table| && IsProd(p) && Good(driver)
    ensures Structured(Turn(s, driver))
    ensures Active(Turn(s, driver).table[p].state) == Active(s.table[p].state)
  {
    StartStructured(s);
    FinishStructured(StartWork(s), driver);
    FinishKeepsActivity(StartWork(s), driver, p);
  }

  lemma DrainKeepsActivity(s: Rm, answers: nat -> int, i: nat, p: nat)
    requires Structured(s) && s.inflight.None? && p < |s.table| && IsProd(p) && forall k: nat :: Good(answers(k))
    ensures Active(Drain(s, answers, i).table[p].state) == Active(s.table[p].state)
  {
    var active := Active(s.table[p].state);
    var inv := (t: Rm) => Structured(t) && p < |t.table| && Active(t.table[p].state) == active;
    forall t: Rm, k: nat ensures TurnKeeps(inv, t, answers(k)) {
      if Wf(t) && t.inflight.None? && inv(t) {
        TurnKeepsActivity(t, answers(k), p);
      }
    }
    DrainLoop(inv, s, answers, i);
  }

  /** Progress: in a run that is not rash, exactly the active producers are granted once the thread
      has emptied the queue and no consumer of theirs is owed. */
  lemma ActiveIsGranted(n: nat, ops: seq<Op>, answers: nat -> int, care: Care, p: nat)
    requires AllowedRun(Init(n), ops, care) && care.noFailure && care.noRash
    requires p < n && IsProd(p) && forall k: nat :: Good(answers(k))
    requires Answered(Settle(Run(Init(n), ops), answers), p)
    ensures Settle(Run(Init(n), ops), answers).table[p].state == Granted <==>
              Active(Run(Init(n), ops).table[p].state)
  {
    var s := Run(Init(n), ops);
    SettledStates(n, ops, answers, care, p);
    InitSound(n, care);
    RunSound(Init(n), ops, care);
    FinishKeepsActivity(s, answers(0), p);
    FinishStructured(s, answers(0));
    DrainKeepsActivity(FinishWork(s, answers(0)), answers, 1, p);
  }

  /** In the same states a consumer for which no delayed release is to come either is granted
      exactly if an active producer depends on it. */
  lemma SettledUse(n: nat, ops: seq<Op>, answers: nat -> int, c: nat)
    requires AllowedRun(Init(n), ops, ANY) && c < n && IsCons(c) && forall k: nat :: Good(answers(k))
    requires var s := Settle(Run(Init(n), ops), answers); !s.owed[c] && s.delayed[c] == 0
    ensures var s := Settle(Run(Init(n), ops), answers); s.table[c].state == Granted <==> InUse(s, c)
  {
    SettledStates(n, ops, answers, ANY, c);
    InitSound(n, ANY);
    RunSound(Init(n), ops, ANY);
    SettleSound(Run(Init(n), ops), answers, ANY);
    UsedOrTimed(Settle(Run(Init(n), ops), answers), c, ANY);
  }

  /** One clock vote is held for each active consumer and none for another, but for those strayed. */
  lemma SettledClocks(n: nat, ops: seq<Op>, answers: nat -> int, c: nat)
    requires AllowedRun(Init(n), ops, ANY) && c < n && IsCons(c) && forall k: nat :: Good(answers(k))
    ensures var s := Settle(Run(Init(n), ops), answers);
            s.clk[c] == Unit(Active(s.table[c].state)) + Strayed(Init(n), ops, c)
  {
    InitSound(n, ANY);
    InitBooks(n);
    RunClocks(Init(n), ops, c, ANY);
    RunSound(Init(n), ops, ANY);
    SettleClocks(Run(Init(n), ops), answers, c, ANY);
    SettleSound(Run(Init(n), ops), answers, ANY);
  }

  /** Every vote is what the resource needs, or zero, and the IPA driver was told the aggregates.
      Without stale deletions this includes released consumers. */
  lemma SettledVotes(n: nat, ops: seq<Op>, answers: nat -> int, care: Care, i: nat)
    requires AllowedRun(Init(n), ops, care) && care.noFailure && i < n && forall k: nat :: Good(answers(k))
    requires var x := Settle(Run(Init(n), ops), answers).table[i];
             x.state == Granted || (x.state == Released && (IsProd(i) || care.noStale))
    ensures var s := Settle(Run(Init(n), ops), answers);
            && s.volt[i] == VoltVote(s.table[i]) && s.bw[i] == BwVote(s.table[i])
            && s.profile == (MaxOf(s.volt), Min(SideTotal(s.bw, 0), SideTotal(s.bw, 1)))
  {
    InitSound(n, care);
    RunSound(Init(n), ops, care);
    SettleSound(Run(Init(n), ops), answers, care);
    assert VoteOk(Settle(Run(Init(n), ops), answers), i, care.noStale);
  }

  /** What deleting a consumer makes of its clock votes in the end, if its name is not used again:
      one remains if only a timer held it, and one too few for each resume that was to come. */
  lemma DeletedClock(n: nat, ops: seq<Op>, c: nat, env: nat -> Reply, more: seq<Op>, answers: nat -> int)
    requires AllowedRun(Init(n), ops, ANY) && c < n && IsCons(c) && forall k: nat :: Good(answers(k))
    requires Lookup(Run(Init(n), ops), c) && GoodEnv(env)
    requires AllowedRun(Step(Run(Init(n), ops), OpDelete(c, env)), more, ANY)
    requires forall k :: 0 <= k < |more| ==> !Creates(more[k], c)
    ensures var s := Run(Init(n), ops);
            var r := Settle(Run(Step(s, OpDelete(c, env)), more), answers);
            r.clk[c] == Strayed(Init(n), ops, c)
                        + Unit(Unused(s, c)) - Resumes(s.queue, c) - Unit(Handling(s, c))
  {
    var s := Run(Init(n), ops);
    var t := Step(s, OpDelete(c, env));
    InitSound(n, ANY);
    InitBooks(n);
    RunSound(Init(n), ops, ANY);
    RunClocks(Init(n), ops, c, ANY);
    StepSound(s, OpDelete(c, env), ANY);
    StepClocks(s, OpDelete(c, env), c);
    DeletedStraysNoMore(t, more, c, ANY);
    RunClocks(t, more, c, ANY);
    RunSound(t, more, ANY);
    SettleClocks(Run(t, more), answers, c, ANY);
    SettleVacates(Run(t, more), answers, c);
  }

  lemma DrainVacates(s: Rm, answers: nat -> int, i: nat, c: nat)
    requires Wf(s) && s.inflight.None? && c < |s.table|
    ensures Drain(s, answers, i).table[c].live == s.table[c].live
  {
    var live := s.table[c].live;
    var inv := (t: Rm) => c < |t.table| && t.table[c].live == live;
    forall t: Rm, k: nat ensures TurnKeeps(inv, t, answers(k)) {
    }
    DrainLoop(inv, s, answers, i);
  }

  lemma SettleVacates(s: Rm, answers: nat -> int, c: nat)
    requires Wf(s) && c < |s.table|
    ensures Settle(s, answers).table[c].live == s.table[c].live
  {
    DrainVacates(FinishWork(s, answers(0)), answers, 1, c);
  }

  /** A driver that answers at once owes nothing afterwards. */
  lemma PromptDrain(s: Rm, answers: nat -> int, i: nat, c: nat)
    requires Wf(s) && s.inflight.None? && c < |s.table| && !s.owed[c] && forall k: nat :: answers(k) == 0
    ensures !Drain(s, answers, i).owed[c]
  {
    var inv := (t: Rm) => Wf(t) && c < |t.table| && !t.owed[c];
    forall t: Rm, k: nat ensures TurnKeeps(inv, t, answers(k)) {
      if Wf(t) && t.inflight.None? && inv(t) {
        PromptFinish(StartWork(t), c);
      }
    }
    DrainLoop(inv, s, answers, i);
  }

  lemma PromptFinish(s: Rm, c: nat)
    requires Wf(s) && c < |s.table| && !s.owed[c]
    ensures !FinishWork(s, 0).owed[c]
  {
  }

  /** With drivers that answer at once in the end, and no grant owed before, every consumer and,
      unless a deletion was rash, every producer comes to rest. */
  lemma PromptDriversRest(n: nat, ops: seq<Op>, answers: nat -> int, care: Care, i: nat)
    requires AllowedRun(Init(n), ops, care) && care.noFailure && i < n && forall k: nat :: answers(k) == 0
    requires forall c :: 0 <= c < n ==> !Run(Init(n), ops).owed[c]
    requires IsCons(i) || care.noRash
    ensures var x := Settle(Run(Init(n), ops), answers).table[i]; x.state == Granted || x.state == Released
  {
    var s := Run(Init(n), ops);
    forall c | 0 <= c < n ensures !Settle(s, answers).owed[c] {
      PromptFinish(s, c);
      PromptDrain(FinishWork(s, 0), answers, 1, c);
    }
    SettledStates(n, ops, answers, care, i);
  }

  // ----- the aggregates

  /** The voltage announced is the maximum of all voltage votes. */
  lemma {:induction false} MaxOfIsMax(vs: seq<nat>)
    ensures forall i :: 0 <= i < |vs| ==> vs[i] <= MaxOf(vs)
    ensures if |vs| == 0 then MaxOf(vs) == 0 else MaxOf(vs) in vs
  {
    if |vs| > 0 {
      var rest := vs[..|vs| - 1];
      MaxOfIsMax(rest);
      assert forall i :: 0 <= i < |rest| ==> vs[i] == rest[i];
      assert vs[|vs| - 1] in vs;
      if |rest| > 0 {
        var i :| 0 <= i < |rest| && rest[i] == MaxOf(rest);
        assert vs[i] in vs;
      }
    }
  }

  function Side(bw: seq<u32>, parity: int): seq<int>
  {
    seq(|bw|, i requires 0 <= i < |bw| => if i % 2 == parity then bw[i] as int else 0)
  }

  /** The bandwidth of one side is the sum of its votes, in 32 bits. */
  lemma {:induction false} SideTotalIsSum(bw: seq<u32>, parity: int)
    ensures SideTotal(bw, parity) == Wrap(Sum(Side(bw, parity)))
  {
    if |bw| > 0 {
      var n := |bw| - 1;
      SideTotalIsSum(bw[..n], parity);
      assert Side(bw, parity)[..n] == Side(bw[..n], parity);
      WrapAdd(Sum(Side(bw[..n], parity)), Side(bw, parity)[n]);
    }
  }
}
