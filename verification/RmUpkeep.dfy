/**
 * What creating and deleting resources, setting profiles, timers, completions
 * and the workqueue thread do, entry by entry.
 */
module RmUpkeep {
  import opened Basics
  import opened Totals
  import opened RmModel
  import opened RmStructure
  import opened RmCharges
  import opened RmOutcomes
  import opened RmEffects

  // ----- creation

  /** ipa_rm_create_resource: what it does and returns, in every case. */
  lemma CreateEffects(s: Rm, i: nat, floor: int)
    requires Structured(s)
    ensures var o := Create(s, i, floor);
            && o.s == Step(s, OpCreate(i, floor)) && o.s.queue == s.queue && Elsewhere(s, o.s)
            && if floor < 0 || floor >= 4 then o == Out(s, -EINVAL)
               else if i < |s.table| && s.table[i].live then o == Out(s, -EEXIST)
               else if i >= |s.table| then o == Out(s, -EPERM)
               else if i == 11 || i == 13 then o == Out(s, -EINVAL)
               else
                 && o.code == 0 && SameExcept(s, o.s, {i as int})
                 && At(o.s, i) == At(s, i).(record := Resource(true, s.nextPtr, floor, 0, 0, Released, 0, 0, 0))
                 && o.s.nextPtr == s.nextPtr + 1 && o.s.peers == s.peers && o.s.count == s.count
                 && forall j :: 0 <= j < |s.table| ==> s.peers[i][j] == NoPeer && s.peers[j][i] == NoPeer
  {
    var r := Create(s, i, floor).s;
    if r != s {
      forall j | 0 <= j < |s.table| ensures s.peers[i][j] == NoPeer && s.peers[j][i] == NoPeer {
        assert !Present(s, i, j) && !Present(s, j, i);
      }
      assert r.peers[i] == s.peers[i];
      assert s.count[i] == Sum(Slots(s, i));
      SumZeros(Slots(s, i));
    }
  }

  // ----- profiles

  /** The entry of a dependent peer after a maximum has changed by d. */
  function Shifted(e: Entry, d: int): Entry
  {
    var x := e.(record := e.record.(neededBw := Wrap(e.record.neededBw + d)));
    if e.record.state == Granted then Voting(x) else x
  }

  lemma ProfileOneEntry(s: Rm, k: nat, d: int)
    requires Wf(s) && k < |s.table| && s.table[k].live
    ensures var t := ProfileOne(s, k, d);
            && At(t, k) == Shifted(At(s, k), d) && SameExcept(s, t, {k as int}) && Elsewhere(s, t)
            && Items(t.queue) == Items(s.queue)
  {
    var x := s.table[k].(neededBw := Wrap(s.table[k].neededBw + d));
    RecordEntry(s, k, x);
    PerfEntry(Put(s, k, x), k);
  }

  ghost predicate ShiftedFrom(s: Rm, r: Rm, i: nat, d: int, k: nat)
    requires Wf(s) && Wf(r) && i < |s.table|
  {
    && |r.table| == |s.table| && Elsewhere(s, r) && Items(r.queue) == Items(s.queue)
    && PeersShifted(s, r, i, d, k)
  }

  ghost predicate PeersShifted(s: Rm, r: Rm, i: nat, d: int, k: nat)
    requires Wf(s) && Wf(r) && i < |s.table| == |r.table|
  {
    forall j :: 0 <= j < |s.table| ==>
      At(r, j) == if k <= j && s.peers[i][j].Peer? then Shifted(At(s, j), d) else At(s, j)
  }

  lemma ShiftTurn(s: Rm, t: Rm, r: Rm, i: nat, d: int, k: nat)
    requires Wf(s) && Wf(t) && Wf(r) && i < |s.table| == |t.table| && k < |s.table| && t.peers == s.peers
    requires Present(s, i, k) && At(t, k) == Shifted(At(s, k), d) && SameExcept(s, t, {k as int}) && Elsewhere(s, t)
    requires Items(t.queue) == Items(s.queue) && ShiftedFrom(t, r, i, d, k + 1)
    ensures ShiftedFrom(s, r, i, d, k)
  {
    forall j | 0 <= j < |s.table| && j != k ensures At(t, j) == At(s, j) {
    }
  }

  lemma {:induction false} ShiftLoop(s: Rm, i: nat, d: int, k: nat)
    requires Wf(s) && Symmetric(s) && i < |s.table| && k <= |s.table|
    ensures ShiftedFrom(s, ProfileFrom(s, i, d, k), i, d, k)
    decreases |s.table| - k
  {
    if k < |s.table| {
      if Present(s, i, k) {
        var t := ProfileOne(s, k, d);
        ProfileOneEntry(s, k, d);
        SymmetricFrame(s, t);
        ShiftLoop(t, i, d, k + 1);
        ShiftTurn(s, t, ProfileFrom(t, i, d, k + 1), i, d, k);
      } else {
        ShiftLoop(s, i, d, k + 1);
      }
    }
  }

  /** The entry of the resource itself. */
  function Profiled(e: Entry, max: u32): Entry
  {
    var x := e.(record := e.record.(maxBw := max));
    if e.record.state == Granted then Voting(x) else x
  }

  /** i has the new maximum, and the peers that depend on it, all of a consumer and those of an
      active producer, need the difference more. */
  ghost predicate Reprofiled(s: Rm, r: Rm, i: nat, max: u32)
    requires Wf(s) && Wf(r) && i < |s.table|
  {
    var x := s.table[i];
    var counts := i % 2 == 1 || x.state == Granted || x.state == RequestInProgress;
    && |r.table| == |s.table| && Elsewhere(s, r) && Items(r.queue) == Items(s.queue)
    && r.peers == s.peers && r.count == s.count && r.nextPtr == s.nextPtr
    && At(r, i) == Profiled(At(s, i), max)
    && forall j :: 0 <= j < |s.table| && j != i ==>
         At(r, j) == if counts && s.peers[i][j].Peer? then Shifted(At(s, j), max as int - x.maxBw as int)
                     else At(s, j)
  }

  /** The resource takes its new maximum and votes if it is granted. */
  function WithMax(t: Rm, i: nat, max: u32): (r: Rm)
    requires Wf(t) && i < |t.table|
    ensures Wf(r)
  {
    var u := Put(t, i, t.table[i].(maxBw := max));
    if u.table[i].state == Granted then Perf(u, i) else u
  }

  lemma MaxEntry(t: Rm, i: nat, max: u32)
    requires Wf(t) && i < |t.table| && t.table[i].live
    ensures var r := WithMax(t, i, max);
            && At(r, i) == Profiled(At(t, i), max) && SameExcept(t, r, {i as int}) && Elsewhere(t, r)
            && Items(r.queue) == Items(t.queue)
  {
    RecordEntry(t, i, t.table[i].(maxBw := max));
    PerfEntry(Put(t, i, t.table[i].(maxBw := max)), i);
  }

  lemma ShiftedReprofiles(s: Rm, t: Rm, r: Rm, i: nat, max: u32)
    requires Wf(s) && Wf(t) && SameGraph(s, t) && i < |s.table| && s.table[i].live && !Present(s, i, i)
    requires IsCons(i) || Active(s.table[i].state)
    requires ShiftedFrom(s, t, i, max as int - s.table[i].maxBw as int, 0) && r == WithMax(t, i, max)
    ensures Reprofiled(s, r, i, max)
  {
    assert At(t, i) == At(s, i) && At(t, i).record == t.table[i];
    MaxEntry(t, i, max);
  }

  lemma IdleReprofiles(s: Rm, r: Rm, i: nat, max: u32)
    requires Wf(s) && i < |s.table| && s.table[i].live && !IsCons(i) && !Active(s.table[i].state)
    requires r == WithMax(s, i, max)
    ensures Reprofiled(s, r, i, max)
  {
    MaxEntry(s, i, max);
  }

  lemma SetProfileIs(s: Rm, i: nat, max: u32)
    requires Wf(s) && i < |s.table| && max != s.table[i].maxBw
    ensures SetProfile(s, i, max) ==
              WithMax(if IsCons(i) || Active(s.table[i].state) then ProfileFrom(s, i, max - s.table[i].maxBw, 0)
                      else s, i, max)
  {
  }

  lemma ProfileEntry(s: Rm, r: Rm, i: nat, max: u32)
    requires Wf(s) && Symmetric(s) && i < |s.table| && s.table[i].live && max != s.table[i].maxBw
    requires r == SetProfile(s, i, max)
    ensures Reprofiled(s, r, i, max)
  {
    SetProfileIs(s, i, max);
    if IsCons(i) || Active(s.table[i].state) {
      assert !Present(s, i, i);
      ShiftLoop(s, i, max - s.table[i].maxBw, 0);
      ShiftedReprofiles(s, ProfileFrom(s, i, max - s.table[i].maxBw, 0), r, i, max);
    } else {
      IdleReprofiles(s, r, i, max);
    }
  }

  /** ipa_rm_set_perf_profile: what it does and returns, in every case. */
  lemma ProfileEffects(s: Rm, i: nat, max: u32)
    requires Structured(s)
    ensures var o := ApiProfile(s, i, max);
            && o.s == Step(s, OpProfile(i, max))
            && if !(i < |s.table| && s.table[i].live) then o == Out(s, -EPERM)
               else if max == s.table[i].maxBw then o == Out(s, 0)
               else o.code == 0 && Reprofiled(s, o.s, i, max)
  {
    if i < |s.table| && s.table[i].live && max != s.table[i].maxBw {
      ProfileEntry(s, SetProfile(s, i, max), i, max);
    }
  }

  // ----- timers

  /** The entry of a consumer after a request with a timer. */
  function Timed(e: Entry, reply: Reply): Entry
  {
    var called := e.record.state == Released && reply.noBlock;
    var asked := called || e.record.state == Granted;
    var x := if called then e.(clk := e.clk + 1) else e;
    var y :=
      if asked && reply.driver == 0 then Voting(x.(record := x.record.(state := Granted)))
      else if asked && reply.driver == -EINPROGRESS then
        x.(owed := true, record := x.record.(state := if called then RequestInProgress else Granted))
      else if asked then x
      else x.(record := x.record.(state := RequestInProgress));
    if asked && reply.driver != 0 && reply.driver != -EINPROGRESS then y else y.(delayed := y.delayed + 1)
  }

  /** ipa_rm_request_resource_with_timer: what it does and returns, in every case. */
  lemma TimerRequestEffects(s: Rm, c: nat, reply: Reply)
    requires Structured(s)
    ensures var o := TimerRequest(s, c, reply);
            && o.s == Step(s, OpTimerRequest(c, reply)) && SameGraph(s, o.s)
            && if c >= |s.table| || c % 2 != 1 then o == Out(s, -EINVAL)
               else if !s.table[c].live then o == Out(s, -EPERM)
               else
                 var st := s.table[c].state;
                 var asked := st == Granted || (st == Released && reply.noBlock);
                 && SameExcept(s, o.s, {c as int}) && Elsewhere(s, o.s)
                 && At(o.s, c) == Timed(At(s, c), reply)
                 && o.code == (if asked && !Good(reply.driver) then -EPERM else 0)
                 && Items(o.s.queue) == Items(s.queue) + AskItems(s.table[c], c, 0, false, reply)
  {
    if c < |s.table| && c % 2 == 1 && s.table[c].live {
      AskedItems(s, c, 0, false, true, reply);
      TimedEntry(s, c, reply);
    }
  }

  lemma TimedEntry(s: Rm, c: nat, reply: Reply)
    requires Wf(s) && c < |s.table| && IsCons(c) && Lookup(s, c)
    ensures var o := TimerRequest(s, c, reply);
            && SameExcept(s, o.s, {c as int}) && Elsewhere(s, o.s) && At(o.s, c) == Timed(At(s, c), reply)
  {
    TimedRequestEffect(s, c, reply);
  }

  /** A release that a timer has scheduled is due: if c is a live consumer, the timer lets go of it. */
  ghost predicate LetsGo(s: Rm, r: Rm, c: nat, reply: Reply)
    requires Wf(s) && Wf(r) && c < |s.table| && s.delayed[c] != 0
  {
    var e := At(s, c).(delayed := s.delayed[c] - 1);
    var lets := c % 2 == 1 && s.table[c].live;
    && SameExcept(s, r, {c as int}) && Elsewhere(s, r)
    && At(r, c) == (if lets then Dropped(e, 0, false, reply) else e)
    && Items(r.queue) == Items(s.queue) + if lets then DropItems(s.table[c], c, 0, false, reply) else []
  }

  lemma DelayedDrop(s: Rm, t: Rm, r: Rm, c: nat, reply: Reply)
    requires Wf(s) && c < |s.table| && IsCons(c) && s.table[c].live && s.delayed[c] != 0
    requires t == s.(delayed := s.delayed[c := s.delayed[c] - 1]) && r == ConsumerRelease(t, c, 0, false, reply).s
    ensures LetsGo(s, r, c, reply)
  {
    DropEntry(t, c, 0, false, reply);
    DropQueue(t, c, 0, false, reply);
    assert At(t, c) == At(s, c).(delayed := s.delayed[c] - 1);
  }

  lemma DelayedNothing(s: Rm, t: Rm, c: nat, reply: Reply)
    requires Wf(s) && c < |s.table| && !(IsCons(c) && s.table[c].live) && s.delayed[c] != 0
    requires t == s.(delayed := s.delayed[c := s.delayed[c] - 1])
    ensures Wf(t) && LetsGo(s, t, c, reply)
  {
  }

  /** delayed_release_work_func: what it does in every case. */
  lemma DelayedReleaseEffects(s: Rm, c: nat, reply: Reply)
    requires Structured(s)
    ensures var r := DelayedRelease(s, c, reply);
            && r == Step(s, OpDelayedRelease(c, reply)) && SameGraph(s, r)
            && if c >= |s.table| || s.delayed[c] == 0 then r == s else LetsGo(s, r, c, reply)
  {
    if c < |s.table| && s.delayed[c] != 0 {
      var t := s.(delayed := s.delayed[c := s.delayed[c] - 1]);
      if IsCons(c) && s.table[c].live {
        DelayedDrop(s, t, DelayedRelease(s, c, reply), c, reply);
      } else {
        DelayedNothing(s, t, c, reply);
      }
    }
  }

  // ----- completions and the thread

  /** ipa_rm_notify_completion: what it does and returns, in every case. */
  lemma CompleteEffects(s: Rm, c: nat, ev: Event)
    requires Wf(s)
    ensures var o := Complete(s, c, ev);
            && o.s == Step(s, OpComplete(c, ev)) && SameGraph(s, o.s)
            && if c >= |s.table| || c % 2 != 1 then o == Out(s, -EINVAL)
               else
                 && o.code == 0 && SameExcept(s, o.s, {c as int}) && Elsewhere(s, o.s)
                 && At(o.s, c) == At(s, c).(owed := s.owed[c] && ev == ReleasedEvent)
                 && o.s.queue == s.queue + [ResourceCb(c, ev)]
  {
  }

  /** The thread takes the oldest item; before locking it takes or drops the clock vote of a consumer. */
  lemma StartEffects(s: Rm)
    requires Wf(s)
    ensures var r := Step(s, OpStartWork);
            && SameGraph(s, r) && r.profile == s.profile
            && if s.inflight.Some? || |s.queue| == 0 then r == s
               else
                 var w := s.queue[0];
                 && r.inflight == Some(w) && s.queue == [w] + r.queue
                 && forall i :: 0 <= i < |s.table| ==> At(r, i) == At(s, i).(clk :=
                      if w.Resume? && w.c == i && i % 2 == 1 then s.clk[i] + 1
                      else if w.Suspend? && w.c == i && i % 2 == 1 then s.clk[i] - 1 else s.clk[i])
  {
  }

  /** The entry of a producer after it has been told of an event of a consumer. */
  function Informed(e: Entry, ev: Event): Entry
  {
    if e.record.state != RequestInProgress || ev != GrantedEvent || e.record.pendingRequest <= 0 then e
    else if e.record.pendingRequest == 1 then Voting(e.(record := e.record.(state := Granted, pendingRequest := 0)))
    else e.(record := e.record.(pendingRequest := e.record.pendingRequest - 1))
  }

  lemma InformOneEntry(s: Rm, p: nat, ev: Event)
    requires Wf(s) && p < |s.table| && s.table[p].live && s.table[p].state != ReleaseInProgress
    ensures var t := ProducerHandleCb(s, p, ev);
            && At(t, p) == Informed(At(s, p), ev) && SameExcept(s, t, {p as int}) && Elsewhere(s, t)
            && Items(t.queue) == Items(s.queue)
  {
    var x := Informed(At(s, p), ev).record;
    RecordEntry(s, p, x);
    PerfEntry(Put(s, p, x), p);
  }

  ghost predicate InformedFrom(s: Rm, r: Rm, c: nat, ev: Event, k: nat)
    requires Wf(s) && Wf(r) && c < |s.table|
  {
    && |r.table| == |s.table| && Elsewhere(s, r) && Items(r.queue) == Items(s.queue)
    && PeersInformed(s, r, c, ev, k)
  }

  ghost predicate PeersInformed(s: Rm, r: Rm, c: nat, ev: Event, k: nat)
    requires Wf(s) && Wf(r) && c < |s.table| == |r.table|
  {
    forall j :: 0 <= j < |s.table| ==>
      At(r, j) == if k <= j && s.peers[c][j].Peer? then Informed(At(s, j), ev) else At(s, j)
  }

  lemma InformTurn(s: Rm, t: Rm, r: Rm, c: nat, ev: Event, k: nat)
    requires Wf(s) && Wf(t) && Wf(r) && c < |s.table| == |t.table| && k < |s.table| && t.peers == s.peers
    requires Present(s, c, k) && At(t, k) == Informed(At(s, k), ev) && SameExcept(s, t, {k as int}) && Elsewhere(s, t)
    requires Items(t.queue) == Items(s.queue) && InformedFrom(t, r, c, ev, k + 1)
    ensures InformedFrom(s, r, c, ev, k)
  {
    forall j | 0 <= j < |s.table| && j != k ensures At(t, j) == At(s, j) {
    }
  }

  lemma InformOne(s: Rm, c: nat, k: nat, ev: Event)
    requires Wf(s) && Symmetric(s) && Settled(s) && c < |s.table| && IsCons(c) && k < |s.table| && Present(s, c, k)
    ensures var t := ProducerHandleCb(s, k, ev);
            && Symmetric(t) && Settled(t) && Items(t.queue) == Items(s.queue)
            && At(t, k) == Informed(At(s, k), ev) && SameExcept(s, t, {k as int}) && Elsewhere(s, t)
  {
    InformOneEntry(s, k, ev);
    SymmetricFrame(s, ProducerHandleCb(s, k, ev));
  }

  lemma {:induction false} InformLoop(s: Rm, c: nat, ev: Event, k: nat)
    requires Wf(s) && Symmetric(s) && Settled(s) && c < |s.table| && IsCons(c) && k <= |s.table|
    ensures InformedFrom(s, NotifyFrom(s, c, ev, k), c, ev, k)
    decreases |s.table| - k
  {
    if k < |s.table| {
      if Present(s, c, k) {
        var t := ProducerHandleCb(s, k, ev);
        InformOne(s, c, k, ev);
        InformLoop(t, c, ev, k + 1);
        InformTurn(s, t, NotifyFrom(t, c, ev, k + 1), c, ev, k);
      } else {
        InformLoop(s, c, ev, k + 1);
        InformSkip(s, NotifyFrom(s, c, ev, k + 1), c, ev, k);
      }
    } else {
      InformNone(s, c, ev);
    }
  }

  lemma InformSkip(s: Rm, r: Rm, c: nat, ev: Event, k: nat)
    requires Wf(s) && Wf(r) && c < |s.table| && k < |s.table| && !Present(s, c, k)
    requires InformedFrom(s, r, c, ev, k + 1)
    ensures InformedFrom(s, r, c, ev, k)
  {
  }

  lemma InformNone(s: Rm, c: nat, ev: Event)
    requires Wf(s) && c < |s.table|
    ensures InformedFrom(s, s, c, ev, |s.table|)
  {
  }

  /** A completion of c: a grant of a waiting consumer is passed on to the producers that depend on
      it, a release of a releasing one ends its release, and anything else changes nothing. */
  ghost predicate Completed(s: Rm, r: Rm, c: nat, ev: Event)
    requires Wf(s) && Wf(r) && c < |s.table|
  {
    var st := s.table[c].state;
    && Elsewhere(s, r) && Items(r.queue) == Items(s.queue)
    && if st == RequestInProgress && ev == GrantedEvent then
         && |r.table| == |s.table|
         && At(r, c) == Voting(At(s, c).(record := s.table[c].(state := Granted)))
         && forall j :: 0 <= j < |s.table| && j != c ==>
              At(r, j) == if s.peers[c][j].Peer? then Informed(At(s, j), ev) else At(s, j)
       else if st == ReleaseInProgress && ev == ReleasedEvent then
         && SameExcept(s, r, {c as int}) && At(r, c) == At(s, c).(record := s.table[c].(state := Released))
       else SameExcept(s, r, {})
  }

  lemma CompletedEntry(s: Rm, c: nat, ev: Event)
    requires Structured(s) && c < |s.table| && IsCons(c) && s.table[c].live
    ensures Completed(s, HandleCb(s, c, ev), c, ev)
  {
    assert !Present(s, c, c);
    if s.table[c].state == RequestInProgress && ev == GrantedEvent {
      GrantCompletes(s, c);
    } else if s.table[c].state == ReleaseInProgress && ev == ReleasedEvent {
      var t := SetState(s, c, Released);
      RecordEntry(s, c, s.table[c].(state := Released));
      SymmetricFrame(s, t);
      InformLoop(t, c, ev, 0);
    }
  }

  lemma GrantCompletes(s: Rm, c: nat)
    requires Structured(s) && c < |s.table| && IsCons(c) && s.table[c].live && s.table[c].state == RequestInProgress
    ensures Completed(s, HandleCb(s, c, GrantedEvent), c, GrantedEvent)
  {
    var t := SetState(s, c, Granted);
    var u := Perf(t, c);
    assert !Present(s, c, c);
    RecordEntry(s, c, s.table[c].(state := Granted));
    PerfEntry(t, c);
    SymmetricFrame(s, u);
    InformLoop(u, c, GrantedEvent, 0);
    assert At(u, c) == Voting(At(s, c).(record := s.table[c].(state := Granted)));
    forall j | 0 <= j < |s.table| && j != c ensures At(u, j) == At(s, j) {
    }
  }

  /** A failing handler puts the remembered state back and takes back what the item had charged. */
  function Undone(e: Entry, prev: State, bw: u32, inc: bool): Entry
  {
    e.(record := e.record.(state := prev, neededBw := Wrap(e.record.neededBw - bw as int),
                           usage := if inc then e.record.usage - 1 else e.record.usage))
  }

  /** The handler of a resume. */
  ghost predicate Resumed(s: Rm, r: Rm, c: nat, prev: State, bw: u32, inc: bool, driver: int)
    requires Wf(s) && Wf(r)
  {
    if c >= |s.table| || c % 2 != 1 then r == s
    else if !s.table[c].live then
      && SameExcept(s, r, {c as int}) && r.queue == s.queue && Elsewhere(s, r)
      && At(r, c) == At(s, c).(clk := s.clk[c] - 1)
    else if driver == 0 then Completed(s, r, c, GrantedEvent)
    else
      && SameExcept(s, r, {c as int}) && r.queue == s.queue && Elsewhere(s, r)
      && At(r, c) == if driver == -EINPROGRESS then At(s, c).(owed := true) else Undone(At(s, c), prev, bw, inc)
  }

  /** The handler of a suspend: unless the driver fails, what was releasing is released, and c votes. */
  ghost predicate Suspended(s: Rm, r: Rm, c: nat, prev: State, driver: int)
    requires Wf(s) && Wf(r)
  {
    if c >= |s.table| || c % 2 != 1 || !s.table[c].live then r == s
    else
      && SameExcept(s, r, {c as int}) && Elsewhere(s, r) && Items(r.queue) == Items(s.queue)
      && var x := s.table[c];
         At(r, c) ==
           if driver != 0 && driver != -EINPROGRESS then At(s, c).(record := x.(state := prev))
           else Voting(At(s, c).(record := x.(state := if x.state == ReleaseInProgress then Released else x.state)))
  }

  lemma SuspendedEntry(s: Rm, c: nat, prev: State, bw: u32, driver: int)
    requires Structured(s)
    ensures Suspended(s, Execute(s, Suspend(c, prev, bw), driver), c, prev, driver)
  {
    if c < |s.table| && IsCons(c) && s.table[c].live {
      var x := s.table[c];
      if Good(driver) {
        var t := HandleCb(s, c, ReleasedEvent);
        CompletedEntry(s, c, ReleasedEvent);
        assert At(t, c).record == t.table[c];
        PerfEntry(t, c);
      } else {
        RecordEntry(s, c, x.(state := prev));
      }
    }
  }

  lemma ResumedEntry(s: Rm, c: nat, prev: State, bw: u32, inc: bool, driver: int)
    requires Structured(s)
    ensures Resumed(s, Execute(s, Resume(c, prev, bw, inc), driver), c, prev, bw, inc, driver)
  {
    if c < |s.table| && IsCons(c) && s.table[c].live && driver == 0 {
      CompletedEntry(s, c, GrantedEvent);
    }
  }

  /** What the handler of an item does. */
  ghost predicate Handled(s: Rm, r: Rm, w: Work, driver: int)
    requires Wf(s) && Wf(r)
  {
    match w
    case Resume(c, prev, bw, inc) => Resumed(s, r, c, prev, bw, inc, driver)
    case Suspend(c, prev, _) => Suspended(s, r, c, prev, driver)
    case ResourceCb(c, ev) => if c < |s.table| && s.table[c].live then Completed(s, r, c, ev) else r == s
    case NotifyProd(_, _, _) => r == s
    case NotifyIpa(v, b) => r == s.(profile := (v, b))
  }

  /** The thread handles the item in hand and lets go of it. */
  lemma FinishEffects(s: Rm, driver: int)
    requires Structured(s)
    ensures var r := Step(s, OpFinishWork(driver));
            && SameGraph(s, r)
            && if s.inflight.None? then r == s
               else r.inflight.None? && Handled(s, r.(inflight := s.inflight), s.inflight.value, driver)
  {
    if s.inflight.Some? {
      var t := Execute(s, s.inflight.value, driver);
      assert t == Step(s, OpFinishWork(driver)).(inflight := s.inflight);
      match s.inflight.value
      case Resume(c, prev, bw, inc) => ResumedEntry(s, c, prev, bw, inc, driver);
      case Suspend(c, prev, bw) => SuspendedEntry(s, c, prev, bw, driver);
      case ResourceCb(c, ev) => if c < |s.table| && s.table[c].live { CompletedEntry(s, c, ev); }
      case _ =>
    }
  }
}
