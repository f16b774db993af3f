/**
 * Four books the resource manager keeps beside the graph: the vote table and
 * what the IPA driver is told of it, the clock votes held through the
 * workqueue, and the promises that keep a consumer from resting halfway.
 */
module RmLedger {
  import opened Basics
  import opened Totals
  import opened RmModel
  import opened RmStructure
  import opened RmCharges

  // ----- what the IPA driver is told

  /** The last pair sent to the IPA driver among the items of q, or base if there is none. */
  function LastIn(q: seq<Work>, base: (nat, u32)): (nat, u32)
  {
    if |q| == 0 then base
    else if q[|q| - 1].NotifyIpa? then (q[|q| - 1].volt, q[|q| - 1].bandwidth)
    else LastIn(q[..|q| - 1], base)
  }

  /** What the IPA driver will have been told once the queue is empty. */
  function LastSent(s: Rm): (nat, u32)
  {
    LastIn(s.queue,
           if s.inflight.Some? && s.inflight.value.NotifyIpa?
           then (s.inflight.value.volt, s.inflight.value.bandwidth) else s.profile)
  }

  /** The aggregates are current and the IPA driver will be told them, or already was. */
  ghost predicate Announced(s: Rm)
  {
    && s.currVolt == MaxOf(s.volt)
    && s.currBw == Min(SideTotal(s.bw, 0), SideTotal(s.bw, 1))
    && LastSent(s) == (s.currVolt, s.currBw)
  }

  // ----- the vote table

  predicate Suspending(s: Rm, c: int)
  {
    || (s.inflight.Some? && s.inflight.value.Suspend? && s.inflight.value.c == c)
    || exists k :: 0 <= k < |s.queue| && s.queue[k].Suspend? && s.queue[k].c == c
  }

  predicate Resuming(s: Rm, c: int)
  {
    || (s.inflight.Some? && s.inflight.value.Resume? && s.inflight.value.c == c)
    || exists k :: 0 <= k < |s.queue| && s.queue[k].Resume? && s.queue[k].c == c
  }

  predicate Completing(s: Rm, c: int)
  {
    || (s.inflight.Some? && s.inflight.value.ResourceCb? && s.inflight.value.c == c
        && s.inflight.value.event == GrantedEvent)
    || exists k :: 0 <= k < |s.queue| && s.queue[k].ResourceCb? && s.queue[k].c == c
         && s.queue[k].event == GrantedEvent
  }

  /** A granted resource votes what it needs. A released producer votes nothing; nor, when
      strict, does a released consumer, unless a suspend for it is still to run. */
  ghost predicate VoteOk(s: Rm, i: nat, strict: bool)
    requires Wf(s) && i < |s.table|
  {
    && (s.table[i].state == Granted ==>
          s.volt[i] == s.table[i].floor && s.bw[i] == Min(s.table[i].maxBw, s.table[i].neededBw))
    && (s.table[i].state == Released && (IsProd(i) || strict) ==>
          (s.volt[i] == 0 && s.bw[i] == 0) || (IsCons(i) && s.table[i].live && Suspending(s, i)))
  }

  ghost predicate Coherent(s: Rm, strict: bool)
    requires Wf(s)
  {
    forall i :: 0 <= i < |s.table| ==> VoteOk(s, i, strict)
  }

  // ----- clock votes

  function Resumes(q: seq<Work>, c: int): nat
  {
    if |q| == 0 then 0
    else Resumes(q[..|q| - 1], c) + if q[|q| - 1].Resume? && q[|q| - 1].c == c then 1 else 0
  }

  function Suspends(q: seq<Work>, c: int): nat
  {
    if |q| == 0 then 0
    else Suspends(q[..|q| - 1], c) + if q[|q| - 1].Suspend? && q[|q| - 1].c == c then 1 else 0
  }

  /** The thread is executing a resume of c. */
  predicate Handling(s: Rm, c: int)
  {
    s.inflight.Some? && s.inflight.value.Resume? && s.inflight.value.c == c
  }

  /** The clock votes of c that nothing accounts for. Once the queue is executed a live consumer
      should hold one vote if it is active; a deleted one, none. A resume that finds no resource
      gives its vote back, so what is still to be resumed for a deleted consumer adds nothing. */
  function Surplus(s: Rm, c: nat): int
    requires Wf(s) && c < |s.table|
  {
    if s.table[c].live then
      s.clk[c] + Resumes(s.queue, c) - Suspends(s.queue, c) - Unit(Active(s.table[c].state))
    else s.clk[c] - Suspends(s.queue, c) - Unit(Handling(s, c))
  }

  // ----- promises

  /** c is active without a producer using it: a timer holds it. */
  predicate Unused(s: Rm, c: nat)
    requires c < |s.table|
  {
    Active(s.table[c].state) && s.table[c].usage == 0
  }

  /** A consumer halfway has something coming that moves it on; an unused active one
      has a delayed release coming. */
  ghost predicate PromisedAt(s: Rm, c: nat)
    requires Wf(s) && c < |s.table|
  {
    && (s.table[c].state == ReleaseInProgress ==> Suspending(s, c))
    && (s.table[c].state == RequestInProgress ==> Resuming(s, c) || Completing(s, c) || s.owed[c])
    && s.table[c].usage >= 0
    && (Unused(s, c) ==> s.delayed[c] > 0)
  }

  ghost predicate Promised(s: Rm)
    requires Wf(s)
  {
    forall c :: 0 <= c < |s.table| && IsCons(c) ==> PromisedAt(s, c)
  }

  // ----- what an operation keeps of the books

  /** No resource has the name c, and no resume for one is left over. */
  ghost predicate Vacant(s: Rm, c: nat)
    requires Wf(s) && c < |s.table|
  {
    !s.table[c].live && Resumes(s.queue, c) == 0 && !Handling(s, c)
  }

  /** `Clocks(c, v)` says that the surplus of consumer c is v, `Vacancy(c)` that its name is vacant. */
  datatype Book = Announcements | Votes | Clocks(c: nat, surplus: int) | Vacancy(c: nat)

  ghost predicate InOrder(book: Book, s: Rm, strict: bool)
    requires Wf(s)
  {
    match book
    case Announcements => Announced(s)
    case Votes => Coherent(s, strict) && Promised(s)
    case Clocks(c, v) => c < |s.table| && IsCons(c) && Surplus(s, c) == v
    case Vacancy(c) => c < |s.table| && IsCons(c) && Vacant(s, c)
  }

  /** The announcements stay in order always; the other books if no driver failed. */
  ghost predicate Keeps(s: Rm, r: Rm, strict: bool, good: bool)
    requires Wf(s) && Wf(r)
  {
    forall book :: InOrder(book, s, strict) && (good || book == Announcements) ==> InOrder(book, r, strict)
  }

  lemma Kept(s: Rm, r: Rm, strict: bool, good: bool)
    requires Wf(s) && Wf(r) && Keeps(s, r, strict, good)
    ensures Announced(s) ==> Announced(r)
    ensures good && Coherent(s, strict) && Promised(s) ==> Coherent(r, strict) && Promised(r)
  {
    assert InOrder(Announcements, s, strict) ==> InOrder(Announcements, r, strict);
    assert good && InOrder(Votes, s, strict) ==> InOrder(Votes, r, strict);
  }

  lemma KeptClock(s: Rm, r: Rm, strict: bool, c: nat)
    requires Wf(s) && Wf(r) && Keeps(s, r, strict, true) && c < |s.table| && IsCons(c)
    ensures c < |r.table| && Surplus(r, c) == Surplus(s, c) && (Vacant(s, c) ==> Vacant(r, c))
  {
    assert Vacant(s, c) ==> InOrder(Vacancy(c), s, strict);
    assert InOrder(Clocks(c, Surplus(s, c)), s, strict);
  }

  lemma PerfAnnounced(s: Rm, i: nat)
    requires Wf(s) && i < |s.table| && Announced(s)
    ensures Announced(Perf(s, i))
  {
    var r := Perf(s, i);
    if r.queue != s.queue {
      assert r.queue[..|s.queue|] == s.queue;
    }
  }

  /** A queue that grows by items that are no notification of the IPA driver. */
  lemma EnqueueBooks(s: Rm, w: Work)
    ensures var r := Enqueue(s, w);
            && (!w.NotifyIpa? ==> LastSent(r) == LastSent(s))
            && (forall c :: Resumes(r.queue, c) == Resumes(s.queue, c) + Unit(w.Resume? && w.c == c))
            && (forall c :: Suspends(r.queue, c) == Suspends(s.queue, c) + Unit(w.Suspend? && w.c == c))
  {
    assert Enqueue(s, w).queue[..|s.queue|] == s.queue;
  }

  lemma {:induction false} NotesCount(q: seq<Work>, r: seq<Work>, c: int)
    requires Notes(q, r)
    ensures Resumes(r, c) == Resumes(q, c) && Suspends(r, c) == Suspends(q, c)
    decreases |r|
  {
    if |r| > |q| {
      assert r[|r| - 1].NotifyIpa? || r[|r| - 1].NotifyProd?;
      NotesCount(q, r[..|r| - 1], c);
    } else {
      assert r == q;
    }
  }

  /** What is on its way stays on its way while the queue only grows. */
  lemma PendingStays(s: Rm, r: Rm, c: int)
    requires r.inflight == s.inflight && s.queue <= r.queue
    ensures Suspending(s, c) ==> Suspending(r, c)
    ensures Resuming(s, c) ==> Resuming(r, c)
    ensures Completing(s, c) ==> Completing(r, c)
  {
    assert forall k :: 0 <= k < |s.queue| ==> r.queue[k] == s.queue[k];
  }

  /** A vote change after any edit of the record of a live resource i. */
  lemma VotedKeeps(s: Rm, t: Rm, i: nat, strict: bool)
    requires Wf(s) && Wf(t) && |t.table| == |s.table| && i < |s.table| && t.table[i].live
    requires t == s.(table := t.table, peers := t.peers, count := t.count)
    requires forall j :: 0 <= j < |s.table| && j != i ==> t.table[j] == s.table[j]
    requires IsProd(i) || (PromisedAt(s, i) ==> PromisedAt(t, i))
    requires IsCons(i) ==> s.table[i].live && Active(t.table[i].state) == Active(s.table[i].state)
    ensures Keeps(s, Perf(t, i), strict, true)
  {
    var r := Perf(t, i);
    if Announced(s) {
      assert Announced(t);
      PerfAnnounced(t, i);
    }
    forall j | 0 <= j < |s.table| ensures VoteOk(s, j, strict) ==> VoteOk(r, j, strict) {
      PendingStays(s, r, j);
    }
    forall c | 0 <= c < |s.table| && IsCons(c)
      ensures Surplus(r, c) == Surplus(s, c)
      ensures PromisedAt(s, c) ==> PromisedAt(r, c)
    {
      NotesCount(t.queue, r.queue, c);
      PendingStays(s, r, c);
      PendingStays(t, r, c);
    }
  }

  /** An edit of a producer's record, or of lists, that touches no vote. */
  lemma EditKeeps(s: Rm, r: Rm, p: nat, strict: bool)
    requires Wf(s) && Wf(r) && |r.table| == |s.table| && p < |s.table| && IsProd(p)
    requires r == s.(table := r.table, peers := r.peers, count := r.count)
    requires r.table == s.table[p := r.table[p]]
    requires VoteOk(s, p, strict) ==> VoteOk(r, p, strict)
    ensures Keeps(s, r, strict, true)
  {
    forall j | 0 <= j < |s.table| ensures VoteOk(s, j, strict) ==> VoteOk(r, j, strict) {
      PendingStays(s, r, j);
    }
    forall c | 0 <= c < |s.table| && IsCons(c)
      ensures Surplus(r, c) == Surplus(s, c)
      ensures PromisedAt(s, c) ==> PromisedAt(r, c)
    {
      PendingStays(s, r, c);
    }
  }

  lemma NoteKeeps(s: Rm, w: Work, strict: bool)
    requires Wf(s) && (w.NotifyProd? || w.ResourceCb?)
    ensures Keeps(s, Enqueue(s, w), strict, true)
  {
    var r := Enqueue(s, w);
    EnqueueBooks(s, w);
    forall j | 0 <= j < |s.table| ensures VoteOk(s, j, strict) ==> VoteOk(r, j, strict) {
      PendingStays(s, r, j);
    }
    forall c | 0 <= c < |s.table| && IsCons(c)
      ensures Surplus(r, c) == Surplus(s, c)
      ensures PromisedAt(s, c) ==> PromisedAt(r, c)
    {
      PendingStays(s, r, c);
    }
  }

  // ----- consumers

  /** r differs from s in the record of consumer c, in what the environment holds for c,
      and in items appended for c. */
  ghost predicate Touches(s: Rm, r: Rm, c: nat)
    requires Wf(s) && Wf(r) && c < |s.table|
  {
    && |r.table| == |s.table| && IsCons(c) && r.table[c].live && s.table[c].live
    && r.volt == s.volt && r.bw == s.bw && r.currVolt == s.currVolt && r.currBw == s.currBw
    && r.inflight == s.inflight && r.profile == s.profile
    && s.queue <= r.queue && LastSent(r) == LastSent(s)
    && forall x :: 0 <= x < |s.table| && x != c ==>
         && r.table[x] == s.table[x]
         && r.clk[x] == s.clk[x] && r.owed[x] == s.owed[x] && r.delayed[x] == s.delayed[x]
         && Resumes(r.queue, x) == Resumes(s.queue, x) && Suspends(r.queue, x) == Suspends(s.queue, x)
  }

  lemma TouchKeeps(s: Rm, r: Rm, c: nat, strict: bool, good: bool)
    requires Wf(s) && Wf(r) && c < |s.table| && Touches(s, r, c)
    requires good && PromisedAt(s, c) ==> PromisedAt(r, c)
    requires good && PromisedAt(s, c) && VoteOk(s, c, strict) ==> VoteOk(r, c, strict)
    requires good ==> Surplus(r, c) == Surplus(s, c)
    ensures Keeps(s, r, strict, good)
  {
    forall j | 0 <= j < |s.table| && j != c ensures VoteOk(s, j, strict) ==> VoteOk(r, j, strict) {
      PendingStays(s, r, j);
    }
    forall x | 0 <= x < |s.table| && IsCons(x) && x != c
      ensures Surplus(r, x) == Surplus(s, x)
      ensures PromisedAt(s, x) ==> PromisedAt(r, x)
    {
      PendingStays(s, r, x);
    }
  }

  /** A vote change moves no clock vote and breaks no promise. */
  lemma PerfSpares(t: Rm, i: nat, x: nat)
    requires Wf(t) && i < |t.table| && x < |t.table|
    ensures Surplus(Perf(t, i), x) == Surplus(t, x)
    ensures PromisedAt(t, x) ==> PromisedAt(Perf(t, i), x)
  {
    NotesCount(t.queue, Perf(t, i).queue, x);
    PendingStays(t, Perf(t, i), x);
  }

  lemma TouchVotedKeeps(s: Rm, t: Rm, c: nat, strict: bool, good: bool)
    requires Wf(s) && Wf(t) && c < |s.table| && Touches(s, t, c)
    requires good && PromisedAt(s, c) ==> PromisedAt(t, c)
    requires good ==> Surplus(t, c) == Surplus(s, c)
    ensures Keeps(s, Perf(t, c), strict, good)
  {
    var r := Perf(t, c);
    if Announced(s) {
      PerfAnnounced(t, c);
    }
    forall j | 0 <= j < |s.table| ensures VoteOk(s, j, strict) ==> VoteOk(r, j, strict) {
      PendingStays(s, r, j);
    }
    forall x | 0 <= x < |s.table| && IsCons(x)
      ensures good ==> Surplus(r, x) == Surplus(s, x)
      ensures good && PromisedAt(s, x) ==> PromisedAt(r, x)
    {
      PerfSpares(t, c, x);
      PendingStays(s, t, x);
    }
  }

  lemma PerfAddUsage(s: Rm, c: nat, d: int)
    requires Wf(s) && c < |s.table|
    ensures AddUsage(Perf(s, c), c, d) == Perf(AddUsage(s, c, d), c)
  {
  }

  /** Usage changes in the record; needed by every branch of a request. */
  function Used(s: Rm, c: nat, inc: bool): Rm
    requires c < |s.table|
  {
    if inc then AddUsage(s, c, 1) else s
  }

  lemma AsyncRequestKeeps(s: Rm, c: nat, bw: u32, inc: bool, strict: bool)
    requires Wf(s) && c < |s.table| && IsCons(c) && s.table[c].live && (inc || s.delayed[c] > 0)
    requires !Active(s.table[c].state)
    ensures var t := SetState(AddNeeded(s, c, bw), c, RequestInProgress);
            Keeps(s, Used(Enqueue(t, Resume(c, s.table[c].state, bw, inc)), c, inc), strict, true)
  {
    var t := SetState(AddNeeded(s, c, bw), c, RequestInProgress);
    var w := Resume(c, s.table[c].state, bw, inc);
    var r := Used(Enqueue(t, w), c, inc);
    EnqueueBooks(t, w);
    assert r.queue[|s.queue|] == w;
    TouchKeeps(s, r, c, strict, true);
  }

  lemma SyncRequestKeeps(s: Rm, c: nat, bw: u32, inc: bool, driver: int, strict: bool)
    requires Wf(s) && c < |s.table| && IsCons(c) && s.table[c].live && (inc || s.delayed[c] > 0)
    requires s.table[c].state == Released
    ensures var t := Vote(SetState(AddNeeded(s, c, bw), c, RequestInProgress), c, 1);
            Keeps(s, Used(RequestWork(t, c, Released, bw, false, inc, driver).s, c, inc), strict, Good(driver))
  {
    var t := Vote(SetState(AddNeeded(s, c, bw), c, RequestInProgress), c, 1);
    if driver == 0 {
      var u := SetState(t, c, Granted);
      PerfAddUsage(u, c, 1);
      TouchVotedKeeps(s, Used(u, c, inc), c, strict, true);
    } else {
      var r := Used(RequestWork(t, c, Released, bw, false, inc, driver).s, c, inc);
      if driver == -EINPROGRESS {
        TouchKeeps(s, r, c, strict, true);
      } else {
        TouchKeeps(s, r, c, strict, false);
      }
    }
  }

  lemma GrantedRequestKeeps(s: Rm, c: nat, bw: u32, inc: bool, wake: bool, driver: int, strict: bool)
    requires Wf(s) && c < |s.table| && IsCons(c) && s.table[c].live && (inc || s.delayed[c] > 0)
    requires s.table[c].state == Granted && (wake ==> bw == 0)
    ensures var t := AddNeeded(s, c, bw);
            Keeps(s, Used(if wake then RequestWork(t, c, Granted, bw, false, inc, driver).s else Perf(t, c), c, inc),
                  strict, Good(driver))
  {
    var t := AddNeeded(s, c, bw);
    if !wake || driver == 0 {
      assert SetState(t, c, Granted) == t;
      PerfAddUsage(t, c, 1);
      TouchVotedKeeps(s, Used(t, c, inc), c, strict, true);
    } else {
      TouchKeeps(s, Used(RequestWork(t, c, Granted, bw, false, inc, driver).s, c, inc), c, strict, Good(driver));
    }
  }

  lemma RequestKeeps(s: Rm, c: nat, bw: u32, inc: bool, wake: bool, reply: Reply, strict: bool)
    requires Wf(s) && c < |s.table| && IsCons(c) && s.table[c].live && (inc || s.delayed[c] > 0)
    requires wake ==> bw == 0
    ensures Keeps(s, ConsumerRequest(s, c, bw, inc, wake, reply).s, strict, Good(reply.driver))
  {
    if s.table[c].state == Granted {
      GrantedRequestKeeps(s, c, bw, inc, wake, reply.driver, strict);
    } else if s.table[c].state == RequestInProgress {
      TouchKeeps(s, Used(AddNeeded(s, c, bw), c, inc), c, strict, true);
    } else if s.table[c].state == ReleaseInProgress || !reply.noBlock {
      AsyncRequestKeeps(s, c, bw, inc, strict);
    } else {
      SyncRequestKeeps(s, c, bw, inc, reply.driver, strict);
    }
  }

  lemma LastReleaseKeeps(s: Rm, t: Rm, c: nat, bw: u32, reply: Reply, strict: bool)
    requires Wf(s) && Wf(t) && |t.table| == |s.table| && c < |s.table| && IsCons(c)
    requires s.table[c].live && Active(s.table[c].state)
    requires t == Put(s, c, s.table[c].(neededBw := t.table[c].neededBw, usage := 0, state := ReleaseInProgress))
    ensures var save := s.table[c].state;
            Keeps(s, if save == RequestInProgress || !reply.noBlock then Enqueue(t, Suspend(c, save, bw))
                     else ReleaseWork(Vote(t, c, -1), c, save, false, reply.driver).s, strict, Good(reply.driver))
  {
    var save := s.table[c].state;
    if save == RequestInProgress || !reply.noBlock {
      var r := Enqueue(t, Suspend(c, save, bw));
      EnqueueBooks(t, Suspend(c, save, bw));
      assert r.queue[|s.queue|] == Suspend(c, save, bw);
      TouchKeeps(s, r, c, strict, true);
    } else if Good(reply.driver) {
      TouchVotedKeeps(s, SetState(Vote(t, c, -1), c, Released), c, strict, true);
    } else {
      TouchKeeps(s, SetState(Vote(t, c, -1), c, save), c, strict, false);
    }
  }

  lemma ReleaseKeeps(s: Rm, c: nat, bw: u32, dec: bool, reply: Reply, strict: bool)
    requires Wf(s) && c < |s.table| && IsCons(c) && s.table[c].live
    ensures Keeps(s, ConsumerRelease(s, c, bw, dec, reply).s, strict, Good(reply.driver))
  {
    var t := AddNeeded(s, c, -(bw as int));
    var u := if dec && t.table[c].usage > 0 then AddUsage(t, c, -1) else t;
    if s.table[c].state == Released {
      TouchKeeps(s, t, c, strict, true);
    } else if s.table[c].state == ReleaseInProgress {
      TouchKeeps(s, u, c, strict, true);
    } else if u.table[c].usage == 0 {
      LastReleaseKeeps(s, SetState(u, c, ReleaseInProgress), c, bw, reply, strict);
    } else if s.table[c].state == Granted {
      TouchVotedKeeps(s, u, c, strict, true);
    } else {
      TouchKeeps(s, u, c, strict, true);
    }
  }

  lemma Chain(a: Rm, b: Rm, c: Rm, strict: bool, good: bool)
    requires Wf(a) && Wf(b) && Wf(c) && Keeps(a, b, strict, good) && Keeps(b, c, strict, good)
    ensures Keeps(a, c, strict, good)
  {
  }

  // ----- completions

  lemma ProducerHandleCbKeeps(s: Rm, p: nat, ev: Event, strict: bool)
    requires Wf(s) && p < |s.table| && IsProd(p) && s.table[p].live && s.table[p].state != ReleaseInProgress
    ensures Keeps(s, ProducerHandleCb(s, p, ev), strict, true)
  {
    var t := Put(s, p, ProducerAfter(s.table[p], ev));
    if t.table[p].state != s.table[p].state {
      VotedKeeps(s, t, p, strict);
    } else {
      EditKeeps(s, t, p, strict);
    }
  }

  lemma {:induction false} NotifyFromKeeps(s: Rm, c: nat, ev: Event, k: nat, strict: bool)
    requires Wf(s) && Integrity(s) && Settled(s) && c < |s.table| && IsCons(c) && k <= |s.table|
    ensures Keeps(s, NotifyFrom(s, c, ev, k), strict, true)
    decreases |s.table| - k
  {
    if k < |s.table| {
      if Present(s, c, k) {
        var t := ProducerHandleCb(s, k, ev);
        ProducerHandleCbKeeps(s, k, ev, strict);
        IntegrityFrame(s, t);
        NotifyFromKeeps(t, c, ev, k + 1, strict);
        Chain(s, t, NotifyFrom(s, c, ev, k), strict, true);
      } else {
        NotifyFromKeeps(s, c, ev, k + 1, strict);
      }
    }
  }

  lemma HandleCbKeeps(s: Rm, c: nat, ev: Event, strict: bool)
    requires Structured(s) && c < |s.table| && IsCons(c) && s.table[c].live
    ensures Keeps(s, HandleCb(s, c, ev), strict, true)
  {
    var r := HandleCb(s, c, ev);
    if s.table[c].state == RequestInProgress && ev == GrantedEvent {
      var t := Perf(SetState(s, c, Granted), c);
      VotedKeeps(s, SetState(s, c, Granted), c, strict);
      IntegrityFrame(s, t);
      NotifyFromKeeps(t, c, ev, 0, strict);
      Chain(s, t, r, strict, true);
    } else if s.table[c].state == ReleaseInProgress && ev == ReleasedEvent {
      var t := SetState(s, c, Released);
      TouchKeeps(s, t, c, strict, true);
      IntegrityFrame(s, t);
      NotifyFromKeeps(t, c, ev, 0, strict);
      Chain(s, t, r, strict, true);
    }
  }

  lemma PerfKeeps(s: Rm, i: nat, strict: bool)
    requires Wf(s) && i < |s.table| && s.table[i].live
    ensures Keeps(s, Perf(s, i), strict, true)
  {
    VotedKeeps(s, s, i, strict);
  }

  // ----- producers

  lemma RequestOneKeepsBooks(s: Rm, p: nat, k: nat, reply: Reply, strict: bool)
    requires Wf(s) && Symmetric(s) && p < |s.table| && k < |s.table| && IsProd(p) && Present(s, p, k)
    requires s.table[p].state == RequestInProgress
    ensures Keeps(s, RequestOne(s, p, k, reply).s, strict, Good(reply.driver))
    ensures var r := RequestOne(s, p, k, reply).s; r.table[p].state == RequestInProgress && Symmetric(r)
  {
    SymmetricFrame(s, RequestOne(s, p, k, reply).s);
    var good := Good(reply.driver);
    var t := AddPending(s, p, 1);
    EditKeeps(s, t, p, strict);
    var o := ConsumerRequest(t, k, t.table[p].maxBw, true, false, reply);
    RequestKeeps(t, k, t.table[p].maxBw, true, false, reply, strict);
    RequestTouches(t, k, t.table[p].maxBw, true, false, reply);
    Chain(s, t, o.s, strict, good);
    if o.code != -EINPROGRESS {
      EditKeeps(o.s, AddPending(o.s, p, -1), p, strict);
      Chain(s, o.s, AddPending(o.s, p, -1), strict, good);
    }
  }

  lemma RequestDoneKeepsBooks(s: Rm, p: nat, code: int, env: nat -> Reply, strict: bool)
    requires Wf(s) && p < |s.table| && IsProd(p) && s.table[p].live && s.table[p].state == RequestInProgress
    ensures Keeps(s, RequestFrom(s, p, |s.table|, code, env).s, strict, true)
  {
    if s.table[p].pendingRequest == 0 {
      var t := Perf(SetState(s, p, Granted), p);
      VotedKeeps(s, SetState(s, p, Granted), p, strict);
      NoteKeeps(t, NotifyProd(p, GrantedEvent, true), strict);
      Chain(s, t, Enqueue(t, NotifyProd(p, GrantedEvent, true)), strict, true);
    }
  }

  lemma {:induction false} RequestFromKeepsBooks(s: Rm, p: nat, k: nat, code: int, env: nat -> Reply,
                                                 strict: bool, good: bool)
    requires Wf(s) && Symmetric(s) && p < |s.table| && k <= |s.table| && IsProd(p) && s.table[p].live
    requires s.table[p].state == RequestInProgress && (good ==> GoodEnv(env))
    ensures Keeps(s, RequestFrom(s, p, k, code, env).s, strict, good)
    decreases |s.table| - k
  {
    if k == |s.table| {
      RequestDoneKeepsBooks(s, p, code, env, strict);
    } else if Present(s, p, k) {
      var o := RequestOne(s, p, k, env(k));
      RequestOneKeepsBooks(s, p, k, env(k), strict);
      if o.code == 0 || o.code == -EINPROGRESS {
        var next := if o.code == 0 then code else o.code;
        RequestFromKeepsBooks(o.s, p, k + 1, next, env, strict, good);
        Chain(s, o.s, RequestFrom(o.s, p, k + 1, next, env).s, strict, good);
      }
    } else {
      RequestFromKeepsBooks(s, p, k + 1, code, env, strict, good);
    }
  }

  lemma ProducerRequestKeeps(s: Rm, p: nat, env: nat -> Reply, strict: bool, good: bool)
    requires Structured(s) && p < |s.table| && IsProd(p) && s.table[p].live && (good ==> GoodEnv(env))
    ensures Keeps(s, ProducerRequest(s, p, env).s, strict, good)
  {
    if s.table[p].state == Released {
      var t := Put(s, p, s.table[p].(state := RequestInProgress, pendingRequest := 0));
      EditKeeps(s, t, p, strict);
      SymmetricFrame(s, t);
      RequestFromKeepsBooks(t, p, 0, 0, env, strict, good);
      Chain(s, t, ProducerRequest(s, p, env).s, strict, good);
    }
  }

  lemma ReleaseOneKeepsBooks(s: Rm, p: nat, k: nat, reply: Reply, strict: bool)
    requires Wf(s) && Symmetric(s) && p < |s.table| && k < |s.table| && IsProd(p) && Present(s, p, k)
    requires s.table[p].state == ReleaseInProgress
    ensures Keeps(s, ReleaseOne(s, p, k, reply), strict, Good(reply.driver))
    ensures ReleaseOne(s, p, k, reply).table[p] == s.table[p]
  {
    var good := Good(reply.driver);
    var t := AddPendingRelease(s, p, 1);
    EditKeeps(s, t, p, strict);
    var o := ConsumerRelease(t, k, t.table[p].maxBw, true, reply);
    ReleaseKeeps(t, k, t.table[p].maxBw, true, reply, strict);
    ReleaseTouches(t, k, t.table[p].maxBw, true, reply);
    Chain(s, t, o.s, strict, good);
    EditKeeps(o.s, AddPendingRelease(o.s, p, -1), p, strict);
    Chain(s, o.s, AddPendingRelease(o.s, p, -1), strict, good);
  }

  lemma ReleaseDoneKeepsBooks(s: Rm, p: nat, env: nat -> Reply, strict: bool)
    requires Wf(s) && p < |s.table| && IsProd(p) && s.table[p].live && s.table[p].state == ReleaseInProgress
    ensures Keeps(s, ReleaseFrom(s, p, |s.table|, env), strict, true)
  {
    if s.table[p].pendingRelease == 0 {
      var t := Perf(SetState(s, p, Released), p);
      VotedKeeps(s, SetState(s, p, Released), p, strict);
      NoteKeeps(t, NotifyProd(p, ReleasedEvent, true), strict);
      Chain(s, t, Enqueue(t, NotifyProd(p, ReleasedEvent, true)), strict, true);
    }
  }

  lemma {:induction false} ReleaseFromKeepsBooks(s: Rm, p: nat, k: nat, env: nat -> Reply, strict: bool, good: bool)
    requires Wf(s) && Symmetric(s) && p < |s.table| && k <= |s.table| && IsProd(p) && s.table[p].live
    requires s.table[p].state == ReleaseInProgress && (good ==> GoodEnv(env))
    ensures Keeps(s, ReleaseFrom(s, p, k, env), strict, good)
    decreases |s.table| - k
  {
    if k == |s.table| {
      ReleaseDoneKeepsBooks(s, p, env, strict);
    } else if Present(s, p, k) {
      var t := ReleaseOne(s, p, k, env(k));
      ReleaseOneKeepsBooks(s, p, k, env(k), strict);
      SymmetricFrame(s, t);
      ReleaseFromKeepsBooks(t, p, k + 1, env, strict, good);
      Chain(s, t, ReleaseFrom(t, p, k + 1, env), strict, good);
    } else {
      ReleaseFromKeepsBooks(s, p, k + 1, env, strict, good);
    }
  }

  lemma ProducerReleaseKeeps(s: Rm, p: nat, env: nat -> Reply, strict: bool, good: bool)
    requires Structured(s) && p < |s.table| && IsProd(p) && s.table[p].live && (good ==> GoodEnv(env))
    ensures Keeps(s, ProducerRelease(s, p, env).s, strict, good)
  {
    if s.table[p].state != Released {
      var t := Put(s, p, s.table[p].(state := ReleaseInProgress, pendingRelease := 0));
      EditKeeps(s, t, p, strict);
      IntegrityFrame(s, t);
      ReleaseFromKeepsBooks(t, p, 0, env, strict, good);
      Chain(s, t, ProducerRelease(s, p, env).s, strict, good);
    }
  }

  // ----- dependencies

  /** The request that a new edge of an active producer causes. */
  lemma ActiveAddKeeps(u: Rm, p: nat, c: nat, prev: State, reply: Reply, strict: bool)
    requires Wf(u) && p < |u.table| && c < |u.table| && IsProd(p) && IsCons(c)
    requires u.table[p].live && u.table[c].live
    ensures var o := ConsumerRequest(u, c, u.table[p].maxBw, true, false, reply);
            Keeps(u, if o.code == -EINPROGRESS then o.s
                     else Perf(AddPending(SetState(o.s, p, prev), p, -1), p), strict, Good(reply.driver))
  {
    var o := ConsumerRequest(u, c, u.table[p].maxBw, true, false, reply);
    RequestKeeps(u, c, u.table[p].maxBw, true, false, reply, strict);
    if o.code != -EINPROGRESS {
      var v := AddPending(SetState(o.s, p, prev), p, -1);
      VotedKeeps(o.s, v, p, strict);
      Chain(u, o.s, Perf(v, p), strict, Good(reply.driver));
    }
  }

  lemma AddKeeps(s: Rm, p: nat, c: nat, userspace: bool, reply: Reply, strict: bool)
    requires Structured(s) && BothExist(s, p, c)
    ensures Keeps(s, AddDependency(s, p, c, userspace, reply).s, strict, Good(reply.driver))
  {
    if CheckDependency(s, p, c).None? {
      var t := NewEdge(s, p, c, userspace);
      if Active(s.table[p].state) {
        var u := AddPending(SetState(t, p, RequestInProgress), p, 1);
        EditKeeps(s, u, p, strict);
        ActiveAddKeeps(u, p, c, s.table[p].state, reply, strict);
        Chain(s, u, AddDependency(s, p, c, userspace, reply).s, strict, Good(reply.driver));
      } else {
        EditKeeps(s, t, p, strict);
      }
    }
  }

  /** A waiting producer forgets a consumer and may be granted by it. */
  lemma ForgetWaitingKeeps(s: Rm, u: Rm, p: nat, strict: bool)
    requires Wf(s) && p < |s.table| && IsProd(p) && s.table[p].live && s.table[p].state == RequestInProgress
    requires Wf(u) && |u.table| == |s.table| && u == Put(s, p, u.table[p].(state := RequestInProgress, live := true))
    ensures Keeps(s, u, strict, true)
    ensures Keeps(s, Enqueue(Perf(SetState(u, p, Granted), p), NotifyProd(p, GrantedEvent, false)), strict, true)
  {
    var v := Perf(SetState(u, p, Granted), p);
    EditKeeps(s, u, p, strict);
    VotedKeeps(s, SetState(u, p, Granted), p, strict);
    NoteKeeps(v, NotifyProd(p, GrantedEvent, false), strict);
    Chain(s, v, Enqueue(v, NotifyProd(p, GrantedEvent, false)), strict, true);
  }

  lemma ForgetKeeps(s: Rm, p: nat, c: nat, strict: bool)
    requires Wf(s) && p < |s.table| && c < |s.table| && IsProd(p) && IsCons(c)
    requires s.table[p].live && s.table[p].state != ReleaseInProgress
    ensures Keeps(s, ForgetConsumer(s, p, c), strict, true)
  {
    var r := ForgetConsumer(s, p, c);
    var t := AddNeeded(s, p, -(s.table[c].maxBw as int));
    if s.table[p].state == Granted {
      VotedKeeps(s, t, p, strict);
      assert r == Perf(t, p);
    } else if s.table[p].state == RequestInProgress {
      var u := if t.table[p].pendingRequest > 0 then AddPending(t, p, -1) else t;
      ForgetWaitingKeeps(s, u, p, strict);
      assert r == u || r == Enqueue(Perf(SetState(u, p, Granted), p), NotifyProd(p, GrantedEvent, false));
    } else {
      EditKeeps(s, t, p, strict);
      assert r == t;
    }
  }

  lemma DeleteKeeps(s: Rm, p: nat, c: nat, userspace: bool, reply: Reply, strict: bool)
    requires Structured(s) && BothExist(s, p, c)
    ensures Keeps(s, DeleteDependency(s, p, c, userspace, reply).s, strict, Good(reply.driver))
  {
    var r := DeleteDependency(s, p, c, userspace, reply).s;
    var good := Good(reply.driver);
    DeleteGraph(s, p, c, userspace, reply);
    if Present(s, p, c) && s.peers[p][c].userspace == userspace {
      assert Present(s, c, p);
      var f := ForgetConsumer(s, p, c);
      var t := Cut(s, p, c);
      ForgetKeeps(s, p, c, strict);
      EditKeeps(f, t, p, strict);
      Chain(s, f, t, strict, good);
      if Active(s.table[p].state) {
        ReleaseKeeps(t, c, t.table[p].maxBw, true, reply, strict);
        Chain(s, t, r, strict, good);
      }
    }
  }

  lemma DeleteOneKeeps(s: Rm, i: nat, k: nat, reply: Reply, strict: bool)
    requires Structured(s) && Lookup(s, i) && k < |s.table|
    ensures Keeps(s, DeleteOne(s, i, k, reply), strict, Good(reply.driver))
  {
    if Present(s, i, k) {
      var p, c := if IsProd(i) then i else k, if IsProd(i) then k else i;
      DeleteKeeps(s, p, c, s.peers[i][k].userspace, reply, strict);
    }
  }

  lemma {:induction false} DeleteFromKeeps(s: Rm, i: nat, k: nat, env: nat -> Reply, strict: bool, good: bool)
    requires Structured(s) && Lookup(s, i) && k <= |s.table| && (good ==> GoodEnv(env))
    ensures Keeps(s, DeleteFrom(s, i, k, env), strict, good)
    decreases |s.table| - k
  {
    if k < |s.table| {
      var t := DeleteOne(s, i, k, env(k));
      DeleteOneStructured(s, i, k, env(k));
      DeleteOneKeeps(s, i, k, env(k), strict);
      DeleteFromKeeps(t, i, k + 1, env, strict, good);
      Chain(s, t, DeleteFrom(s, i, k, env), strict, good);
    }
  }

  // ----- profiles

  lemma ProfileOneKeeps(s: Rm, k: nat, d: int, strict: bool)
    requires Wf(s) && k < |s.table| && s.table[k].live
    ensures Keeps(s, ProfileOne(s, k, d), strict, true)
  {
    var t := AddNeeded(s, k, d);
    if t.table[k].state == Granted {
      VotedKeeps(s, t, k, strict);
    } else if IsProd(k) {
      EditKeeps(s, t, k, strict);
    } else {
      TouchKeeps(s, t, k, strict, true);
    }
  }

  lemma {:induction false} ProfileFromKeeps(s: Rm, i: nat, d: int, k: nat, strict: bool)
    requires Wf(s) && Integrity(s) && i < |s.table| && k <= |s.table|
    ensures Keeps(s, ProfileFrom(s, i, d, k), strict, true)
    decreases |s.table| - k
  {
    if k < |s.table| {
      if Present(s, i, k) {
        var t := ProfileOne(s, k, d);
        ProfileOneKeeps(s, k, d, strict);
        IntegrityFrame(s, t);
        ProfileFromKeeps(t, i, d, k + 1, strict);
        Chain(s, t, ProfileFrom(s, i, d, k), strict, true);
      } else {
        ProfileFromKeeps(s, i, d, k + 1, strict);
      }
    }
  }

  lemma MaxKeeps(s: Rm, i: nat, max: u32, strict: bool)
    requires Wf(s) && i < |s.table| && s.table[i].live
    ensures var t := Put(s, i, s.table[i].(maxBw := max));
            Keeps(s, if t.table[i].state == Granted then Perf(t, i) else t, strict, true)
  {
    var t := Put(s, i, s.table[i].(maxBw := max));
    if t.table[i].state == Granted {
      VotedKeeps(s, t, i, strict);
    } else if IsProd(i) {
      EditKeeps(s, t, i, strict);
    } else {
      TouchKeeps(s, t, i, strict, true);
    }
  }

  lemma ProfileKeeps(s: Rm, i: nat, max: u32, strict: bool)
    requires Structured(s) && Lookup(s, i)
    ensures Keeps(s, SetProfile(s, i, max), strict, true)
  {
    var r := SetProfile(s, i, max);
    if max == s.table[i].maxBw {
    } else if IsCons(i) || Active(s.table[i].state) {
      var t := ProfileFrom(s, i, max - s.table[i].maxBw, 0);
      ProfileFromKeeps(s, i, max - s.table[i].maxBw, 0, strict);
      MaxKeeps(t, i, max, strict);
      Chain(s, t, r, strict, true);
    } else {
      MaxKeeps(s, i, max, strict);
    }
  }

  // ----- timers and the workqueue

  lemma TimerCommutes(s: Rm, c: nat, reply: Reply, d: seq<nat>)
    requires Wf(s) && c < |s.table| && |d| == |s.table|
    ensures var o := ConsumerRequest(s, c, 0, false, true, reply);
            var o' := ConsumerRequest(s.(delayed := d), c, 0, false, true, reply);
            o'.s == o.s.(delayed := d) && o.s.delayed == s.delayed && o'.code == o.code
  {
  }

  lemma DelayKeeps(s: Rm, r: Rm, c: nat, strict: bool)
    requires Wf(s) && c < |s.table| && IsCons(c)
    requires Wf(r) && |r.table| == |s.table| && r == s.(delayed := s.delayed[c := r.delayed[c]])
    requires r.delayed[c] > 0 || !Active(s.table[c].state) || s.table[c].usage != 0
    ensures Keeps(s, r, strict, true)
  {
    forall j | 0 <= j < |s.table| ensures VoteOk(s, j, strict) ==> VoteOk(r, j, strict) {
      PendingStays(s, r, j);
    }
    forall x | 0 <= x < |s.table| && IsCons(x)
      ensures Surplus(r, x) == Surplus(s, x)
      ensures PromisedAt(s, x) ==> PromisedAt(r, x)
    {
      PendingStays(s, r, x);
    }
  }

  lemma TimerRequestKeeps(s: Rm, c: nat, reply: Reply, strict: bool)
    requires Wf(s)
    ensures Keeps(s, TimerRequest(s, c, reply).s, strict, Good(reply.driver))
  {
    if c < |s.table| && IsCons(c) && Lookup(s, c) {
      var d := s.delayed[c := s.delayed[c] + 1];
      var t := s.(delayed := d);
      TimerCommutes(s, c, reply, d);
      DelayKeeps(s, t, c, strict);
      RequestKeeps(t, c, 0, false, true, reply, strict);
      var o := ConsumerRequest(t, c, 0, false, true, reply);
      Chain(s, t, o.s, strict, Good(reply.driver));
      var r := TimerRequest(s, c, reply).s;
      if o.code != 0 && o.code != -EINPROGRESS {
        assert o.code == reply.driver;
        assert o.s == r.(delayed := d);
        assert Announced(o.s) ==> Announced(r);
      } else {
        assert r == o.s;
      }
    }
  }

  lemma DelayedCommutes(s: Rm, c: nat, reply: Reply, d: seq<nat>)
    requires Wf(s) && c < |s.table| && |d| == |s.table|
    ensures var r := ConsumerRelease(s, c, 0, false, reply).s;
            ConsumerRelease(s.(delayed := d), c, 0, false, reply).s == r.(delayed := d) && r.delayed == s.delayed
  {
  }

  /** The release comes before its account is closed: afterwards c is used or inactive. */
  lemma DelayedReleaseKeeps(s: Rm, c: nat, reply: Reply, strict: bool)
    requires Structured(s)
    ensures Keeps(s, DelayedRelease(s, c, reply), strict, Good(reply.driver))
  {
    if c < |s.table| && s.delayed[c] != 0 {
      var d := s.delayed[c := s.delayed[c] - 1];
      if IsCons(c) && Lookup(s, c) {
        var r := ConsumerRelease(s, c, 0, false, reply).s;
        DelayedCommutes(s, c, reply, d);
        ReleaseKeeps(s, c, 0, false, reply, strict);
        if Good(reply.driver) {
          ReleaseEffect(s, c, 0, false, reply);
          DelayKeeps(r, r.(delayed := d), c, strict);
          Chain(s, r, r.(delayed := d), strict, true);
        }
      } else {
        DeadDelayKeeps(s, s.(delayed := d), c, strict);
      }
    }
  }

  lemma DeadDelayKeeps(s: Rm, t: Rm, c: nat, strict: bool)
    requires Wf(s) && c < |s.table| && s.delayed[c] != 0 && t == s.(delayed := s.delayed[c := s.delayed[c] - 1])
    requires IsProd(c) || !Active(s.table[c].state)
    ensures Keeps(s, t, strict, true)
  {
    if IsCons(c) {
      DelayKeeps(s, t, c, strict);
    } else {
      forall j | 0 <= j < |s.table| ensures VoteOk(s, j, strict) ==> VoteOk(t, j, strict) {
        PendingStays(s, t, j);
      }
      forall x | 0 <= x < |s.table| && IsCons(x)
        ensures Surplus(t, x) == Surplus(s, x)
        ensures PromisedAt(s, x) ==> PromisedAt(t, x)
      {
        PendingStays(s, t, x);
      }
    }
  }

  lemma {:induction false} PopCounts(q: seq<Work>, c: int)
    requires |q| > 0
    ensures Resumes(q, c) == Resumes(q[1..], c) + Unit(q[0].Resume? && q[0].c == c)
    ensures Suspends(q, c) == Suspends(q[1..], c) + Unit(q[0].Suspend? && q[0].c == c)
    decreases |q|
  {
    if |q| > 1 {
      assert q[1..][..|q| - 2] == q[..|q| - 1][1..];
      PopCounts(q[..|q| - 1], c);
    }
  }

  lemma {:induction false} PopLast(q: seq<Work>, base: (nat, u32))
    requires |q| > 0
    ensures LastIn(q, base) == LastIn(q[1..], if q[0].NotifyIpa? then (q[0].volt, q[0].bandwidth) else base)
    decreases |q|
  {
    if |q| > 1 {
      assert q[1..][..|q| - 2] == q[..|q| - 1][1..];
      PopLast(q[..|q| - 1], base);
    }
  }

  lemma PopPending(s: Rm, r: Rm, c: int)
    requires s.inflight.None? && |s.queue| > 0 && r.inflight == Some(s.queue[0]) && r.queue == s.queue[1..]
    ensures Suspending(s, c) ==> Suspending(r, c)
    ensures Resuming(s, c) ==> Resuming(r, c)
    ensures Completing(s, c) ==> Completing(r, c)
  {
    assert forall k :: 0 < k < |s.queue| ==> r.queue[k - 1] == s.queue[k];
  }

  lemma StartKeeps(s: Rm, strict: bool)
    requires Structured(s)
    ensures Keeps(s, StartWork(s), strict, true)
  {
    var r := StartWork(s);
    if s.inflight.None? && |s.queue| > 0 {
      PopLast(s.queue, s.profile);
      forall j | 0 <= j < |s.table| ensures VoteOk(s, j, strict) ==> VoteOk(r, j, strict) {
        PopPending(s, r, j);
      }
      forall x | 0 <= x < |s.table| && IsCons(x)
        ensures Surplus(r, x) == Surplus(s, x)
        ensures PromisedAt(s, x) ==> PromisedAt(r, x)
        ensures Vacant(s, x) ==> Vacant(r, x)
      {
        PopCounts(s.queue, x);
        PopPending(s, r, x);
      }
    }
  }

  /** The driver's report takes the place of its promise. */
  lemma CompleteKeeps(s: Rm, c: nat, ev: Event, strict: bool)
    requires Structured(s)
    ensures Keeps(s, Complete(s, c, ev).s, strict, true)
  {
    if c < |s.table| && IsCons(c) {
      var w := ResourceCb(c, ev);
      var t := Enqueue(s, w);
      var r := Complete(s, c, ev).s;
      NoteKeeps(s, w, strict);
      assert t.queue[|s.queue|] == w;
      forall j | 0 <= j < |s.table| ensures VoteOk(t, j, strict) ==> VoteOk(r, j, strict) {
        PendingStays(t, r, j);
      }
      forall x | 0 <= x < |s.table| && IsCons(x)
        ensures Surplus(r, x) == Surplus(t, x)
        ensures PromisedAt(t, x) ==> PromisedAt(r, x)
      {
        PendingStays(t, r, x);
      }
      Chain(s, t, r, strict, true);
    }
  }

  /** What the item in hand has achieved once its handler has run. */
  ghost predicate Achieved(r: Rm, w: Work)
    requires Wf(r)
  {
    match w
    case Resume(c, _, _, _) =>
      c < |r.table| && IsCons(c) ==>
        r.table[c].live && (r.table[c].state == RequestInProgress ==> r.owed[c])
    case Suspend(c, _, _) =>
      c < |r.table| && IsCons(c) ==>
        && r.table[c].state != ReleaseInProgress
        && (r.table[c].state == Released && r.table[c].live ==> r.volt[c] == 0 && r.bw[c] == 0)
    case ResourceCb(c, ev) =>
      c < |r.table| && IsCons(c) && ev == GrantedEvent ==> r.table[c].state != RequestInProgress
    case _ => true
  }

  /** Letting go of an item that has done its work loses no promise. */
  lemma LetGoKeeps(s: Rm, strict: bool)
    requires Wf(s) && s.inflight.Some? && !s.inflight.value.NotifyIpa?
    ensures Keeps(s, s.(inflight := None), strict, Achieved(s, s.inflight.value))
  {
    var r := s.(inflight := None);
    if Achieved(s, s.inflight.value) {
      forall j | 0 <= j < |s.table| ensures VoteOk(s, j, strict) ==> VoteOk(r, j, strict) {
      }
    }
  }

  lemma HandledState(s: Rm, c: nat, ev: Event)
    requires Structured(s) && c < |s.table| && IsCons(c)
    ensures var st := HandleCb(s, c, ev).table[c].state;
            && (ev == GrantedEvent ==> st != RequestInProgress)
            && (ev == ReleasedEvent ==> st != ReleaseInProgress)
  {
    var t := if s.table[c].state == RequestInProgress then Perf(SetState(s, c, Granted), c)
             else SetState(s, c, Released);
    NotifyTouches(t, c, ev, 0);
    assert !Present(s, c, c);
  }

  lemma ResumeKeeps(s: Rm, c: nat, prev: State, bw: u32, inc: bool, driver: int, strict: bool)
    requires Structured(s) && IsCons(c) && Lookup(s, c)
    ensures var r := RequestWork(s, c, prev, bw, true, inc, driver).s;
            && Keeps(s, r, strict, Good(driver))
            && (Good(driver) ==> (r.table[c].state == RequestInProgress ==> r.owed[c]))
  {
    var r := RequestWork(s, c, prev, bw, true, inc, driver).s;
    if driver == 0 {
      HandleCbKeeps(s, c, GrantedEvent, strict);
      HandledState(s, c, GrantedEvent);
    } else {
      TouchKeeps(s, r, c, strict, Good(driver));
    }
  }

  lemma SuspendKeeps(s: Rm, c: nat, prev: State, driver: int, strict: bool)
    requires Structured(s) && IsCons(c) && Lookup(s, c)
    ensures var r := ReleaseWork(s, c, prev, true, driver).s;
            && Keeps(s, r, strict, Good(driver))
            && (Good(driver) ==>
                  && r.table[c].state != ReleaseInProgress
                  && (r.table[c].state == Released ==> r.volt[c] == 0 && r.bw[c] == 0))
  {
    var r := ReleaseWork(s, c, prev, true, driver).s;
    if Good(driver) {
      var t := HandleCb(s, c, ReleasedEvent);
      HandleCbKeeps(s, c, ReleasedEvent, strict);
      HandledState(s, c, ReleasedEvent);
      PerfKeeps(t, c, strict);
      Chain(s, t, r, strict, true);
    } else {
      TouchKeeps(s, r, c, strict, false);
    }
  }

  /** The handler that finds no resource gives the vote back. */
  lemma DeadResumeKeeps(s: Rm, c: nat, strict: bool)
    requires Wf(s) && c < |s.table| && IsCons(c) && !s.table[c].live && Handling(s, c)
    requires s.table[c].state == Released && s.table[c].usage == 0
    ensures Keeps(s, Vote(s, c, -1).(inflight := None), strict, true)
  {
    var r := Vote(s, c, -1).(inflight := None);
    forall j | 0 <= j < |s.table| ensures VoteOk(s, j, strict) ==> VoteOk(r, j, strict) {
    }
    forall x | 0 <= x < |s.table| && IsCons(x) ensures PromisedAt(s, x) ==> PromisedAt(r, x) {
    }
  }

  lemma ExecuteKeeps(s: Rm, driver: int, strict: bool)
    requires Structured(s) && s.inflight.Some? && !s.inflight.value.NotifyIpa?
    requires var w := s.inflight.value; w.Resume? && w.c < |s.table| && IsCons(w.c) ==> s.table[w.c].live
    ensures var r := Execute(s, s.inflight.value, driver);
            Keeps(s, r, strict, Good(driver)) && (Good(driver) ==> Achieved(r, s.inflight.value))
  {
    match s.inflight.value {
      case Resume(c, prev, bw, inc) =>
        if c < |s.table| && IsCons(c) {
          ResumeKeeps(s, c, prev, bw, inc, driver, strict);
        }
      case Suspend(c, prev, bw) =>
        if c < |s.table| && IsCons(c) && Lookup(s, c) {
          SuspendKeeps(s, c, prev, driver, strict);
        }
      case ResourceCb(c, ev) =>
        if Lookup(s, c) {
          HandleCbKeeps(s, c, ev, strict);
          HandledState(s, c, ev);
        }
      case _ =>
    }
  }

  lemma FinishKeeps(s: Rm, driver: int, strict: bool)
    requires Structured(s)
    ensures Keeps(s, FinishWork(s, driver), strict, Good(driver))
  {
    if s.inflight.None? {
    } else if s.inflight.value.NotifyIpa? {
      var r := FinishWork(s, driver);
      assert r == s.(profile := (s.inflight.value.volt, s.inflight.value.bandwidth), inflight := None);
      forall j | 0 <= j < |s.table| ensures VoteOk(s, j, strict) ==> VoteOk(r, j, strict) {
      }
    } else {
      var w := s.inflight.value;
      if w.Resume? && w.c < |s.table| && IsCons(w.c) && !s.table[w.c].live {
        DeadResumeKeeps(s, w.c, strict);
      } else {
        var t := Execute(s, w, driver);
        ExecuteKeeps(s, driver, strict);
        LetGoKeeps(t, strict);
        Chain(s, t, FinishWork(s, driver), strict, Good(driver));
      }
    }
  }

  // ----- creation and deletion

  /** One slot of the table is filled or cleared. */
  lemma SlotBooks(s: Rm, r: Rm, i: nat, strict: bool)
    requires Wf(s) && Wf(r) && |r.table| == |s.table| && i < |s.table|
    requires r == s.(table := s.table[i := r.table[i]], peers := r.peers, count := r.count, nextPtr := r.nextPtr)
    requires IsCons(i) && PromisedAt(s, i) ==> PromisedAt(r, i)
    ensures Announced(s) ==> Announced(r)
    ensures (forall j :: 0 <= j < |s.table| && j != i ==> VoteOk(s, j, strict) ==> VoteOk(r, j, strict))
    ensures Promised(s) ==> Promised(r)
    ensures forall x :: 0 <= x < |s.table| && x != i ==>
      Surplus(r, x) == Surplus(s, x) && (Vacant(s, x) ==> Vacant(r, x))
  {
    forall j | 0 <= j < |s.table| && j != i ensures VoteOk(s, j, strict) ==> VoteOk(r, j, strict) {
      PendingStays(s, r, j);
    }
    forall x | 0 <= x < |s.table| && IsCons(x) && x != i ensures PromisedAt(s, x) ==> PromisedAt(r, x) {
      PendingStays(s, r, x);
    }
  }

  lemma ClearProducerKeeps(s: Rm, p: nat, strict: bool)
    requires Wf(s) && p < |s.table| && IsProd(p) && s.table[p].state == Released
    ensures Keeps(s, Clear(s, p), strict, true)
  {
    SlotBooks(s, Clear(s, p), p, strict);
    assert VoteOk(s, p, strict) ==> VoteOk(Clear(s, p), p, strict);
  }

  lemma DeleteProducerKeeps(s: Rm, p: nat, env: nat -> Reply, strict: bool, good: bool)
    requires Structured(s) && Lookup(s, p) && IsProd(p) && (good ==> GoodEnv(env))
    ensures Keeps(s, Delete(s, p, env).s, strict, good)
  {
    var t := DeleteFrom(s, p, 0, env);
    DeleteFromStructured(s, p, 0, env);
    DeleteFromKeeps(s, p, 0, env, strict, good);
    var u := ProducerRelease(t, p, env).s;
    ProducerReleaseKeeps(t, p, env, strict, good);
    ReleaseStructured(t, p, env);
    Chain(s, t, u, strict, good);
    ClearProducerKeeps(u, p, strict);
    Chain(s, u, Clear(u, p), strict, good);
  }
}
