/**
 * What every call does, name by name. All that the manager holds about one name
 * is an entry; each call is described by what becomes of every entry, which items
 * it queues, and what it returns. The entries of different names do not depend
 * on one another, so the loops come down to one sentence per name.
 */
module RmOutcomes {
  import opened Basics
  import opened Totals
  import opened RmModel
  import opened RmStructure
  import opened RmCharges

  // ----- entries

  datatype Entry = Entry(record: Resource, volt: nat, bw: u32, clk: int, owed: bool, delayed: nat)

  function At(s: Rm, i: nat): Entry
    requires Wf(s) && i < |s.table|
  {
    Entry(s.table[i], s.volt[i], s.bw[i], s.clk[i], s.owed[i], s.delayed[i])
  }

  ghost predicate SameExcept(s: Rm, r: Rm, names: set<int>)
    requires Wf(s) && Wf(r)
  {
    |r.table| == |s.table| && forall i :: 0 <= i < |s.table| && i !in names ==> At(r, i) == At(s, i)
  }

  /** What no call but those of the thread touches. */
  ghost predicate Elsewhere(s: Rm, r: Rm)
  {
    r.inflight == s.inflight && r.profile == s.profile
  }

  /** The queued items in order, without the notifications of the IPA driver. */
  function Items(q: seq<Work>): seq<Work>
  {
    if |q| == 0 then []
    else Items(q[..|q| - 1]) + if q[|q| - 1].NotifyIpa? then [] else [q[|q| - 1]]
  }

  /** At most a notification of the IPA driver is added. */
  ghost predicate Noted(q: seq<Work>, r: seq<Work>)
  {
    r == q || (|r| == |q| + 1 && r[..|q|] == q && r[|q|].NotifyIpa?)
  }

  /** The items a are added; if there are none, at most a notification is. */
  ghost predicate Adds(q: seq<Work>, r: seq<Work>, a: seq<Work>)
  {
    if |a| == 0 then Noted(q, r) else |a| == 1 && !a[0].NotifyIpa? && r == q + a
  }

  lemma ItemsAdded(q: seq<Work>, r: seq<Work>, a: seq<Work>)
    requires Adds(q, r, a)
    ensures Items(r) == Items(q) + a
  {
    if r != q {
      assert r[..|r| - 1] == q;
    }
  }

  lemma ItemsPerf(s: Rm, i: nat)
    requires Wf(s) && i < |s.table|
    ensures Items(Perf(s, i).queue) == Items(s.queue)
  {
    ItemsAdded(s.queue, Perf(s, i).queue, []);
  }

  lemma ItemsEnqueue(s: Rm, w: Work)
    requires !w.NotifyIpa?
    ensures Items(Enqueue(s, w).queue) == Items(s.queue) + [w]
  {
    ItemsAdded(s.queue, Enqueue(s, w).queue, [w]);
  }

  /** The votes of a live resource that is active: its floor voltage, and what it needs up to its
      maximum; of one that is not: none. */
  function Voting(e: Entry): Entry
  {
    if e.record.state == Granted || e.record.state == RequestInProgress then
      e.(volt := e.record.floor,
         bw := if e.record.maxBw < e.record.neededBw then e.record.maxBw else e.record.neededBw)
    else e.(volt := 0, bw := 0)
  }

  lemma PerfEntry(s: Rm, i: nat)
    requires Wf(s) && i < |s.table| && s.table[i].live
    ensures var r := Perf(s, i);
            && At(r, i) == Voting(At(s, i)) && SameExcept(s, r, {i as int}) && Elsewhere(s, r)
            && Items(r.queue) == Items(s.queue)
  {
    ItemsPerf(s, i);
  }

  // ----- one consumer is asked

  /** The entry of a consumer after a producer has asked it for bandwidth. */
  function Asked(e: Entry, bw: u32, reply: Reply): Entry
  {
    var called := e.record.state == Released && reply.noBlock;
    var x := e.(record := e.record.(neededBw := Wrap(e.record.neededBw + bw), usage := e.record.usage + 1));
    if called && reply.driver == 0 then Voting(x.(record := x.record.(state := Granted), clk := e.clk + 1))
    else if called && reply.driver == -EINPROGRESS then
      x.(record := x.record.(state := RequestInProgress), clk := e.clk + 1, owed := true)
    else if called then e.(clk := e.clk + 1)
    else if e.record.state == Granted then Voting(x)
    else x.(record := x.record.(state := RequestInProgress))
  }

  /** The resume that is queued if the clocks have to be waited for. */
  function AskItems(r: Resource, c: nat, bw: u32, inc: bool, reply: Reply): seq<Work>
  {
    if r.state == ReleaseInProgress || (r.state == Released && !reply.noBlock)
    then [Resume(c, r.state, bw, inc)] else []
  }

  /** The answer: granted, later, or the driver's error. */
  function AskCode(r: Resource, reply: Reply): int
  {
    if r.state == Granted then 0
    else if r.state == Released && reply.noBlock then reply.driver
    else -EINPROGRESS
  }

  lemma AskedEntry(s: Rm, c: nat, bw: u32, reply: Reply)
    requires Wf(s) && c < |s.table| && s.table[c].live
    ensures var o := ConsumerRequest(s, c, bw, true, false, reply);
            && At(o.s, c) == Asked(At(s, c), bw, reply)
            && SameExcept(s, o.s, {c as int}) && Elsewhere(s, o.s)
            && o.code == AskCode(s.table[c], reply)
  {
    if s.table[c].state == Released && reply.noBlock {
      CalledEntry(s, c, bw, reply);
    } else {
      UncalledEntry(s, c, bw, reply);
    }
  }

  /** The clocks come at once, and the driver is called. */
  lemma CalledEntry(s: Rm, c: nat, bw: u32, reply: Reply)
    requires Wf(s) && c < |s.table| && s.table[c].live && s.table[c].state == Released && reply.noBlock
    ensures var o := ConsumerRequest(s, c, bw, true, false, reply);
            && At(o.s, c) == Asked(At(s, c), bw, reply)
            && SameExcept(s, o.s, {c as int}) && Elsewhere(s, o.s)
            && o.code == reply.driver
  {
    if !Good(reply.driver) {
      RefusedEffect(s, c, bw, true, false, reply);
    }
  }

  lemma UncalledEntry(s: Rm, c: nat, bw: u32, reply: Reply)
    requires Wf(s) && c < |s.table| && s.table[c].live && !(s.table[c].state == Released && reply.noBlock)
    ensures var o := ConsumerRequest(s, c, bw, true, false, reply);
            && At(o.s, c) == Asked(At(s, c), bw, reply)
            && SameExcept(s, o.s, {c as int}) && Elsewhere(s, o.s)
            && o.code == AskCode(s.table[c], reply)
  {
  }

  lemma AskAdds(s: Rm, c: nat, bw: u32, inc: bool, wake: bool, reply: Reply)
    requires Wf(s) && c < |s.table|
    ensures Adds(s.queue, ConsumerRequest(s, c, bw, inc, wake, reply).s.queue, AskItems(s.table[c], c, bw, inc, reply))
  {
  }

  lemma AskedItems(s: Rm, c: nat, bw: u32, inc: bool, wake: bool, reply: Reply)
    requires Wf(s) && c < |s.table|
    ensures Items(ConsumerRequest(s, c, bw, inc, wake, reply).s.queue) ==
              Items(s.queue) + AskItems(s.table[c], c, bw, inc, reply)
  {
    AskAdds(s, c, bw, inc, wake, reply);
    ItemsAdded(s.queue, ConsumerRequest(s, c, bw, inc, wake, reply).s.queue, AskItems(s.table[c], c, bw, inc, reply));
  }

  // ----- one consumer is let go

  /** The entry of a consumer after a producer, or a timer (dec is false), has let it go. */
  function Dropped(e: Entry, bw: u32, dec: bool, reply: Reply): Entry
  {
    var left := if dec && e.record.usage > 0 then e.record.usage - 1 else e.record.usage;
    var x := e.(record := e.record.(neededBw := Wrap(e.record.neededBw - bw as int)));
    if e.record.state == Released then x
    else
      var x := x.(record := x.record.(usage := left));
      if e.record.state == ReleaseInProgress || (e.record.state == RequestInProgress && left != 0) then x
      else if left != 0 then Voting(x)
      else if e.record.state == RequestInProgress || !reply.noBlock then
        x.(record := x.record.(state := ReleaseInProgress))
      else if reply.driver == 0 || reply.driver == -EINPROGRESS then
        Voting(x.(record := x.record.(state := Released), clk := e.clk - 1))
      else x.(clk := e.clk - 1)
  }

  /** The suspend that is queued if the clocks cannot be dropped at once. */
  function DropItems(r: Resource, c: nat, bw: u32, dec: bool, reply: Reply): seq<Work>
  {
    var left := if dec && r.usage > 0 then r.usage - 1 else r.usage;
    if left == 0 && (r.state == RequestInProgress || (r.state == Granted && !reply.noBlock))
    then [Suspend(c, r.state, bw)] else []
  }

  /** The last one lets go of an active consumer: at once, or by a suspend. */
  lemma LastDropNow(s: Rm, c: nat, bw: u32, dec: bool, reply: Reply)
    requires Wf(s) && c < |s.table| && s.table[c].live && s.table[c].state == Granted && reply.noBlock
    requires UsageAfterRelease(s.table[c], dec) == 0
    ensures var r := ConsumerRelease(s, c, bw, dec, reply).s;
            && At(r, c) == Dropped(At(s, c), bw, dec, reply)
            && SameExcept(s, r, {c as int}) && Elsewhere(s, r)
  {
  }

  lemma LastDropLater(s: Rm, c: nat, bw: u32, dec: bool, reply: Reply)
    requires Wf(s) && c < |s.table| && s.table[c].live
    requires s.table[c].state == RequestInProgress || (s.table[c].state == Granted && !reply.noBlock)
    requires UsageAfterRelease(s.table[c], dec) == 0
    ensures var r := ConsumerRelease(s, c, bw, dec, reply).s;
            && At(r, c) == Dropped(At(s, c), bw, dec, reply)
            && SameExcept(s, r, {c as int}) && Elsewhere(s, r)
  {
  }

  /** Somebody else still uses it, or it is not active. */
  lemma IdleDrop(s: Rm, c: nat, bw: u32, dec: bool, reply: Reply)
    requires Wf(s) && c < |s.table| && s.table[c].live
    requires Active(s.table[c].state) ==> UsageAfterRelease(s.table[c], dec) != 0
    ensures var r := ConsumerRelease(s, c, bw, dec, reply).s;
            && At(r, c) == Dropped(At(s, c), bw, dec, reply)
            && SameExcept(s, r, {c as int}) && Elsewhere(s, r)
  {
  }

  lemma DropEntry(s: Rm, c: nat, bw: u32, dec: bool, reply: Reply)
    requires Wf(s) && c < |s.table| && s.table[c].live
    ensures var r := ConsumerRelease(s, c, bw, dec, reply).s;
            && At(r, c) == Dropped(At(s, c), bw, dec, reply)
            && SameExcept(s, r, {c as int}) && Elsewhere(s, r)
  {
    if Active(s.table[c].state) && UsageAfterRelease(s.table[c], dec) == 0 {
      if s.table[c].state == Granted && reply.noBlock {
        LastDropNow(s, c, bw, dec, reply);
      } else {
        LastDropLater(s, c, bw, dec, reply);
      }
    } else {
      IdleDrop(s, c, bw, dec, reply);
    }
  }

  lemma DropAdds(s: Rm, c: nat, bw: u32, dec: bool, reply: Reply)
    requires Wf(s) && c < |s.table|
    ensures Adds(s.queue, ConsumerRelease(s, c, bw, dec, reply).s.queue, DropItems(s.table[c], c, bw, dec, reply))
  {
  }

  lemma DropQueue(s: Rm, c: nat, bw: u32, dec: bool, reply: Reply)
    requires Wf(s) && c < |s.table|
    ensures Items(ConsumerRelease(s, c, bw, dec, reply).s.queue) ==
              Items(s.queue) + DropItems(s.table[c], c, bw, dec, reply)
  {
    DropAdds(s, c, bw, dec, reply);
    ItemsAdded(s.queue, ConsumerRelease(s, c, bw, dec, reply).s.queue, DropItems(s.table[c], c, bw, dec, reply));
  }

  // ----- a producer asks all its consumers

  /** Only the record of p changes. */
  lemma RecordEntry(s: Rm, p: nat, x: Resource)
    requires Wf(s) && p < |s.table|
    ensures var r := Put(s, p, x);
            Wf(r) && At(r, p) == At(s, p).(record := x) && SameExcept(s, r, {p as int}) && Elsewhere(s, r)
  {
  }

  lemma Chained(a: Rm, b: Rm, c: Rm, xs: set<int>, ys: set<int>)
    requires Wf(a) && Wf(b) && Wf(c) && SameExcept(a, b, xs) && SameExcept(b, c, ys)
    ensures SameExcept(a, c, xs + ys)
  {
  }

  /** The entry of p after the turn of one consumer with this answer. */
  function Awaiting(e: Entry, answer: int): Entry
  {
    e.(record := e.record.(pendingRequest := e.record.pendingRequest + if answer == -EINPROGRESS then 1 else 0))
  }

  /** The turn of consumer k. */
  ghost predicate TurnOf(s: Rm, t: Rm, p: nat, k: nat, reply: Reply)
    requires Wf(s) && Wf(t) && p < |s.table| && k < |s.table|
  {
    AskedOf(s, t, p, k, reply) && At(t, p) == Awaiting(At(s, p), AskCode(s.table[k], reply))
  }

  ghost predicate AskedOf(s: Rm, t: Rm, p: nat, k: nat, reply: Reply)
    requires Wf(s) && Wf(t) && p < |s.table| && k < |s.table|
  {
    && SameExcept(s, t, {k as int, p as int}) && Elsewhere(s, t)
    && At(t, k) == Asked(At(s, k), s.table[p].maxBw, reply)
    && Items(t.queue) == Items(s.queue) + AskItems(s.table[k], k, s.table[p].maxBw, true, reply)
  }

  lemma RequestOneAsks(s: Rm, t: Rm, o: Out, p: nat, k: nat, reply: Reply)
    requires Wf(s) && p < |s.table| && k < |s.table| && p != k && s.table[k].live
    requires t == Put(s, p, s.table[p].(pendingRequest := s.table[p].pendingRequest + 1))
    requires o == ConsumerRequest(t, k, s.table[p].maxBw, true, false, reply)
    ensures AskedOf(s, o.s, p, k, reply) && At(o.s, p) == Awaiting(At(s, p), -EINPROGRESS)
    ensures o.code == AskCode(s.table[k], reply)
  {
    RecordEntry(s, p, s.table[p].(pendingRequest := s.table[p].pendingRequest + 1));
    AskedEntry(t, k, s.table[p].maxBw, reply);
    AskedItems(t, k, s.table[p].maxBw, true, false, reply);
    assert At(t, k) == At(s, k) && At(t, k).record == t.table[k];
    AskedTurn(s, t, o.s, p, k, reply);
  }

  lemma RequestOneIs(s: Rm, p: nat, k: nat, reply: Reply)
    requires Wf(s) && p < |s.table| && k < |s.table| && p != k
    ensures var t := Put(s, p, s.table[p].(pendingRequest := s.table[p].pendingRequest + 1));
            var o := ConsumerRequest(t, k, s.table[p].maxBw, true, false, reply);
            RequestOne(s, p, k, reply) ==
              if o.code == -EINPROGRESS then o
              else Out(Put(o.s, p, o.s.table[p].(pendingRequest := o.s.table[p].pendingRequest - 1)), o.code)
  {
  }

  lemma RequestOneEnds(s: Rm, u: Out, o: Out, p: nat, k: nat, reply: Reply)
    requires Wf(s) && Wf(u.s) && Wf(o.s) && p < |s.table| && k < |s.table| && p != k
    requires AskedOf(s, u.s, p, k, reply) && At(u.s, p) == Awaiting(At(s, p), -EINPROGRESS)
    requires u.code == AskCode(s.table[k], reply) && u.code != -EINPROGRESS
    requires o == Out(Put(u.s, p, u.s.table[p].(pendingRequest := u.s.table[p].pendingRequest - 1)), u.code)
    ensures TurnOf(s, o.s, p, k, reply)
  {
    AnsweredTurn(s, u.s, o.s, p, k, reply);
  }

  lemma RequestOneEntry(s: Rm, p: nat, k: nat, reply: Reply)
    requires Wf(s) && p < |s.table| && k < |s.table| && p != k && s.table[k].live
    ensures var o := RequestOne(s, p, k, reply);
            TurnOf(s, o.s, p, k, reply) && o.code == AskCode(s.table[k], reply)
  {
    var t := Put(s, p, s.table[p].(pendingRequest := s.table[p].pendingRequest + 1));
    var u := ConsumerRequest(t, k, s.table[p].maxBw, true, false, reply);
    RequestOneAsks(s, t, u, p, k, reply);
    RequestOneIs(s, p, k, reply);
    if u.code != -EINPROGRESS {
      RequestOneEnds(s, u, RequestOne(s, p, k, reply), p, k, reply);
    }
  }

  /** The turn is over if the consumer is waited for. */
  lemma AskedTurn(s: Rm, t: Rm, u: Rm, p: nat, k: nat, reply: Reply)
    requires Wf(s) && Wf(t) && Wf(u) && p < |s.table| == |t.table| == |u.table| && k < |s.table| && p != k
    requires At(t, p) == At(s, p).(record := s.table[p].(pendingRequest := s.table[p].pendingRequest + 1))
    requires SameExcept(s, t, {p as int}) && Elsewhere(s, t) && t.queue == s.queue
    requires SameExcept(t, u, {k as int}) && Elsewhere(t, u)
    requires At(u, k) == Asked(At(s, k), s.table[p].maxBw, reply)
    requires Items(u.queue) == Items(s.queue) + AskItems(s.table[k], k, s.table[p].maxBw, true, reply)
    ensures AskedOf(s, u, p, k, reply) && At(u, p) == Awaiting(At(s, p), -EINPROGRESS)
  {
    Chained(s, t, u, {p as int}, {k as int});
    assert {p as int} + {k as int} == {k as int, p as int};
    assert At(u, p) == At(t, p);
  }

  /** Otherwise p takes back that it waits. */
  lemma AnsweredTurn(s: Rm, u: Rm, r: Rm, p: nat, k: nat, reply: Reply)
    requires Wf(s) && Wf(u) && Wf(r) && p < |s.table| && k < |s.table| && p != k
    requires AskedOf(s, u, p, k, reply) && At(u, p) == Awaiting(At(s, p), -EINPROGRESS)
    requires r == Put(u, p, u.table[p].(pendingRequest := u.table[p].pendingRequest - 1))
    ensures AskedOf(s, r, p, k, reply) && At(r, p) == At(s, p)
  {
    assert At(u, p).record == u.table[p];
    RecordEntry(u, p, u.table[p].(pendingRequest := u.table[p].pendingRequest - 1));
    Chained(s, u, r, {k as int, p as int}, {p as int});
    assert {k as int, p as int} + {p as int} == {k as int, p as int};
  }

  /** hi is the first consumer of p from slot k on that refuses, or the end of the table. */
  ghost predicate AskedUpTo(s: Rm, p: nat, k: nat, hi: nat, env: nat -> Reply)
    requires Wf(s) && p < |s.table|
  {
    && k <= hi <= |s.table|
    && (forall i :: k <= i < hi && Present(s, p, i) ==> Good(AskCode(s.table[i], env(i))))
    && (hi < |s.table| ==> Present(s, p, hi) && !Good(AskCode(s.table[hi], env(hi))))
  }

  /** How many of the consumers in slots k to hi answer later. */
  function WaitCount(s: Rm, p: nat, k: nat, hi: nat, env: nat -> Reply): nat
    requires Wf(s) && p < |s.table| && hi <= |s.table|
    decreases hi - k
  {
    if k >= hi then 0
    else (if s.peers[p][k].Peer? && AskCode(s.table[k], env(k)) == -EINPROGRESS then 1 else 0)
         + WaitCount(s, p, k + 1, hi, env)
  }

  /** The resumes queued for the consumers in slots k to hi. */
  function AskedAll(s: Rm, p: nat, k: nat, hi: nat, env: nat -> Reply): seq<Work>
    requires Wf(s) && p < |s.table| && hi <= |s.table|
    decreases hi - k
  {
    if k >= hi then []
    else (if s.peers[p][k].Peer? then AskItems(s.table[k], k, s.table[p].maxBw, true, env(k)) else [])
         + AskedAll(s, p, k + 1, hi, env)
  }

  /** Only what stands in the slots from k on matters. */
  lemma {:induction false} LaterAsked(s: Rm, t: Rm, p: nat, k: nat, hi: nat, env: nat -> Reply)
    requires Wf(s) && Wf(t) && p < |s.table| == |t.table| && hi <= |s.table| && t.peers == s.peers
    requires t.table[p].maxBw == s.table[p].maxBw && !s.peers[p][p].Peer?
    requires forall i :: k <= i < |s.table| && i != p ==> t.table[i] == s.table[i]
    ensures WaitCount(t, p, k, hi, env) == WaitCount(s, p, k, hi, env)
    ensures AskedAll(t, p, k, hi, env) == AskedAll(s, p, k, hi, env)
    decreases hi - k
  {
    if k < hi {
      LaterAsked(s, t, p, k + 1, hi, env);
    }
  }

  /** The entry of p after the request loop: granted if nobody is waited for. */
  function RequesterEntry(s: Rm, p: nat, k: nat, hi: nat, env: nat -> Reply): Entry
    requires Wf(s) && p < |s.table| && hi <= |s.table|
  {
    var x := s.table[p];
    var waits := x.pendingRequest + WaitCount(s, p, k, hi, env);
    var e := At(s, p).(record := x.(pendingRequest := waits));
    if hi < |s.table| || waits != 0 then e else Voting(e.(record := e.record.(state := Granted)))
  }

  function RequestItems(s: Rm, p: nat, k: nat, hi: nat, env: nat -> Reply): seq<Work>
    requires Wf(s) && p < |s.table| && hi <= |s.table|
  {
    AskedAll(s, p, k, hi, env) +
    if hi < |s.table| || s.table[p].pendingRequest + WaitCount(s, p, k, hi, env) != 0 then []
    else [NotifyProd(p, GrantedEvent, true)]
  }

  function RequestCode(s: Rm, p: nat, k: nat, hi: nat, code: int, env: nat -> Reply): int
    requires Wf(s) && p < |s.table| && hi <= |s.table|
  {
    if hi < |s.table| then AskCode(s.table[hi], env(hi))
    else if s.table[p].pendingRequest + WaitCount(s, p, k, hi, env) == 0 then 0
    else if WaitCount(s, p, k, hi, env) > 0 then -EINPROGRESS else code
  }

  /** The entry of another name: asked, if p depends on it and the loop gets there. */
  function ConsumerEntry(s: Rm, p: nat, k: nat, hi: nat, env: nat -> Reply, i: nat): Entry
    requires Wf(s) && p < |s.table| && i < |s.table|
  {
    if k <= i <= hi && s.peers[p][i].Peer? then Asked(At(s, i), s.table[p].maxBw, env(i)) else At(s, i)
  }

  /** The outcome of the request loop from slot k on, entry by entry. */
  ghost predicate RequestedFrom(s: Rm, o: Out, p: nat, k: nat, hi: nat, code: int, env: nat -> Reply)
    requires Wf(s) && Wf(o.s) && p < |s.table| && hi <= |s.table|
  {
    && |o.s.table| == |s.table| && Elsewhere(s, o.s)
    && ConsumersAsked(s, o.s, p, k, hi, env)
    && At(o.s, p) == RequesterEntry(s, p, k, hi, env)
    && Items(o.s.queue) == Items(s.queue) + RequestItems(s, p, k, hi, env)
    && o.code == RequestCode(s, p, k, hi, code, env)
  }

  /** A producer comes to rest in state st and its clients are told. */
  lemma RestEntry(s: Rm, p: nat, st: State, event: Event)
    requires Wf(s) && p < |s.table| && s.table[p].live
    ensures var r := Enqueue(Perf(SetState(s, p, st), p), NotifyProd(p, event, true));
            && At(r, p) == Voting(At(s, p).(record := s.table[p].(state := st)))
            && SameExcept(s, r, {p as int}) && Elsewhere(s, r)
            && Items(r.queue) == Items(s.queue) + [NotifyProd(p, event, true)]
  {
    var t := SetState(s, p, st);
    RecordEntry(s, p, s.table[p].(state := st));
    PerfEntry(t, p);
    ItemsEnqueue(Perf(t, p), NotifyProd(p, event, true));
  }

  ghost predicate ConsumersAsked(s: Rm, r: Rm, p: nat, k: nat, hi: nat, env: nat -> Reply)
    requires Wf(s) && Wf(r) && p < |s.table| == |r.table|
  {
    forall i :: 0 <= i < |s.table| && i != p ==> At(r, i) == ConsumerEntry(s, p, k, hi, env, i)
  }

  lemma RequestGrants(s: Rm, r: Rm, p: nat, code: int, env: nat -> Reply)
    requires Wf(s) && Wf(r) && p < |s.table| && s.table[p].live && s.table[p].pendingRequest == 0
    requires r == Enqueue(Perf(SetState(s, p, Granted), p), NotifyProd(p, GrantedEvent, true))
    ensures RequestedFrom(s, Out(r, 0), p, |s.table|, |s.table|, code, env)
  {
    RestEntry(s, p, Granted, GrantedEvent);
  }

  lemma RequestWaits(s: Rm, p: nat, code: int, env: nat -> Reply)
    requires Wf(s) && p < |s.table| && s.table[p].pendingRequest != 0
    ensures RequestedFrom(s, Out(s, code), p, |s.table|, |s.table|, code, env)
  {
  }

  lemma RequestDone(s: Rm, p: nat, code: int, env: nat -> Reply)
    requires Wf(s) && p < |s.table| && s.table[p].live
    ensures RequestedFrom(s, RequestFrom(s, p, |s.table|, code, env), p, |s.table|, |s.table|, code, env)
  {
    var o := RequestFrom(s, p, |s.table|, code, env);
    if s.table[p].pendingRequest == 0 {
      RequestGrants(s, o.s, p, code, env);
    } else {
      RequestWaits(s, p, code, env);
    }
  }

  lemma TurnLeaves(s: Rm, t: Rm, p: nat, k: nat, reply: Reply)
    requires Wf(s) && Wf(t) && p < |s.table| && k < |s.table| && p != k && TurnOf(s, t, p, k, reply)
    ensures forall i :: 0 <= i < |s.table| && i != p && i != k ==> At(t, i) == At(s, i) && t.table[i] == s.table[i]
    ensures t.table[p].maxBw == s.table[p].maxBw
  {
    forall i | 0 <= i < |s.table| && i != p && i != k ensures t.table[i] == s.table[i] {
      assert At(t, i) == At(s, i);
    }
    assert At(t, p).record == t.table[p];
  }

  lemma RequestTurnEnd(s: Rm, t: Rm, p: nat, k: nat, hi: nat, code: int, env: nat -> Reply)
    requires Wf(s) && Wf(t) && p < |s.table| == |t.table| && k < hi <= |s.table| && t.peers == s.peers
    requires k != p && Present(s, p, k) && !s.peers[p][p].Peer? && TurnOf(s, t, p, k, env(k))
    requires Good(AskCode(s.table[k], env(k)))
    ensures var answer := AskCode(s.table[k], env(k));
            && RequesterEntry(t, p, k + 1, hi, env) == RequesterEntry(s, p, k, hi, env)
            && RequestCode(t, p, k + 1, hi, if answer == 0 then code else answer, env)
               == RequestCode(s, p, k, hi, code, env)
            && Items(t.queue) + RequestItems(t, p, k + 1, hi, env) == Items(s.queue) + RequestItems(s, p, k, hi, env)
  {
    TurnLeaves(s, t, p, k, env(k));
    LaterAsked(s, t, p, k + 1, hi, env);
    assert At(t, p).record == t.table[p];
    var rest := AskedAll(s, p, k + 1, hi, env);
    var first := AskItems(s.table[k], k, s.table[p].maxBw, true, env(k));
    assert AskedAll(s, p, k, hi, env) == first + rest;
    Reassociate(Items(s.queue), first, rest, RequestItems(t, p, k + 1, hi, env)[|rest|..]);
  }

  lemma Appended(a: seq<Work>, b: seq<Work>, c: seq<Work>)
    ensures (a + b) + c == a + (b + c)
  {
  }

  lemma Reassociate(a: seq<Work>, b: seq<Work>, c: seq<Work>, d: seq<Work>)
    ensures (a + b) + (c + d) == a + ((b + c) + d)
  {
  }

  lemma RequestTurn(s: Rm, t: Rm, o: Out, p: nat, k: nat, hi: nat, code: int, env: nat -> Reply)
    requires Wf(s) && Wf(t) && Wf(o.s) && p < |s.table| == |t.table| && k < hi <= |s.table| && t.peers == s.peers
    requires k != p && Present(s, p, k) && !s.peers[p][p].Peer? && TurnOf(s, t, p, k, env(k))
    requires var answer := AskCode(s.table[k], env(k));
             Good(answer) && RequestedFrom(t, o, p, k + 1, hi, if answer == 0 then code else answer, env)
    ensures RequestedFrom(s, o, p, k, hi, code, env)
  {
    TurnLeaves(s, t, p, k, env(k));
    RequestTurnEnd(s, t, p, k, hi, code, env);
    forall i | 0 <= i < |s.table| && i != p ensures At(o.s, i) == ConsumerEntry(s, p, k, hi, env, i) {
      assert At(o.s, i) == ConsumerEntry(t, p, k + 1, hi, env, i);
    }
  }

  lemma RequestSkip(s: Rm, o: Out, p: nat, k: nat, hi: nat, code: int, env: nat -> Reply)
    requires Wf(s) && Wf(o.s) && p < |s.table| && k < hi <= |s.table| && !Present(s, p, k)
    requires RequestedFrom(s, o, p, k + 1, hi, code, env)
    ensures RequestedFrom(s, o, p, k, hi, code, env)
  {
    forall i | 0 <= i < |s.table| && i != p ensures At(o.s, i) == ConsumerEntry(s, p, k, hi, env, i) {
      assert At(o.s, i) == ConsumerEntry(s, p, k + 1, hi, env, i);
    }
    assert AskedAll(s, p, k, hi, env) == AskedAll(s, p, k + 1, hi, env);
  }

  /** The consumer that refuses ends the loop. */
  lemma RequestRefusal(s: Rm, o: Out, p: nat, k: nat, code: int, env: nat -> Reply)
    requires Wf(s) && Wf(o.s) && p < |s.table| && k < |s.table| && k != p && Present(s, p, k)
    requires TurnOf(s, o.s, p, k, env(k)) && o.code == AskCode(s.table[k], env(k)) && !Good(o.code)
    ensures RequestedFrom(s, o, p, k, k, code, env)
  {
    TurnLeaves(s, o.s, p, k, env(k));
  }

  lemma {:induction false} RequestLoop(s: Rm, o: Out, p: nat, k: nat, hi: nat, code: int, env: nat -> Reply)
    requires Wf(s) && Symmetric(s) && p < |s.table| && k <= |s.table| && IsProd(p) && s.table[p].live
    requires AskedUpTo(s, p, k, hi, env) && o == RequestFrom(s, p, k, code, env)
    ensures RequestedFrom(s, o, p, k, hi, code, env)
    decreases |s.table| - k, 1
  {
    if k == |s.table| {
      RequestDone(s, p, code, env);
    } else if !Present(s, p, k) {
      RequestLoop(s, o, p, k + 1, hi, code, env);
      RequestSkip(s, o, p, k, hi, code, env);
    } else {
      assert !Present(s, p, p);
      RequestOneEntry(s, p, k, env(k));
      if k == hi {
        RequestRefusal(s, o, p, k, code, env);
      } else {
        RequestLoopTurn(s, RequestOne(s, p, k, env(k)), o, p, k, hi, code, env);
      }
    }
  }

  lemma {:induction false} RequestLoopTurn(s: Rm, t: Out, o: Out, p: nat, k: nat, hi: nat, code: int, env: nat -> Reply)
    requires Wf(s) && Symmetric(s) && p < |s.table| && k < |s.table| && IsProd(p) && s.table[p].live
    requires AskedUpTo(s, p, k, hi, env) && k < hi && k != p && Present(s, p, k)
    requires Wf(t.s) && SameGraph(s, t.s) && TurnOf(s, t.s, p, k, env(k)) && t.code == AskCode(s.table[k], env(k))
    requires o == RequestFrom(t.s, p, k + 1, if t.code == 0 then code else t.code, env)
    ensures RequestedFrom(s, o, p, k, hi, code, env)
    decreases |s.table| - k, 0
  {
    assert !Present(s, p, p);
    StillAskedUpTo(s, t.s, p, k, hi, env);
    RequestLoop(t.s, o, p, k + 1, hi, if t.code == 0 then code else t.code, env);
    RequestTurn(s, t.s, o, p, k, hi, code, env);
  }

  lemma StillAskedUpTo(s: Rm, t: Rm, p: nat, k: nat, hi: nat, env: nat -> Reply)
    requires Wf(s) && Symmetric(s) && Wf(t) && SameGraph(s, t) && p < |s.table| && k < hi && k != p
    requires AskedUpTo(s, p, k, hi, env) && TurnOf(s, t, p, k, env(k))
    ensures Symmetric(t) && t.table[p].live == s.table[p].live && AskedUpTo(t, p, k + 1, hi, env)
  {
    SymmetricFrame(s, t);
    TurnLeaves(s, t, p, k, env(k));
    assert !Present(s, p, p);
    forall i | 0 <= i < |s.table| ensures Present(t, p, i) == Present(s, p, i) {
    }
  }

  /** The first consumer of p from slot k on that refuses; the end of the table if none does. */
  function FirstRefusal(s: Rm, p: nat, k: nat, env: nat -> Reply): (hi: nat)
    requires Wf(s) && p < |s.table| && k <= |s.table|
    ensures AskedUpTo(s, p, k, hi, env)
    decreases |s.table| - k
  {
    if k == |s.table| || (s.peers[p][k].Peer? && !Good(AskCode(s.table[k], env(k)))) then k
    else FirstRefusal(s, p, k + 1, env)
  }

  /** A released producer as the request loop finds it. */
  function Requesting(s: Rm, p: nat): Rm
    requires p < |s.table|
  {
    s.(table := s.table[p := s.table[p].(state := RequestInProgress, pendingRequest := 0)])
  }

  /** ipa_rm_request_resource: what it does and returns, in every case. */
  lemma RequestEffects(s: Rm, p: nat, env: nat -> Reply)
    requires Structured(s)
    ensures var o := ApiRequest(s, p, env);
            && o.s == Step(s, OpRequest(p, env)) && o.s.peers == s.peers && o.s.count == s.count
            && o.s.nextPtr == s.nextPtr
            && if p >= |s.table| || p % 2 != 0 then o == Out(s, -EINVAL)
               else if !s.table[p].live then o == Out(s, -EPERM)
               else if s.table[p].state == Granted then o == Out(s, 0)
               else if s.table[p].state == RequestInProgress then o == Out(s, -EINPROGRESS)
               else RequestedFrom(Requesting(s, p), o, p, 0, FirstRefusal(Requesting(s, p), p, 0, env), 0, env)
  {
    if p < |s.table| && p % 2 == 0 && s.table[p].live && s.table[p].state == Released {
      var t := Requesting(s, p);
      SymmetricFrame(s, t);
      RequestLoop(t, ApiRequest(s, p, env), p, 0, FirstRefusal(t, p, 0, env), 0, env);
    }
  }

  lemma RefusesAlike(s: Rm, p: nat, i: nat, env: nat -> Reply)
    requires Structured(s) && p < |s.table| && i < |s.table|
    ensures var t := Requesting(s, p);
            RefusedAt(s, p, i, env) <==> t.peers[p][i].Peer? && !Good(AskCode(t.table[i], env(i)))
  {
    assert !Present(s, p, p);
  }

  lemma WillingAnswers(s: Rm, p: nat, env: nat -> Reply)
    requires Structured(s) && Lookup(s, p) && IsProd(p) && s.table[p].state == Released && Willing(s, p, 0, env)
    ensures var o := ApiRequest(s, p, env); var st := o.s.table[p].state;
            (o.code == 0 <==> st == Granted) && (o.code == -EINPROGRESS <==> st == RequestInProgress)
  {
    RequestEffects(s, p, env);
    var t := Requesting(s, p);
    var hi := FirstRefusal(t, p, 0, env);
    if hi < |s.table| {
      RefusesAlike(s, p, hi, env);
    }
    assert At(ApiRequest(s, p, env).s, p).record.state == RequesterEntry(t, p, 0, hi, env).record.state;
  }

  lemma RefusedAnswers(s: Rm, p: nat, env: nat -> Reply)
    requires Structured(s) && Lookup(s, p) && IsProd(p) && s.table[p].state == Released && !Willing(s, p, 0, env)
    ensures var o := ApiRequest(s, p, env);
            exists j :: 0 <= j < |s.table| && RefusedAt(s, p, j, env) && o.code == env(j).driver
              && o.s.table[p].state == RequestInProgress && forall i :: 0 <= i < j ==> !RefusedAt(s, p, i, env)
  {
    RequestEffects(s, p, env);
    var t := Requesting(s, p);
    var hi := FirstRefusal(t, p, 0, env);
    forall i | 0 <= i < |s.table|
      ensures RefusedAt(s, p, i, env) <==> t.peers[p][i].Peer? && !Good(AskCode(t.table[i], env(i)))
    {
      RefusesAlike(s, p, i, env);
    }
    assert RefusedAt(s, p, hi, env);
    assert At(ApiRequest(s, p, env).s, p).record.state == RequesterEntry(t, p, 0, hi, env).record.state;
  }

  /** p is willing if no consumer refuses: then the answer tells the client what it has got. */
  lemma RequestAnswers(s: Rm, p: nat, env: nat -> Reply)
    requires Structured(s) && Lookup(s, p) && IsProd(p)
    ensures var o := ApiRequest(s, p, env); var st := o.s.table[p].state;
            if s.table[p].state != Released || Willing(s, p, 0, env) then
              && (o.code == 0 <==> st == Granted)
              && (o.code == -EINPROGRESS <==> st == RequestInProgress)
            else
              exists j :: 0 <= j < |s.table| && RefusedAt(s, p, j, env) && o.code == env(j).driver
                && st == RequestInProgress && forall i :: 0 <= i < j ==> !RefusedAt(s, p, i, env)
  {
    if s.table[p].state == Released {
      if Willing(s, p, 0, env) {
        WillingAnswers(s, p, env);
      } else {
        RefusedAnswers(s, p, env);
      }
    }
  }

  // ----- a producer lets all its consumers go

  ghost predicate DropOf(s: Rm, t: Rm, p: nat, k: nat, reply: Reply)
    requires Wf(s) && Wf(t) && p < |s.table| && k < |s.table|
  {
    && SameExcept(s, t, {k as int}) && Elsewhere(s, t)
    && At(t, k) == Dropped(At(s, k), s.table[p].maxBw, true, reply)
    && Items(t.queue) == Items(s.queue) + DropItems(s.table[k], k, s.table[p].maxBw, true, reply)
  }

  lemma ReleaseOneEntry(s: Rm, p: nat, k: nat, reply: Reply)
    requires Wf(s) && p < |s.table| && k < |s.table| && p != k && s.table[k].live
    ensures DropOf(s, ReleaseOne(s, p, k, reply), p, k, reply)
  {
    var x := s.table[p];
    var t := AddPendingRelease(s, p, 1);
    RecordEntry(s, p, x.(pendingRelease := x.pendingRelease + 1));
    var u := ConsumerRelease(t, k, x.maxBw, true, reply).s;
    DropEntry(t, k, x.maxBw, true, reply);
    DropQueue(t, k, x.maxBw, true, reply);
    assert At(t, k) == At(s, k) && At(u, p) == At(t, p);
    RecordEntry(u, p, u.table[p].(pendingRelease := u.table[p].pendingRelease - 1));
    assert At(ReleaseOne(s, p, k, reply), p) == At(s, p);
  }

  /** The suspends queued for the consumers from slot k on. */
  function DropAll(s: Rm, p: nat, k: nat, env: nat -> Reply): seq<Work>
    requires Wf(s) && p < |s.table|
    decreases |s.table| - k
  {
    if k >= |s.table| then []
    else (if s.peers[p][k].Peer? then DropItems(s.table[k], k, s.table[p].maxBw, true, env(k)) else [])
         + DropAll(s, p, k + 1, env)
  }

  lemma {:induction false} LaterDropped(s: Rm, t: Rm, p: nat, k: nat, env: nat -> Reply)
    requires Wf(s) && Wf(t) && p < |s.table| == |t.table|
    requires t.table[p].maxBw == s.table[p].maxBw && !s.peers[p][p].Peer?
    requires forall i :: k <= i < |s.table| ==>
      t.peers[p][i] == s.peers[p][i] && (i != p ==> t.table[i] == s.table[i])
    ensures DropAll(t, p, k, env) == DropAll(s, p, k, env)
    decreases |s.table| - k
  {
    if k < |s.table| {
      LaterDropped(s, t, p, k + 1, env);
    }
  }

  /** The entry of another name: let go, if p depends on it and the loop is still to get there. */
  function DroppedEntry(s: Rm, p: nat, k: nat, env: nat -> Reply, i: nat): Entry
    requires Wf(s) && p < |s.table| && i < |s.table|
  {
    if k <= i && s.peers[p][i].Peer? then Dropped(At(s, i), s.table[p].maxBw, true, env(i)) else At(s, i)
  }

  /** The outcome of the release loop from slot k on, entry by entry. */
  ghost predicate ReleasedFrom(s: Rm, r: Rm, p: nat, k: nat, env: nat -> Reply)
    requires Wf(s) && Wf(r) && p < |s.table|
  {
    && |r.table| == |s.table| && Elsewhere(s, r)
    && ConsumersDropped(s, r, p, k, env)
    && At(r, p) == Voting(At(s, p).(record := s.table[p].(state := Released)))
    && Items(r.queue) == Items(s.queue) + (DropAll(s, p, k, env) + [NotifyProd(p, ReleasedEvent, true)])
  }

  ghost predicate ConsumersDropped(s: Rm, r: Rm, p: nat, k: nat, env: nat -> Reply)
    requires Wf(s) && Wf(r) && p < |s.table| == |r.table|
  {
    forall i :: 0 <= i < |s.table| && i != p ==> At(r, i) == DroppedEntry(s, p, k, env, i)
  }

  lemma ReleaseEnd(s: Rm, r: Rm, p: nat, env: nat -> Reply)
    requires Wf(s) && Wf(r) && p < |s.table| && s.table[p].live
    requires r == Enqueue(Perf(SetState(s, p, Released), p), NotifyProd(p, ReleasedEvent, true))
    ensures ReleasedFrom(s, r, p, |s.table|, env)
  {
    RestEntry(s, p, Released, ReleasedEvent);
  }

  lemma ReleaseDone(s: Rm, p: nat, env: nat -> Reply)
    requires Wf(s) && p < |s.table| && s.table[p].live && s.table[p].pendingRelease == 0
    ensures ReleasedFrom(s, ReleaseFrom(s, p, |s.table|, env), p, |s.table|, env)
  {
    ReleaseEnd(s, ReleaseFrom(s, p, |s.table|, env), p, env);
  }

  lemma ReleaseTurn(s: Rm, t: Rm, r: Rm, p: nat, k: nat, env: nat -> Reply)
    requires Wf(s) && Wf(t) && Wf(r) && p < |s.table| == |t.table| && k < |s.table| && t.peers == s.peers
    requires k != p && Present(s, p, k) && !s.peers[p][p].Peer? && DropOf(s, t, p, k, env(k))
    requires ReleasedFrom(t, r, p, k + 1, env)
    ensures ReleasedFrom(s, r, p, k, env)
  {
    forall i | 0 <= i < |s.table| && i != k ensures At(t, i) == At(s, i) && t.table[i] == s.table[i] {
      assert At(t, i).record == t.table[i];
    }
    LaterDropped(s, t, p, k + 1, env);
    forall i | 0 <= i < |s.table| && i != p ensures At(r, i) == DroppedEntry(s, p, k, env, i) {
      assert At(r, i) == DroppedEntry(t, p, k + 1, env, i);
    }
    Reassociate(Items(s.queue), DropItems(s.table[k], k, s.table[p].maxBw, true, env(k)),
                DropAll(s, p, k + 1, env), [NotifyProd(p, ReleasedEvent, true)]);
  }

  lemma ReleaseSkip(s: Rm, r: Rm, p: nat, k: nat, env: nat -> Reply)
    requires Wf(s) && Wf(r) && p < |s.table| && k < |s.table| && !Present(s, p, k)
    requires ReleasedFrom(s, r, p, k + 1, env)
    ensures ReleasedFrom(s, r, p, k, env)
  {
    forall i | 0 <= i < |s.table| && i != p ensures At(r, i) == DroppedEntry(s, p, k, env, i) {
      assert At(r, i) == DroppedEntry(s, p, k + 1, env, i);
    }
    assert DropAll(s, p, k, env) == DropAll(s, p, k + 1, env);
  }

  lemma StillReleasing(s: Rm, p: nat, k: nat, reply: Reply)
    requires Wf(s) && Symmetric(s) && p < |s.table| && k < |s.table| && IsProd(p) && Present(s, p, k)
    ensures var t := ReleaseOne(s, p, k, reply);
            && Symmetric(t) && t.table[p] == s.table[p] && DropOf(s, t, p, k, reply)
            && k != p && !Present(s, p, p)
  {
    assert !Present(s, p, p);
    var t := ReleaseOne(s, p, k, reply);
    ReleaseOneEntry(s, p, k, reply);
    SymmetricFrame(s, t);
    assert At(t, p) == At(s, p) && At(t, p).record == t.table[p];
  }

  lemma {:induction false} ReleaseLoop(s: Rm, r: Rm, p: nat, k: nat, env: nat -> Reply)
    requires Wf(s) && Symmetric(s) && p < |s.table| && k <= |s.table| && IsProd(p) && s.table[p].live
    requires s.table[p].pendingRelease == 0 && r == ReleaseFrom(s, p, k, env)
    ensures ReleasedFrom(s, r, p, k, env)
    decreases |s.table| - k, 1
  {
    if k == |s.table| {
      ReleaseDone(s, p, env);
    } else if !Present(s, p, k) {
      ReleaseLoop(s, r, p, k + 1, env);
      ReleaseSkip(s, r, p, k, env);
    } else {
      StillReleasing(s, p, k, env(k));
      ReleaseLoopTurn(s, ReleaseOne(s, p, k, env(k)), r, p, k, env);
    }
  }

  lemma {:induction false} ReleaseLoopTurn(s: Rm, t: Rm, r: Rm, p: nat, k: nat, env: nat -> Reply)
    requires Wf(s) && Wf(t) && Symmetric(t) && p < |s.table| == |t.table| && k < |s.table| && IsProd(p)
    requires s.table[p].live && s.table[p].pendingRelease == 0 && t.table[p] == s.table[p]
    requires k != p && Present(s, p, k) && !Present(s, p, p) && t.peers == s.peers && DropOf(s, t, p, k, env(k))
    requires r == ReleaseFrom(t, p, k + 1, env)
    ensures ReleasedFrom(s, r, p, k, env)
    decreases |s.table| - k, 0
  {
    ReleaseLoop(t, r, p, k + 1, env);
    ReleaseTurn(s, t, r, p, k, env);
  }

  /** ipa_rm_release_resource: what it does and returns, in every case. */
  lemma ReleaseEffects(s: Rm, p: nat, env: nat -> Reply)
    requires Structured(s)
    ensures var o := ApiRelease(s, p, env);
            && o.s == Step(s, OpRelease(p, env)) && o.s.peers == s.peers && o.s.count == s.count
            && o.s.nextPtr == s.nextPtr
            && if p >= |s.table| || p % 2 != 0 then o == Out(s, -EINVAL)
               else if !s.table[p].live then o == Out(s, -EPERM)
               else if s.table[p].state == Released then o == Out(s, 0)
               else o.code == 0 && ReleasedFrom(s, o.s, p, 0, env)
  {
    if p < |s.table| && p % 2 == 0 && s.table[p].live && s.table[p].state != Released {
      var t := Put(s, p, s.table[p].(state := ReleaseInProgress, pendingRelease := 0));
      SymmetricFrame(s, t);
      ReleaseLoop(t, ApiRelease(s, p, env).s, p, 0, env);
      assert !Present(s, p, p);
      ReleasingSame(s, t, ApiRelease(s, p, env).s, p, env);
    }
  }

  /** That the producer is releasing meanwhile shows nowhere in the outcome. */
  lemma ReleasingSame(s: Rm, t: Rm, r: Rm, p: nat, env: nat -> Reply)
    requires Wf(s) && Wf(t) && Wf(r) && p < |s.table| && !s.peers[p][p].Peer? && s.table[p].pendingRelease == 0
    requires t == Put(s, p, s.table[p].(state := ReleaseInProgress)) && ReleasedFrom(t, r, p, 0, env)
    ensures ReleasedFrom(s, r, p, 0, env)
  {
    LaterDropped(s, t, p, 0, env);
    forall i | 0 <= i < |s.table| && i != p ensures At(r, i) == DroppedEntry(s, p, 0, env, i) {
      assert At(r, i) == DroppedEntry(t, p, 0, env, i) && At(t, i) == At(s, i);
    }
  }
}
