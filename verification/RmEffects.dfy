/** What adding and deleting dependencies do, entry by entry, and who may remove an edge. */
module RmEffects {
  import opened Basics
  import opened Totals
  import opened RmModel
  import opened RmStructure
  import opened RmCharges
  import opened RmOutcomes

  // ----- a new edge

  /** Both lists get an entry that points at the other resource and carries the owner's flag. */
  ghost predicate EdgeMade(s: Rm, r: Rm, p: nat, c: nat, userspace: bool)
    requires Wf(s) && p < |s.table| && c < |s.table|
  {
    && r.peers == s.peers[p := s.peers[p][c := Peer(s.table[c].ptr, userspace)]]
                         [c := s.peers[c][p := Peer(s.table[p].ptr, userspace)]]
    && r.count == s.count[p := s.count[p] + 1][c := s.count[c] + 1]
    && r.nextPtr == s.nextPtr
  }

  /** The producer of a new edge: it needs the consumer's maximum more, and waits if it must. */
  function Linked(e: Entry, c: Resource, code: int): Entry
  {
    var x := e.(record := e.record.(neededBw := Wrap(e.record.neededBw + c.maxBw)));
    if e.record.state != Granted && e.record.state != RequestInProgress then x
    else if code == -EINPROGRESS then
      x.(record := x.record.(state := RequestInProgress, pendingRequest := x.record.pendingRequest + 1))
    else Voting(x)
  }

  lemma NewEdgeEntry(s: Rm, p: nat, c: nat, userspace: bool)
    requires Wf(s) && p < |s.table| && c < |s.table| && p != c
    ensures var t := NewEdge(s, p, c, userspace); var x := s.table[p];
            && EdgeMade(s, t, p, c, userspace) && t.queue == s.queue && Elsewhere(s, t)
            && At(t, p) == At(s, p).(record := x.(neededBw := Wrap(x.neededBw + s.table[c].maxBw)))
            && SameExcept(s, t, {p as int})
  {
    var t := NewEdge(s, p, c, userspace);
    assert t.peers[p] == s.peers[p][c := Peer(s.table[c].ptr, userspace)];
  }

  /** An active producer with its new edge, about to ask. */
  function Linking(s: Rm, p: nat, c: nat, userspace: bool): (u: Rm)
    requires Wf(s) && p < |s.table| && c < |s.table|
    ensures Wf(u) && |u.table| == |s.table|
  {
    AddPending(SetState(NewEdge(s, p, c, userspace), p, RequestInProgress), p, 1)
  }

  function LinkingEntry(e: Entry, c: Resource): Entry
  {
    e.(record := e.record.(neededBw := Wrap(e.record.neededBw + c.maxBw), state := RequestInProgress,
                           pendingRequest := e.record.pendingRequest + 1))
  }

  lemma LinkingIs(s: Rm, p: nat, c: nat, userspace: bool)
    requires Wf(s) && p < |s.table| && c < |s.table| && p != c
    ensures var u := Linking(s, p, c, userspace);
            && EdgeMade(s, u, p, c, userspace) && u.queue == s.queue && Elsewhere(s, u)
            && At(u, p) == LinkingEntry(At(s, p), s.table[c]) && SameExcept(s, u, {p as int})
  {
    var t := NewEdge(s, p, c, userspace);
    NewEdgeEntry(s, p, c, userspace);
    assert At(t, p).record == t.table[p];
    RecordEntry(t, p, LinkingEntry(At(s, p), s.table[c]).record);
    assert Linking(s, p, c, userspace) == Put(t, p, LinkingEntry(At(s, p), s.table[c]).record);
  }

  lemma LinkingAsks(s: Rm, u: Rm, p: nat, c: nat, userspace: bool, reply: Reply)
    requires Wf(s) && Wf(u) && p < |s.table| == |u.table| && c < |s.table| && p != c && s.table[c].live
    requires EdgeMade(s, u, p, c, userspace) && u.queue == s.queue && Elsewhere(s, u)
    requires At(u, p) == LinkingEntry(At(s, p), s.table[c]) && SameExcept(s, u, {p as int})
    ensures var o := ConsumerRequest(u, c, s.table[p].maxBw, true, false, reply);
            && EdgeMade(s, o.s, p, c, userspace) && Elsewhere(s, o.s) && o.code == AskCode(s.table[c], reply)
            && SameExcept(s, o.s, {p as int, c as int}) && At(o.s, p) == LinkingEntry(At(s, p), s.table[c])
            && At(o.s, c) == Asked(At(s, c), s.table[p].maxBw, reply)
            && Items(o.s.queue) == Items(s.queue) + AskItems(s.table[c], c, s.table[p].maxBw, true, reply)
  {
    assert At(u, c) == At(s, c) && At(u, c).record == u.table[c];
    AskedEntry(u, c, s.table[p].maxBw, reply);
    AskedItems(u, c, s.table[p].maxBw, true, false, reply);
  }

  /** A new edge is made; if the producer is active, the consumer is asked. */
  ghost predicate Links(s: Rm, o: Out, p: nat, c: nat, userspace: bool, reply: Reply)
    requires Wf(s) && Wf(o.s) && p < |s.table| && c < |s.table|
  {
    var active := s.table[p].state == Granted || s.table[p].state == RequestInProgress;
    && EdgeMade(s, o.s, p, c, userspace) && Elsewhere(s, o.s) && SameExcept(s, o.s, {p as int, c as int})
    && o.code == (if active then AskCode(s.table[c], reply) else 0)
    && At(o.s, p) == Linked(At(s, p), s.table[c], o.code)
    && At(o.s, c) == (if active then Asked(At(s, c), s.table[p].maxBw, reply) else At(s, c))
    && Items(o.s.queue) == Items(s.queue) +
         if active then AskItems(s.table[c], c, s.table[p].maxBw, true, reply) else []
  }

  lemma ActiveAddEntry(s: Rm, p: nat, c: nat, userspace: bool, reply: Reply)
    requires Wf(s) && BothExist(s, p, c) && CheckDependency(s, p, c).None? && Active(s.table[p].state)
    ensures Links(s, AddDependency(s, p, c, userspace, reply), p, c, userspace, reply)
  {
    var u := Linking(s, p, c, userspace);
    LinkingIs(s, p, c, userspace);
    LinkingAsks(s, u, p, c, userspace, reply);
    var o := ConsumerRequest(u, c, s.table[p].maxBw, true, false, reply);
    assert At(u, p).record == u.table[p];
    if o.code == -EINPROGRESS {
      assert AddDependency(s, p, c, userspace, reply) == o;
    } else {
      var r := Perf(AddPending(SetState(o.s, p, s.table[p].state), p, -1), p);
      AddReturns(s, o.s, p, c);
      assert AddDependency(s, p, c, userspace, reply) == Out(r, o.code);
      LinksAtOnce(s, o, r, p, c, userspace, reply);
    }
  }

  lemma LinksAtOnce(s: Rm, o: Out, r: Rm, p: nat, c: nat, userspace: bool, reply: Reply)
    requires Wf(s) && Wf(o.s) && Wf(r) && p < |s.table| && c < |s.table| && p != c && Active(s.table[p].state)
    requires EdgeMade(s, o.s, p, c, userspace) && Elsewhere(s, o.s) && SameExcept(s, o.s, {p as int, c as int})
    requires o.code == AskCode(s.table[c], reply) && o.code != -EINPROGRESS
    requires At(o.s, c) == Asked(At(s, c), s.table[p].maxBw, reply)
    requires Items(o.s.queue) == Items(s.queue) + AskItems(s.table[c], c, s.table[p].maxBw, true, reply)
    requires r.peers == o.s.peers && r.count == o.s.count && r.nextPtr == o.s.nextPtr
    requires At(r, p) == Linked(At(s, p), s.table[c], 0) && SameExcept(o.s, r, {p as int}) && Elsewhere(o.s, r)
    requires Items(r.queue) == Items(o.s.queue)
    ensures Links(s, Out(r, o.code), p, c, userspace, reply)
  {
  }

  /** The producer that need not wait gets its state and count back, and votes. */
  lemma AddReturns(s: Rm, v: Rm, p: nat, c: nat)
    requires Wf(s) && Wf(v) && p < |s.table| == |v.table| && c < |s.table| && p != c
    requires s.table[p].live && Active(s.table[p].state) && At(v, p) == LinkingEntry(At(s, p), s.table[c])
    ensures var r := Perf(AddPending(SetState(v, p, s.table[p].state), p, -1), p);
            && At(r, p) == Linked(At(s, p), s.table[c], 0) && SameExcept(v, r, {p as int}) && Elsewhere(v, r)
            && Items(r.queue) == Items(v.queue)
  {
    var w := AddPending(SetState(v, p, s.table[p].state), p, -1);
    var x := s.table[p].(neededBw := Wrap(s.table[p].neededBw + s.table[c].maxBw));
    assert At(v, p).record == v.table[p];
    assert w == Put(v, p, x);
    RecordEntry(v, p, x);
    PerfEntry(w, p);
  }

  lemma AddEntry(s: Rm, p: nat, c: nat, userspace: bool, reply: Reply)
    requires Wf(s) && BothExist(s, p, c) && CheckDependency(s, p, c).None?
    ensures Links(s, AddDependency(s, p, c, userspace, reply), p, c, userspace, reply)
  {
    if Active(s.table[p].state) {
      ActiveAddEntry(s, p, c, userspace, reply);
    } else {
      NewEdgeEntry(s, p, c, userspace);
      assert AddDependency(s, p, c, userspace, reply) == Out(NewEdge(s, p, c, userspace), 0);
    }
  }

  /** ipa_rm_add_dependency: what it does and returns, in every case. */
  lemma AddEffects(s: Rm, p: nat, c: nat, userspace: bool, reply: Reply)
    requires Structured(s)
    ensures var o := ApiAdd(s, p, c, userspace, reply);
            && o.s == Step(s, OpAdd(p, c, userspace, reply))
            && if !(p < |s.table| && c < |s.table| && p % 2 == 0 && c % 2 == 1 && s.table[p].live && s.table[c].live)
               then o == Out(s, -EINVAL)
               else if Present(s, p, c) then o == Out(s, -EEXIST)
               else Links(s, o, p, c, userspace, reply)
  {
    if p < |s.table| && c < |s.table| && p % 2 == 0 && c % 2 == 1 && s.table[p].live && s.table[c].live {
      assert Present(s, p, c) <==> Present(s, c, p);
      if !Present(s, p, c) {
        AddEntry(s, p, c, userspace, reply);
      }
    }
  }

  // ----- an edge removed

  ghost predicate EdgeGone(s: Rm, r: Rm, p: nat, c: nat)
    requires Wf(s) && p < |s.table| && c < |s.table|
  {
    && r.peers == s.peers[p := s.peers[p][c := NoPeer]][c := s.peers[c][p := NoPeer]]
    && r.count == s.count[p := s.count[p] - 1][c := s.count[c] - 1]
    && r.nextPtr == s.nextPtr
  }

  /** A waiting producer that loses a consumer in progress and waits for nobody else. */
  predicate Freed(p: Resource, c: Resource)
  {
    p.state == RequestInProgress && c.state == RequestInProgress && 0 <= p.pendingRequest <= 1
  }

  /** The producer of a removed edge: it needs less, counts one less, and may be granted by it. */
  function Unlinked(e: Entry, c: Resource): Entry
  {
    var x := e.(record := e.record.(neededBw := Wrap(e.record.neededBw - c.maxBw as int)));
    if e.record.state == Granted then Voting(x)
    else if e.record.state != RequestInProgress then x
    else
      var x := x.(record := x.record.(pendingRequest :=
        if x.record.pendingRequest > 0 then x.record.pendingRequest - 1 else x.record.pendingRequest));
      if Freed(e.record, c) then Voting(x.(record := x.record.(state := Granted))) else x
  }

  function UnlinkedItems(p: nat, x: Resource, c: Resource): seq<Work>
  {
    if Freed(x, c) then [NotifyProd(p, GrantedEvent, false)] else []
  }

  /** The record of a waiting producer after it has forgotten a consumer, not granted yet. */
  function Waiting(x: Resource, c: Resource): Resource
  {
    x.(neededBw := Wrap(x.neededBw - c.maxBw as int),
       pendingRequest := if x.pendingRequest > 0 then x.pendingRequest - 1 else x.pendingRequest)
  }

  lemma FreedEntry(s: Rm, p: nat, c: nat)
    requires Wf(s) && p < |s.table| && c < |s.table| && p != c && s.table[p].live && Freed(s.table[p], s.table[c])
    ensures var t := Put(s, p, Waiting(s.table[p], s.table[c]));
            var r := Enqueue(Perf(SetState(t, p, Granted), p), NotifyProd(p, GrantedEvent, false));
            && At(r, p) == Unlinked(At(s, p), s.table[c]) && SameExcept(s, r, {p as int}) && Elsewhere(s, r)
            && Items(r.queue) == Items(s.queue) + [NotifyProd(p, GrantedEvent, false)]
  {
    var y := Waiting(s.table[p], s.table[c]).(state := Granted);
    var u := SetState(Put(s, p, Waiting(s.table[p], s.table[c])), p, Granted);
    assert u == Put(s, p, y);
    RecordEntry(s, p, y);
    PerfEntry(u, p);
    ItemsEnqueue(Perf(u, p), NotifyProd(p, GrantedEvent, false));
  }

  lemma WaitingForgets(s: Rm, p: nat, c: nat)
    requires Wf(s) && p < |s.table| && c < |s.table| && p != c
    requires s.table[p].live && s.table[p].state == RequestInProgress && !Freed(s.table[p], s.table[c])
    ensures ForgetConsumer(s, p, c) == Put(s, p, Waiting(s.table[p], s.table[c]))
  {
  }

  lemma FreedForgets(s: Rm, p: nat, c: nat)
    requires Wf(s) && p < |s.table| && c < |s.table| && p != c && s.table[p].live && Freed(s.table[p], s.table[c])
    ensures ForgetConsumer(s, p, c) ==
              Enqueue(Perf(SetState(Put(s, p, Waiting(s.table[p], s.table[c])), p, Granted), p),
                      NotifyProd(p, GrantedEvent, false))
  {
  }

  lemma ForgetEntry(s: Rm, p: nat, c: nat)
    requires Wf(s) && p < |s.table| && c < |s.table| && p != c
    requires s.table[p].live && s.table[p].state != ReleaseInProgress
    ensures var r := ForgetConsumer(s, p, c);
            && At(r, p) == Unlinked(At(s, p), s.table[c]) && SameExcept(s, r, {p as int}) && Elsewhere(s, r)
            && Items(r.queue) == Items(s.queue) + UnlinkedItems(p, s.table[p], s.table[c])
  {
    if Freed(s.table[p], s.table[c]) {
      FreedForgets(s, p, c);
      FreedEntry(s, p, c);
    } else if s.table[p].state == RequestInProgress {
      WaitingForgets(s, p, c);
      RecordEntry(s, p, Waiting(s.table[p], s.table[c]));
    } else {
      var x := s.table[p].(neededBw := Wrap(s.table[p].neededBw - s.table[c].maxBw as int));
      RecordEntry(s, p, x);
      PerfEntry(Put(s, p, x), p);
    }
  }

  /** Both list entries, the producer's share, and the consumer if it was in use by p. */
  ghost predicate Unlinks(s: Rm, r: Rm, p: nat, c: nat, reply: Reply)
    requires Wf(s) && Wf(r) && p < |s.table| && c < |s.table|
  {
    var active := s.table[p].state == Granted || s.table[p].state == RequestInProgress;
    && EdgeGone(s, r, p, c) && Elsewhere(s, r) && SameExcept(s, r, {p as int, c as int})
    && At(r, p) == Unlinked(At(s, p), s.table[c])
    && At(r, c) == (if active then Dropped(At(s, c), s.table[p].maxBw, true, reply) else At(s, c))
    && Items(r.queue) == Items(s.queue) + (UnlinkedItems(p, s.table[p], s.table[c]) +
         if active then DropItems(s.table[c], c, s.table[p].maxBw, true, reply) else [])
  }

  lemma CutIs(s: Rm, p: nat, c: nat)
    requires Wf(s) && p < |s.table| && c < |s.table| && p != c
    ensures Cut(s, p, c) ==
              ForgetConsumer(s, p, c).(peers := s.peers[p := s.peers[p][c := NoPeer]][c := s.peers[c][p := NoPeer]],
                                       count := s.count[p := s.count[p] - 1][c := s.count[c] - 1])
  {
  }

  lemma CutEntry(s: Rm, p: nat, c: nat)
    requires Structured(s) && BothExist(s, p, c)
    ensures var t := Cut(s, p, c);
            && EdgeGone(s, t, p, c) && Elsewhere(s, t) && SameExcept(s, t, {p as int})
            && At(t, p) == Unlinked(At(s, p), s.table[c])
            && Items(t.queue) == Items(s.queue) + UnlinkedItems(p, s.table[p], s.table[c])
  {
    CutIs(s, p, c);
    ForgetEntry(s, p, c);
    CutSame(s, ForgetConsumer(s, p, c), Cut(s, p, c), p);
  }

  lemma CutSame(s: Rm, f: Rm, t: Rm, p: nat)
    requires Wf(s) && Wf(f) && Wf(t) && t == f.(peers := t.peers, count := t.count)
    requires p < |s.table| && SameExcept(s, f, {p as int})
    ensures At(t, p) == At(f, p) && SameExcept(s, t, {p as int})
  {
    forall i | 0 <= i < |s.table| ensures At(t, i) == At(f, i) {
    }
  }

  lemma UnlinkDrops(s: Rm, t: Rm, r: Rm, p: nat, c: nat, reply: Reply)
    requires Wf(s) && Wf(t) && p < |s.table| == |t.table| && c < |s.table| && p != c && s.table[c].live
    requires Active(s.table[p].state) && At(t, p) == Unlinked(At(s, p), s.table[c])
    requires EdgeGone(s, t, p, c) && Elsewhere(s, t) && SameExcept(s, t, {p as int})
    requires Items(t.queue) == Items(s.queue) + UnlinkedItems(p, s.table[p], s.table[c])
    requires r == ConsumerRelease(t, c, s.table[p].maxBw, true, reply).s
    ensures Unlinks(s, r, p, c, reply)
  {
    assert At(t, c) == At(s, c) && At(t, c).record == t.table[c];
    DropEntry(t, c, s.table[p].maxBw, true, reply);
    DropQueue(t, c, s.table[p].maxBw, true, reply);
    Chained(s, t, r, {p as int}, {c as int});
    assert {p as int} + {c as int} == {p as int, c as int};
    assert At(r, p) == At(t, p);
    Appended(Items(s.queue), UnlinkedItems(p, s.table[p], s.table[c]),
             DropItems(s.table[c], c, s.table[p].maxBw, true, reply));
  }

  lemma DeleteIs(s: Rm, p: nat, c: nat, reply: Reply)
    requires Wf(s) && p < |s.table| && c < |s.table| && Present(s, c, p)
    ensures var t := Cut(s, p, c);
            DeleteDependency(s, p, c, s.peers[c][p].userspace, reply).s ==
              if Active(s.table[p].state) then ConsumerRelease(t, c, t.table[p].maxBw, true, reply).s else t
  {
  }

  lemma DeleteEntry(s: Rm, p: nat, c: nat, reply: Reply)
    requires Structured(s) && BothExist(s, p, c) && Present(s, p, c)
    ensures Unlinks(s, DeleteDependency(s, p, c, s.peers[p][c].userspace, reply).s, p, c, reply)
  {
    assert Present(s, c, p);
    CutEntry(s, p, c);
    DeleteIs(s, p, c, reply);
    if Active(s.table[p].state) {
      UnlinkDrops(s, Cut(s, p, c), DeleteDependency(s, p, c, s.peers[p][c].userspace, reply).s, p, c, reply);
    }
  }

  /** ipa_rm_delete_dependency: what it does and returns, in every case. */
  lemma DeleteEffects(s: Rm, p: nat, c: nat, userspace: bool, reply: Reply)
    requires Structured(s)
    ensures var o := ApiDelete(s, p, c, userspace, reply);
            && o.s == Step(s, OpDel(p, c, userspace, reply))
            && if !(p < |s.table| && c < |s.table| && p % 2 == 0 && c % 2 == 1 && s.table[p].live && s.table[c].live)
               then o == Out(s, -EINVAL)
               else if !Present(s, p, c) then o == Out(s, -EINVAL)
               else if s.peers[p][c].userspace != userspace then o == Out(s, 0)
               else o.code == 0 && Unlinks(s, o.s, p, c, reply)
  {
    if p < |s.table| && c < |s.table| && p % 2 == 0 && c % 2 == 1 && s.table[p].live && s.table[c].live {
      assert Present(s, p, c) <==> Present(s, c, p);
      if Present(s, p, c) && s.peers[p][c].userspace == userspace {
        DeleteEntry(s, p, c, reply);
      }
    }
  }

  // ----- edge ownership

  /** An edge added by one side outlives every run in which that side does not delete it and no
      endpoint is deleted; the other side's deletion does nothing, that side's own removes it. */
  lemma OwnedEdge(s: Rm, p: nat, c: nat, userspace: bool, reply: Reply, ops: seq<Op>, last: Reply)
    requires Structured(s) && BothExist(s, p, c) && !Present(s, p, c)
    requires forall k :: 0 <= k < |ops| ==> !MayRemove(ops[k], p, c, userspace)
    ensures var r := Run(Step(s, OpAdd(p, c, userspace, reply)), ops);
            && BothExist(r, p, c) && Present(r, p, c) && Present(r, c, p)
            && r.peers[p][c].userspace == userspace && r.peers[c][p].userspace == userspace
            && Step(r, OpDel(p, c, !userspace, last)) == r
            && var t := Step(r, OpDel(p, c, userspace, last));
               t.peers[p][c] == NoPeer && t.peers[c][p] == NoPeer
  {
    var t := Step(s, OpAdd(p, c, userspace, reply));
    AddEffects(s, p, c, userspace, reply);
    StepStructured(s, OpAdd(p, c, userspace, reply));
    assert t.peers[p][c] == Peer(s.table[c].ptr, userspace) && Present(t, p, c);
    EdgeSurvivesRun(t, ops, p, c);
    RunStructured(t, ops);
    OwnerDeletes(Run(t, ops), p, c, userspace, last);
  }

  lemma OwnerDeletes(r: Rm, p: nat, c: nat, userspace: bool, last: Reply)
    requires Structured(r) && IsProd(p) && IsCons(c) && p < |r.table| && c < |r.table|
    requires Present(r, p, c) && r.peers[p][c].userspace == userspace
    ensures BothExist(r, p, c) && Present(r, c, p) && r.peers[c][p].userspace == userspace
    ensures Step(r, OpDel(p, c, !userspace, last)) == r
    ensures var t := Step(r, OpDel(p, c, userspace, last)); t.peers[p][c] == NoPeer && t.peers[c][p] == NoPeer
  {
    assert Present(r, c, p);
    DeleteEffects(r, p, c, !userspace, last);
    DeleteEffects(r, p, c, userspace, last);
  }
}
