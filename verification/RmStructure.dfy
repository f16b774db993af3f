/**
 * What holds in every reachable state whatever the drivers answer: the two
 * peers lists of an edge agree and point at live resources, a producer's
 * bandwidth demand is the sum over its consumers, and no producer rests in
 * ReleaseInProgress.
 */
module RmStructure {
  import opened Basics
  import opened Totals
  import opened RmModel

  // ----- integrity of the graph

  ghost predicate Present(s: Rm, i: int, j: int)
    requires Wf(s) && 0 <= i < |s.table| && 0 <= j < |s.table|
  {
    s.peers[i][j].Peer?
  }

  ghost predicate Symmetric(s: Rm)
    requires Wf(s)
  {
    forall i, j :: 0 <= i < |s.table| && 0 <= j < |s.table| && Present(s, i, j) ==>
      && i % 2 != j % 2
      && s.table[i].live && s.table[j].live
      && s.peers[i][j].ptr == s.table[j].ptr
      && s.peers[j][i] == Peer(s.table[i].ptr, s.peers[i][j].userspace)
  }

  function Slots(s: Rm, i: nat): seq<int>
    requires Wf(s) && i < |s.table|
  {
    seq(|s.table|, j requires 0 <= j < |s.table| => if s.peers[i][j].Peer? then 1 else 0)
  }

  ghost predicate Counted(s: Rm)
    requires Wf(s)
  {
    forall i :: 0 <= i < |s.table| ==> s.count[i] == Sum(Slots(s, i))
  }

  ghost predicate Allocated(s: Rm)
  {
    && (forall i :: 0 <= i < |s.table| && s.table[i].live ==> !Reserved(i) && s.table[i].ptr < s.nextPtr)
    && (forall i, j :: 0 <= i < j < |s.table| && s.table[i].live && s.table[j].live ==>
          s.table[i].ptr != s.table[j].ptr)
    && (forall i :: 0 <= i < |s.table| && !s.table[i].live ==> s.table[i] == NO_RESOURCE)
  }

  ghost predicate Integrity(s: Rm)
    requires Wf(s)
  {
    Symmetric(s) && Counted(s)
  }

  lemma SymmetricFrame(s: Rm, r: Rm)
    requires Wf(s) && Wf(r) && SameGraph(s, r) && Symmetric(s)
    ensures Symmetric(r)
  {
    assert forall i, j :: 0 <= i < |s.table| && 0 <= j < |s.table| ==> Present(r, i, j) == Present(s, i, j);
  }

  lemma IntegrityFrame(s: Rm, r: Rm)
    requires Wf(s) && Wf(r) && SameGraph(s, r) && Integrity(s)
    ensures Integrity(r)
  {
    forall i | 0 <= i < |s.table| ensures r.count[i] == Sum(Slots(r, i)) {
      assert Slots(r, i) == Slots(s, i);
    }
    SymmetricFrame(s, r);
  }

  function Weight(peer: Peer): int
  {
    if peer.Peer? then 1 else 0
  }

  lemma CountKept(s: Rm, i: nat, j: nat, peer: Peer)
    requires Wf(s) && i < |s.table| && j < |s.table| && Counted(s)
    ensures var r := SetPeer(s, i, j, peer, Weight(peer) - Weight(s.peers[i][j]));
            Wf(r) && Counted(r)
  {
    var r := SetPeer(s, i, j, peer, Weight(peer) - Weight(s.peers[i][j]));
    forall k | 0 <= k < |s.table| ensures r.count[k] == Sum(Slots(r, k)) {
      if k == i {
        assert Slots(r, i) == Slots(s, i)[j := Weight(peer)];
        SumUpdate(Slots(s, i), j, Weight(peer));
      } else {
        assert Slots(r, k) == Slots(s, k);
      }
    }
  }

  lemma EdgeAdded(s: Rm, p: nat, c: nat, userspace: bool)
    requires Wf(s) && p < |s.table| && c < |s.table| && p % 2 != c % 2
    requires s.table[p].live && s.table[c].live
    requires Integrity(s) && CheckDependency(s, p, c).None?
    ensures Integrity(AddPeer(AddPeer(s, p, c, userspace), c, p, userspace))
  {
    var t := AddPeer(s, p, c, userspace);
    CountKept(s, p, c, Peer(s.table[c].ptr, userspace));
    CountKept(t, c, p, Peer(s.table[p].ptr, userspace));
    var r := AddPeer(t, c, p, userspace);
    forall i, j | 0 <= i < |s.table| && 0 <= j < |s.table| && Present(r, i, j)
      ensures i % 2 != j % 2 && s.table[i].live && s.table[j].live
              && r.peers[i][j].ptr == r.table[j].ptr
              && r.peers[j][i] == Peer(r.table[i].ptr, r.peers[i][j].userspace)
    {
      assert (i == p && j == c) || (i == c && j == p) || Present(s, i, j);
    }
  }

  lemma EdgeRemoved(s: Rm, p: nat, c: nat)
    requires Wf(s) && p < |s.table| && c < |s.table| && p % 2 != c % 2
    requires Integrity(s) && Present(s, p, c)
    ensures Integrity(RemovePeer(RemovePeer(s, p, c), c, p))
  {
    var t := RemovePeer(s, p, c);
    assert s.peers[c][p].Peer?;
    CountKept(s, p, c, NoPeer);
    CountKept(t, c, p, NoPeer);
    var r := RemovePeer(t, c, p);
    forall i, j | 0 <= i < |s.table| && 0 <= j < |s.table| && Present(r, i, j)
      ensures i % 2 != j % 2 && s.table[i].live && s.table[j].live
              && r.peers[i][j].ptr == r.table[j].ptr
              && r.peers[j][i] == Peer(r.table[i].ptr, r.peers[i][j].userspace)
    {
      assert Present(s, i, j);
    }
  }

  // ----- which records an operation touches

  lemma RequestTouches(s: Rm, c: nat, bw: u32, inc: bool, wake: bool, reply: Reply)
    requires Wf(s) && c < |s.table|
    ensures var o := ConsumerRequest(s, c, bw, inc, wake, reply);
            o.s.table == s.table[c := o.s.table[c]]
  {
  }

  lemma ReleaseTouches(s: Rm, c: nat, bw: u32, dec: bool, reply: Reply)
    requires Wf(s) && c < |s.table|
    ensures var o := ConsumerRelease(s, c, bw, dec, reply);
            o.s.table == s.table[c := o.s.table[c]]
  {
  }

  function Notified(s: Rm, c: nat, ev: Event, k: nat): seq<Resource>
    requires Wf(s) && c < |s.table|
  {
    seq(|s.table|, i requires 0 <= i < |s.table| =>
      if k <= i && s.peers[c][i].Peer? then ProducerAfter(s.table[i], ev) else s.table[i])
  }

  /** The notification loop treats each dependent producer on its own record. */
  lemma {:induction false} NotifyTouches(s: Rm, c: nat, ev: Event, k: nat)
    requires Wf(s) && c < |s.table| && k <= |s.table|
    ensures NotifyFrom(s, c, ev, k).table == Notified(s, c, ev, k)
    decreases |s.table| - k
  {
    if k < |s.table| {
      var t := if s.peers[c][k].Peer? then ProducerHandleCb(s, k, ev) else s;
      assert t.table == if s.peers[c][k].Peer? then s.table[k := ProducerAfter(s.table[k], ev)] else s.table;
      NotifyTouches(t, c, ev, k + 1);
      assert forall i :: 0 <= i < |s.table| ==> Notified(t, c, ev, k + 1)[i] == Notified(s, c, ev, k)[i];
    } else {
      assert Notified(s, c, ev, k) == s.table;
    }
  }

  function Adjusted(s: Rm, i: nat, d: int, k: nat): seq<Resource>
    requires Wf(s) && i < |s.table|
  {
    seq(|s.table|, j requires 0 <= j < |s.table| =>
      if k <= j && s.peers[i][j].Peer? then s.table[j].(neededBw := Wrap(s.table[j].neededBw + d))
      else s.table[j])
  }

  lemma {:induction false} ProfileTouches(s: Rm, i: nat, d: int, k: nat)
    requires Wf(s) && i < |s.table| && k <= |s.table|
    ensures ProfileFrom(s, i, d, k).table == Adjusted(s, i, d, k)
    decreases |s.table| - k
  {
    if k < |s.table| {
      var t := if s.peers[i][k].Peer? then ProfileOne(s, k, d) else s;
      ProfileTouches(t, i, d, k + 1);
      assert Adjusted(t, i, d, k + 1) == Adjusted(s, i, d, k);
    } else {
      assert Adjusted(s, i, d, k) == s.table;
    }
  }

  // ----- the structural invariant

  function PeerBw(s: Rm, p: nat): seq<int>
    requires Wf(s) && p < |s.table|
  {
    seq(|s.table|, c requires 0 <= c < |s.table| =>
      if s.peers[p][c].Peer? then s.table[c].maxBw as int else 0)
  }

  /** A producer's demand is the sum of the maxima of its consumers. */
  ghost predicate ProducerSums(s: Rm)
    requires Wf(s)
  {
    forall p :: 0 <= p < |s.table| && IsProd(p) ==> s.table[p].neededBw == Wrap(Sum(PeerBw(s, p)))
  }

  /** No producer is in ReleaseInProgress or counts pending releases. */
  ghost predicate Settled(s: Rm)
  {
    forall p :: 0 <= p < |s.table| && IsProd(p) ==>
      s.table[p].state != ReleaseInProgress && s.table[p].pendingRelease == 0
  }

  /** Completion events are queued for consumers only. */
  ghost predicate EventsForConsumers(s: Rm)
  {
    && (forall k :: 0 <= k < |s.queue| && s.queue[k].ResourceCb? ==> IsCons(s.queue[k].c))
    && (s.inflight.Some? && s.inflight.value.ResourceCb? ==> IsCons(s.inflight.value.c))
  }

  ghost predicate Structured(s: Rm)
  {
    Wf(s) && Integrity(s) && Allocated(s) && ProducerSums(s) && Settled(s) && EventsForConsumers(s)
  }

  /** Only the record of x changes among the producers, and not its demand. */
  ghost predicate KeepsProducers(s: Rm, r: Rm, x: nat)
  {
    && SameGraph(s, r)
    && (forall i :: 0 <= i < |s.table| && IsProd(i) && i != x ==> r.table[i] == s.table[i])
    && (x < |s.table| && IsProd(x) ==> r.table[x].neededBw == s.table[x].neededBw)
    && (forall i :: 0 <= i < |s.table| && !s.table[i].live && i != x ==> r.table[i] == s.table[i])
  }

  lemma StructuredFrame(s: Rm, r: Rm)
    requires Structured(s) && Wf(r) && SameGraph(s, r) && EventsForConsumers(r)
    requires forall i :: 0 <= i < |s.table| && IsProd(i) ==>
      r.table[i].neededBw == s.table[i].neededBw &&
      r.table[i].state != ReleaseInProgress && r.table[i].pendingRelease == 0
    requires forall i :: 0 <= i < |s.table| && !s.table[i].live ==> r.table[i] == s.table[i]
    ensures Structured(r)
  {
    IntegrityFrame(s, r);
    forall p | 0 <= p < |s.table| && IsProd(p) ensures r.table[p].neededBw == Wrap(Sum(PeerBw(r, p))) {
      assert PeerBw(r, p) == PeerBw(s, p);
    }
  }

  lemma RequestOneKeeps(s: Rm, p: nat, k: nat, reply: Reply)
    requires Structured(s) && p < |s.table| && k < |s.table| && IsProd(p) && s.table[p].live
    requires Active(s.table[p].state) && Present(s, p, k)
    ensures var r := RequestOne(s, p, k, reply).s;
            KeepsProducers(s, r, p) && r.table[p].state == s.table[p].state && r.table[p].pendingRelease == 0
            && Structured(r)
  {
    var t := AddPending(s, p, 1);
    RequestTouches(t, k, t.table[p].maxBw, true, false, reply);
    StructuredFrame(s, RequestOne(s, p, k, reply).s);
  }

  lemma RequestDoneKeeps(s: Rm, p: nat, code: int, env: nat -> Reply)
    requires Wf(s) && p < |s.table| && IsProd(p) && s.table[p].live && Active(s.table[p].state)
    requires s.table[p].pendingRelease == 0
    ensures var r := RequestFrom(s, p, |s.table|, code, env).s;
            KeepsProducers(s, r, p) && Active(r.table[p].state) && r.table[p].pendingRelease == 0
  {
  }

  lemma {:induction false} RequestFromKeeps(s: Rm, p: nat, k: nat, code: int, env: nat -> Reply)
    requires Structured(s) && p < |s.table| && k <= |s.table| && IsProd(p) && s.table[p].live
    requires Active(s.table[p].state)
    ensures var r := RequestFrom(s, p, k, code, env).s;
            KeepsProducers(s, r, p) && Active(r.table[p].state) && r.table[p].pendingRelease == 0
    decreases |s.table| - k
  {
    if k < |s.table| {
      if Present(s, p, k) {
        var o := RequestOne(s, p, k, env(k));
        RequestOneKeeps(s, p, k, env(k));
        if o.code == 0 || o.code == -EINPROGRESS {
          var next := if o.code == 0 then code else o.code;
          RequestFromKeeps(o.s, p, k + 1, next, env);
          ProducersChain(s, o.s, RequestFrom(o.s, p, k + 1, next, env).s, p);
        }
      } else {
        RequestFromKeeps(s, p, k + 1, code, env);
      }
    } else {
      RequestDoneKeeps(s, p, code, env);
    }
  }

  lemma ProducersChain(a: Rm, b: Rm, c: Rm, x: nat)
    requires KeepsProducers(a, b, x) && KeepsProducers(b, c, x)
    ensures KeepsProducers(a, c, x)
  {
  }

  lemma ReleaseOneKeeps(s: Rm, p: nat, k: nat, reply: Reply)
    requires Wf(s) && Symmetric(s) && p < |s.table| && k < |s.table| && IsProd(p) && Present(s, p, k)
    ensures var r := ReleaseOne(s, p, k, reply);
            KeepsProducers(s, r, p) && r.table[p] == s.table[p] && Symmetric(r)
  {
    var r := ReleaseOne(s, p, k, reply);
    var u := AddPendingRelease(s, p, 1);
    ReleaseTouches(u, k, u.table[p].maxBw, true, reply);
    SymmetricFrame(s, r);
  }

  /** The release loop leaves nothing pending, so its last branch is always taken. */
  lemma {:induction false} ReleaseFromKeeps(s: Rm, p: nat, k: nat, env: nat -> Reply)
    requires Wf(s) && Symmetric(s) && p < |s.table| && k <= |s.table| && IsProd(p) && s.table[p].live
    requires s.table[p].pendingRelease == 0
    ensures var r := ReleaseFrom(s, p, k, env);
            KeepsProducers(s, r, p) && r.table[p] == s.table[p].(state := Released)
    decreases |s.table| - k
  {
    if k < |s.table| {
      if Present(s, p, k) {
        var t := ReleaseOne(s, p, k, env(k));
        ReleaseOneKeeps(s, p, k, env(k));
        ReleaseFromKeeps(t, p, k + 1, env);
        ProducersChain(s, t, ReleaseFrom(t, p, k + 1, env), p);
      } else {
        ReleaseFromKeeps(s, p, k + 1, env);
      }
    }
  }

  lemma RequestStructured(s: Rm, p: nat, env: nat -> Reply)
    requires Structured(s) && p < |s.table| && IsProd(p) && s.table[p].live
    ensures Structured(ProducerRequest(s, p, env).s)
  {
    var t := Put(s, p, s.table[p].(state := RequestInProgress, pendingRequest := 0));
    if s.table[p].state == Released {
      StructuredFrame(s, t);
      RequestFromKeeps(t, p, 0, 0, env);
      StructuredFrame(t, ProducerRequest(s, p, env).s);
    }
  }

  lemma ReleaseStructured(s: Rm, p: nat, env: nat -> Reply)
    requires Structured(s) && p < |s.table| && IsProd(p) && s.table[p].live
    ensures Structured(ProducerRelease(s, p, env).s)
    ensures ProducerRelease(s, p, env).s.table[p].state == Released
    ensures KeepsProducers(s, ProducerRelease(s, p, env).s, p)
  {
    var t := Put(s, p, s.table[p].(state := ReleaseInProgress, pendingRelease := 0));
    if s.table[p].state != Released {
      IntegrityFrame(s, t);
      ReleaseFromKeeps(t, p, 0, env);
      StructuredFrame(s, ProducerRelease(s, p, env).s);
    }
  }

  lemma ConsumerStructured(s: Rm, r: Rm, c: nat)
    requires Structured(s) && c < |s.table| && IsCons(c) && s.table[c].live
    requires Wf(r) && SameGraph(s, r) && r.table == s.table[c := r.table[c]]
    requires EventsForConsumers(r)
    ensures Structured(r)
  {
    StructuredFrame(s, r);
  }

  lemma HandleCbStructured(s: Rm, c: nat, ev: Event)
    requires Structured(s) && c < |s.table| && IsCons(c) && s.table[c].live
    ensures Structured(HandleCb(s, c, ev))
  {
    var r := HandleCb(s, c, ev);
    var t := if s.table[c].state == RequestInProgress then Perf(SetState(s, c, Granted), c)
             else SetState(s, c, Released);
    NotifyTouches(t, c, ev, 0);
    if r != s {
      assert r.table == Notified(t, c, ev, 0);
      forall i | 0 <= i < |s.table| && !s.table[i].live ensures r.table[i] == s.table[i] {
        assert !Present(s, c, i);
      }
      StructuredFrame(s, r);
    }
  }

  lemma NewEdgeSums(s: Rm, p: nat, c: nat, userspace: bool)
    requires Structured(s) && BothExist(s, p, c) && CheckDependency(s, p, c).None?
    ensures ProducerSums(NewEdge(s, p, c, userspace))
  {
    var t := NewEdge(s, p, c, userspace);
    assert t.table == s.table[p := t.table[p]];
    assert t.peers[p] == s.peers[p][c := t.peers[p][c]];
    forall q | 0 <= q < |s.table| && IsProd(q) ensures t.table[q].neededBw == Wrap(Sum(PeerBw(t, q))) {
      if q == p {
        assert PeerBw(t, p) == PeerBw(s, p)[c := s.table[c].maxBw];
        SumUpdate(PeerBw(s, p), c, s.table[c].maxBw);
        WrapAdd(Sum(PeerBw(s, p)), s.table[c].maxBw);
      } else {
        assert t.peers[q] == s.peers[q];
        assert PeerBw(t, q) == PeerBw(s, q);
      }
    }
  }

  lemma NewEdgeStructured(s: Rm, p: nat, c: nat, userspace: bool)
    requires Structured(s) && BothExist(s, p, c) && CheckDependency(s, p, c).None?
    ensures Structured(NewEdge(s, p, c, userspace))
  {
    var g := AddPeer(AddPeer(s, p, c, userspace), c, p, userspace);
    EdgeAdded(s, p, c, userspace);
    IntegrityFrame(g, NewEdge(s, p, c, userspace));
    NewEdgeSums(s, p, c, userspace);
  }

  /** Beyond the new edge, only the two records change, the producer's in state and count. */
  lemma AddTouches(s: Rm, p: nat, c: nat, userspace: bool, reply: Reply)
    requires Wf(s) && BothExist(s, p, c) && CheckDependency(s, p, c).None?
    ensures var t := NewEdge(s, p, c, userspace); var r := AddDependency(s, p, c, userspace, reply).s;
            && SameGraph(t, r) && Grows(t, r)
            && r.table == t.table[p := r.table[p]][c := r.table[c]]
            && r.table[p] == t.table[p].(state := r.table[p].state, pendingRequest := r.table[p].pendingRequest)
            && (r.table[p].state == t.table[p].state || r.table[p].state == RequestInProgress)
  {
    var t := NewEdge(s, p, c, userspace);
    if Active(t.table[p].state) {
      var u := AddPending(SetState(t, p, RequestInProgress), p, 1);
      RequestTouches(u, c, u.table[p].maxBw, true, false, reply);
      var o := ConsumerRequest(u, c, u.table[p].maxBw, true, false, reply);
      assert o.s.table == t.table[p := u.table[p]][c := o.s.table[c]];
    }
  }

  lemma AddStructured(s: Rm, p: nat, c: nat, userspace: bool, reply: Reply)
    requires Structured(s) && BothExist(s, p, c)
    ensures Structured(AddDependency(s, p, c, userspace, reply).s)
  {
    if CheckDependency(s, p, c).None? {
      NewEdgeStructured(s, p, c, userspace);
      AddTouches(s, p, c, userspace, reply);
      StructuredFrame(NewEdge(s, p, c, userspace), AddDependency(s, p, c, userspace, reply).s);
    }
  }

  /** What deletion does to the lists. */
  lemma DeleteGraph(s: Rm, p: nat, c: nat, userspace: bool, reply: Reply)
    requires Structured(s) && BothExist(s, p, c)
    ensures var r := DeleteDependency(s, p, c, userspace, reply).s;
            if Present(s, p, c) && s.peers[p][c].userspace == userspace
            then r.peers == s.peers[p := s.peers[p][c := NoPeer]][c := s.peers[c][p := NoPeer]]
            else r == s
  {
    assert Present(s, p, c) <==> Present(s, c, p);
  }

  lemma ForgetTouches(s: Rm, p: nat, c: nat)
    requires Structured(s) && BothExist(s, p, c)
    ensures var t := ForgetConsumer(s, p, c);
            && t.table == s.table[p := t.table[p]]
            && t.table[p].neededBw == Wrap(s.table[p].neededBw - s.table[c].maxBw as int)
            && t.table[p].pendingRelease == 0 && t.table[p].state != ReleaseInProgress
            && (Active(t.table[p].state) <==> Active(s.table[p].state))
  {
  }

  lemma CutSums(s: Rm, p: nat, c: nat)
    requires Structured(s) && BothExist(s, p, c) && Present(s, p, c)
    ensures ProducerSums(Cut(s, p, c))
  {
    ForgetTouches(s, p, c);
    var t := Cut(s, p, c);
    assert t.table == s.table[p := t.table[p]];
    assert t.peers[p] == s.peers[p][c := NoPeer];
    forall q | 0 <= q < |s.table| && IsProd(q) ensures t.table[q].neededBw == Wrap(Sum(PeerBw(t, q))) {
      if q == p {
        assert PeerBw(t, p) == PeerBw(s, p)[c := 0];
        SumUpdate(PeerBw(s, p), c, 0);
        WrapAdd(Sum(PeerBw(s, p)), -(s.table[c].maxBw as int));
      } else {
        assert t.peers[q] == s.peers[q];
        assert PeerBw(t, q) == PeerBw(s, q);
      }
    }
  }

  lemma CutStructured(s: Rm, p: nat, c: nat)
    requires Structured(s) && BothExist(s, p, c) && Present(s, p, c)
    ensures Structured(Cut(s, p, c))
  {
    assert Present(s, c, p);
    var f := ForgetConsumer(s, p, c);
    ForgetTouches(s, p, c);
    IntegrityFrame(s, f);
    assert Present(f, p, c);
    EdgeRemoved(f, p, c);
    CutSums(s, p, c);
  }

  lemma DeleteStructured(s: Rm, p: nat, c: nat, userspace: bool, reply: Reply)
    requires Structured(s) && BothExist(s, p, c)
    ensures Structured(DeleteDependency(s, p, c, userspace, reply).s)
  {
    DeleteGraph(s, p, c, userspace, reply);
    if Present(s, p, c) && s.peers[p][c].userspace == userspace {
      CutStructured(s, p, c);
      var t := Cut(s, p, c);
      ReleaseTouches(t, c, t.table[p].maxBw, true, reply);
      ConsumerStructured(t, DeleteDependency(s, p, c, userspace, reply).s, c);
    }
  }

  lemma DeleteOneStructured(s: Rm, i: nat, k: nat, reply: Reply)
    requires Structured(s) && Lookup(s, i) && k < |s.table|
    ensures var r := DeleteOne(s, i, k, reply);
            && Structured(r)
            && r.peers[i] == s.peers[i][k := NoPeer]
            && (forall a, b :: 0 <= a < |s.table| && 0 <= b < |s.table| && a != i && b != i ==>
                  r.peers[a][b] == s.peers[a][b])
  {
    if Present(s, i, k) {
      var p, c := if IsProd(i) then i else k, if IsProd(i) then k else i;
      assert Present(s, p, c) && BothExist(s, p, c);
      DeleteStructured(s, p, c, s.peers[i][k].userspace, reply);
      DeleteGraph(s, p, c, s.peers[i][k].userspace, reply);
    }
  }

  ghost predicate SlotKeeps(inv: (nat, Rm) -> bool, s: Rm, i: nat, j: nat, reply: Reply)
  {
    j < |s.table| && i < |s.table| && Wf(s) && inv(j, s) ==> inv(j + 1, DeleteOne(s, i, j, reply))
  }

  /** The rule of the deletion loop: what every turn takes on to the next slot holds at the end. */
  lemma {:induction false} DeleteLoop(inv: (nat, Rm) -> bool, s: Rm, i: nat, k: nat, env: nat -> Reply)
    requires Wf(s) && i < |s.table| && k <= |s.table| && inv(k, s)
    requires forall j: nat, t: Rm :: SlotKeeps(inv, t, i, j, env(j))
    ensures inv(|s.table|, DeleteFrom(s, i, k, env))
    decreases |s.table| - k
  {
    if k < |s.table| {
      assert SlotKeeps(inv, s, i, k, env(k));
      DeleteLoop(inv, DeleteOne(s, i, k, env(k)), i, k + 1, env);
    }
  }

  /** The deletion loop keeps the structure and empties the list of the resource. */
  lemma {:induction false} DeleteFromStructured(s: Rm, i: nat, k: nat, env: nat -> Reply)
    requires Structured(s) && Lookup(s, i) && k <= |s.table|
    requires forall j :: 0 <= j < k ==> s.peers[i][j] == NoPeer
    ensures var r := DeleteFrom(s, i, k, env);
            && Structured(r)
            && (forall j :: 0 <= j < |s.table| ==> r.peers[i][j] == NoPeer)
            && (forall a, b :: 0 <= a < |s.table| && 0 <= b < |s.table| && a != i && b != i ==>
                  r.peers[a][b] == s.peers[a][b])
    decreases |s.table| - k
  {
    if k < |s.table| {
      DeleteOneStructured(s, i, k, env(k));
      DeleteFromStructured(DeleteOne(s, i, k, env(k)), i, k + 1, env);
    }
  }

  lemma ClearStructured(s: Rm, i: nat)
    requires Structured(s) && i < |s.table|
    requires forall j :: 0 <= j < |s.table| ==> s.peers[i][j] == NoPeer
    ensures Structured(Clear(s, i))
  {
    var r := Clear(s, i);
    assert r.peers[i] == s.peers[i];
    assert r.peers == s.peers;
    forall a | 0 <= a < |s.table| ensures !Present(s, a, i) {
      assert !Present(s, i, a);
    }
    forall a | 0 <= a < |s.table| ensures r.count[a] == Sum(Slots(r, a)) {
      assert Slots(r, a) == Slots(s, a);
      if a == i { SumZeros(Slots(r, i)); }
    }
    forall a, b | 0 <= a < |s.table| && 0 <= b < |s.table| && Present(r, a, b)
      ensures a % 2 != b % 2 && r.table[a].live && r.table[b].live && r.peers[a][b].ptr == r.table[b].ptr
              && r.peers[b][a] == Peer(r.table[a].ptr, r.peers[a][b].userspace)
    {
      assert Present(s, a, b) && Present(s, b, a);
    }
    forall p | 0 <= p < |s.table| && IsProd(p) ensures r.table[p].neededBw == Wrap(Sum(PeerBw(r, p))) {
      if p == i { SumZeros(PeerBw(r, i)); } else { assert PeerBw(r, p) == PeerBw(s, p); }
    }
  }

  lemma DeleteResourceStructured(s: Rm, i: nat, env: nat -> Reply)
    requires Structured(s)
    ensures Structured(Delete(s, i, env).s)
  {
    if Lookup(s, i) {
      DeleteFromStructured(s, i, 0, env);
      var t := DeleteFrom(s, i, 0, env);
      if IsProd(i) {
        ReleaseStructured(t, i, env);
        t := ProducerRelease(t, i, env).s;
      }
      ClearStructured(t, i);
    }
  }

  lemma CreateStructured(s: Rm, i: nat, floor: int)
    requires Structured(s)
    ensures Structured(Create(s, i, floor).s)
  {
    var r := Create(s, i, floor).s;
    if r != s {
      forall j | 0 <= j < |s.table| ensures s.peers[i][j] == NoPeer && s.peers[j][i] == NoPeer {
        assert !Present(s, i, j) && !Present(s, j, i);
      }
      assert r.peers[i] == s.peers[i];
      assert r.peers == s.peers;
      forall a | 0 <= a < |s.table| ensures r.count[a] == Sum(Slots(r, a)) {
        assert Slots(r, a) == Slots(s, a);
        if a == i { SumZeros(Slots(r, i)); }
      }
      forall a, b | 0 <= a < |s.table| && 0 <= b < |s.table| && Present(r, a, b)
        ensures a % 2 != b % 2 && r.table[a].live && r.table[b].live && r.peers[a][b].ptr == r.table[b].ptr
                && r.peers[b][a] == Peer(r.table[a].ptr, r.peers[a][b].userspace)
      {
        assert Present(s, a, b);
      }
      forall p | 0 <= p < |s.table| && IsProd(p) ensures r.table[p].neededBw == Wrap(Sum(PeerBw(r, p))) {
        if p == i { SumZeros(PeerBw(r, i)); } else { assert PeerBw(r, p) == PeerBw(s, p); }
      }
    }
  }

  /** Changing one maximum moves the demand of the peers that depend on it. */
  ghost predicate ProfileShift(s: Rm, r: Rm, i: nat, max: u32)
    requires Wf(s) && i < |s.table|
  {
    && |r.table| == |s.table| && r.peers == s.peers && r.count == s.count && r.nextPtr == s.nextPtr
    && forall j :: 0 <= j < |s.table| ==> r.table[j] == s.table[j].(
         maxBw := if j == i then max else s.table[j].maxBw,
         neededBw := if Present(s, i, j) && (IsCons(i) || Active(s.table[i].state))
                     then Wrap(s.table[j].neededBw + (max as int - s.table[i].maxBw as int))
                     else s.table[j].neededBw)
  }

  lemma ProfileTable(s: Rm, i: nat, max: u32)
    requires Structured(s) && Lookup(s, i) && max != s.table[i].maxBw
    ensures ProfileShift(s, SetProfile(s, i, max), i, max)
  {
    var d := max as int - s.table[i].maxBw as int;
    var r := SetProfile(s, i, max);
    assert !Present(s, i, i);
    if IsCons(i) || Active(s.table[i].state) {
      var t := ProfileFrom(s, i, d, 0);
      ProfileTouches(s, i, d, 0);
      assert t.table == Adjusted(s, i, d, 0);
      assert r.table == t.table[i := t.table[i].(maxBw := max)];
    } else {
      assert r.table == s.table[i := s.table[i].(maxBw := max)];
    }
  }

  lemma ProfileSum(s: Rm, r: Rm, i: nat, max: u32, p: nat)
    requires Wf(s) && Symmetric(s) && Wf(r) && i < |s.table| && ProfileShift(s, r, i, max)
    requires p < |s.table| && IsProd(p) && s.table[p].neededBw == Wrap(Sum(PeerBw(s, p)))
    ensures r.table[p].neededBw == Wrap(Sum(PeerBw(r, p)))
  {
    if Present(s, p, i) {
      assert Present(s, i, p);
      assert PeerBw(r, p) == PeerBw(s, p)[i := max];
      SumUpdate(PeerBw(s, p), i, max);
      WrapAdd(Sum(PeerBw(s, p)), max as int - s.table[i].maxBw as int);
    } else {
      assert !Present(s, i, p);
      assert PeerBw(r, p) == PeerBw(s, p);
    }
  }

  lemma ProfileSums(s: Rm, r: Rm, i: nat, max: u32)
    requires Structured(s) && Wf(r) && Lookup(s, i) && max != s.table[i].maxBw
    requires ProfileShift(s, r, i, max)
    ensures ProducerSums(r)
  {
    forall p | 0 <= p < |s.table| && IsProd(p) ensures r.table[p].neededBw == Wrap(Sum(PeerBw(r, p))) {
      ProfileSum(s, r, i, max, p);
    }
  }

  lemma ProfileStructured(s: Rm, i: nat, max: u32)
    requires Structured(s) && Lookup(s, i)
    ensures Structured(SetProfile(s, i, max))
  {
    var r := SetProfile(s, i, max);
    if max != s.table[i].maxBw {
      ProfileTable(s, i, max);
      ProfileSums(s, r, i, max);
      forall a | 0 <= a < |s.table| ensures r.count[a] == Sum(Slots(r, a)) {
        assert Slots(r, a) == Slots(s, a);
      }
      forall a, b | 0 <= a < |s.table| && 0 <= b < |s.table| && Present(r, a, b)
        ensures a % 2 != b % 2 && r.table[a].live && r.table[b].live && r.peers[a][b].ptr == r.table[b].ptr
                && r.peers[b][a] == Peer(r.table[a].ptr, r.peers[a][b].userspace)
      {
        assert Present(s, a, b);
      }
      forall a | 0 <= a < |s.table| && !s.table[a].live ensures r.table[a] == s.table[a] {
        assert !Present(s, i, a);
      }
    }
  }

  lemma TimerRequestStructured(s: Rm, c: nat, reply: Reply)
    requires Structured(s)
    ensures Structured(TimerRequest(s, c, reply).s)
  {
    if c < |s.table| && IsCons(c) && Lookup(s, c) {
      RequestTouches(s, c, 0, false, true, reply);
      ConsumerStructured(s, TimerRequest(s, c, reply).s, c);
    }
  }

  lemma DelayedReleaseStructured(s: Rm, c: nat, reply: Reply)
    requires Structured(s)
    ensures Structured(DelayedRelease(s, c, reply))
  {
    if c < |s.table| && s.delayed[c] != 0 {
      var t := s.(delayed := s.delayed[c := s.delayed[c] - 1]);
      StructuredFrame(s, t);
      if IsCons(c) && Lookup(t, c) {
        ReleaseTouches(t, c, 0, false, reply);
        ConsumerStructured(t, DelayedRelease(s, c, reply), c);
      }
    }
  }

  lemma ResumeStructured(s: Rm, c: nat, prev: State, bw: u32, inc: bool, driver: int)
    requires Structured(s) && IsCons(c) && Lookup(s, c)
    ensures Structured(RequestWork(s, c, prev, bw, true, inc, driver).s)
  {
    if driver == 0 {
      HandleCbStructured(s, c, GrantedEvent);
    } else {
      ConsumerStructured(s, RequestWork(s, c, prev, bw, true, inc, driver).s, c);
    }
  }

  lemma SuspendStructured(s: Rm, c: nat, prev: State, driver: int)
    requires Structured(s) && IsCons(c) && Lookup(s, c)
    ensures Structured(ReleaseWork(s, c, prev, true, driver).s)
  {
    if driver != 0 && driver != -EINPROGRESS {
      ConsumerStructured(s, ReleaseWork(s, c, prev, true, driver).s, c);
    } else {
      var t := HandleCb(s, c, ReleasedEvent);
      HandleCbStructured(s, c, ReleasedEvent);
      StructuredFrame(t, Perf(t, c));
    }
  }

  lemma StartStructured(s: Rm)
    requires Structured(s)
    ensures Structured(StartWork(s))
  {
    var r := StartWork(s);
    if s.inflight.None? && |s.queue| > 0 {
      assert forall k :: 0 <= k < |r.queue| ==> r.queue[k] == s.queue[k + 1];
    }
    StructuredFrame(s, r);
  }

  lemma ExecuteStructured(s: Rm, w: Work, driver: int)
    requires Structured(s) && (w.ResourceCb? ==> IsCons(w.c))
    ensures Structured(Execute(s, w, driver))
  {
    match w
    case Resume(c, prev, bw, inc) =>
      if c < |s.table| && IsCons(c) {
        if Lookup(s, c) {
          ResumeStructured(s, c, prev, bw, inc, driver);
        } else {
          StructuredFrame(s, Vote(s, c, -1));
        }
      }
    case Suspend(c, prev, bw) =>
      if c < |s.table| && IsCons(c) && Lookup(s, c) {
        SuspendStructured(s, c, prev, driver);
      }
    case ResourceCb(c, ev) =>
      if Lookup(s, c) { HandleCbStructured(s, c, ev); }
    case NotifyProd(_, _, _) =>
    case NotifyIpa(v, b) => StructuredFrame(s, s.(profile := (v, b)));
  }

  lemma FinishStructured(s: Rm, driver: int)
    requires Structured(s)
    ensures Structured(FinishWork(s, driver))
  {
    if s.inflight.Some? {
      ExecuteStructured(s, s.inflight.value, driver);
      StructuredFrame(Execute(s, s.inflight.value, driver), FinishWork(s, driver));
    }
  }

  /** The operations that change no list. */
  lemma InnerStepStructured(s: Rm, op: Op)
    requires Structured(s) && !op.OpCreate? && !op.OpDelete? && !op.OpAdd? && !op.OpDel?
    ensures Structured(Step(s, op))
  {
    match op
    case OpRequest(p, env) => if IsProd(p) && Lookup(s, p) { RequestStructured(s, p, env); }
    case OpRelease(p, env) => if IsProd(p) && Lookup(s, p) { ReleaseStructured(s, p, env); }
    case OpTimerRequest(c, reply) => TimerRequestStructured(s, c, reply);
    case OpDelayedRelease(c, reply) => DelayedReleaseStructured(s, c, reply);
    case OpProfile(i, max) => if Lookup(s, i) { ProfileStructured(s, i, max); }
    case OpComplete(c, ev) => StructuredFrame(s, Step(s, op));
    case OpStartWork => StartStructured(s);
    case OpFinishWork(driver) => FinishStructured(s, driver);
  }

  /** Every step, with any answers from the drivers, keeps the structural invariant. */
  lemma StepStructured(s: Rm, op: Op)
    requires Structured(s)
    ensures Structured(Step(s, op))
  {
    match op
    case OpCreate(i, floor) => CreateStructured(s, i, floor);
    case OpDelete(i, env) => DeleteResourceStructured(s, i, env);
    case OpAdd(p, c, u, reply) => if BothExist(s, p, c) { AddStructured(s, p, c, u, reply); }
    case OpDel(p, c, u, reply) => if BothExist(s, p, c) { DeleteStructured(s, p, c, u, reply); }
    case _ => InnerStepStructured(s, op);
  }

  lemma InitStructured(n: nat)
    ensures Structured(Init(n))
  {
    var s := Init(n);
    forall i | 0 <= i < n ensures s.count[i] == Sum(Slots(s, i)) {
      SumZeros(Slots(s, i));
    }
    forall p | 0 <= p < n && IsProd(p) ensures s.table[p].neededBw == Wrap(Sum(PeerBw(s, p))) {
      SumZeros(PeerBw(s, p));
    }
  }

  lemma {:induction false} RunStructured(s: Rm, ops: seq<Op>)
    requires Structured(s)
    ensures Structured(Run(s, ops))
    decreases |ops|
  {
    if |ops| > 0 {
      StepStructured(s, ops[0]);
      RunStructured(Step(s, ops[0]), ops[1..]);
    }
  }

  // ----- edge ownership

  /** Deleting an endpoint, or deleting the edge as the side that owns it. */
  predicate MayRemove(op: Op, p: nat, c: nat, userspace: bool)
  {
    match op
    case OpDelete(i, _) => i == p || i == c
    case OpDel(p', c', u, _) => p' == p && c' == c && u == userspace
    case _ => false
  }

  lemma EdgeSurvivesDelete(s: Rm, i: nat, env: nat -> Reply, p: nat, c: nat)
    requires Structured(s) && p < |s.table| && c < |s.table| && i != p && i != c
    ensures Delete(s, i, env).s.peers[p][c] == s.peers[p][c]
  {
    if Lookup(s, i) {
      DeleteFromStructured(s, i, 0, env);
      var t := DeleteFrom(s, i, 0, env);
      assert IsProd(i) ==> ProducerRelease(t, i, env).s.peers == t.peers;
    }
  }

  lemma EdgeSurvivesAdd(s: Rm, p: nat, c: nat, userspace: bool, reply: Reply, p': nat, c': nat)
    requires Structured(s) && BothExist(s, p, c) && p' < |s.table| && c' < |s.table| && IsProd(p')
    requires Present(s, p', c')
    ensures AddDependency(s, p, c, userspace, reply).s.peers[p'][c'] == s.peers[p'][c']
  {
    assert Present(s, c', p');
    if CheckDependency(s, p, c).None? {
      AddTouches(s, p, c, userspace, reply);
    }
  }

  /** Only the four operations that create, delete, add and cut change a list. */
  lemma ListsStay(s: Rm, op: Op)
    requires Wf(s) && !op.OpCreate? && !op.OpDelete? && !op.OpAdd? && !op.OpDel?
    ensures Step(s, op).peers == s.peers
  {
  }

  lemma EdgeSurvives(s: Rm, op: Op, p: nat, c: nat)
    requires Structured(s) && p < |s.table| && c < |s.table| && IsProd(p) && Present(s, p, c)
    requires !MayRemove(op, p, c, s.peers[p][c].userspace)
    ensures Step(s, op).peers[p][c] == s.peers[p][c]
  {
    match op
    case OpCreate(i, floor) => assert Present(s, p, c);
    case OpDelete(i, env) => EdgeSurvivesDelete(s, i, env, p, c);
    case OpAdd(p', c', u, reply) => if BothExist(s, p', c') { EdgeSurvivesAdd(s, p', c', u, reply, p, c); }
    case OpDel(p', c', u, reply) => if BothExist(s, p', c') { DeleteGraph(s, p', c', u, reply); }
    case _ => ListsStay(s, op);
  }

  /** An edge outlives every run in which neither its owner deletes it nor an endpoint is deleted. */
  lemma {:induction false} EdgeSurvivesRun(s: Rm, ops: seq<Op>, p: nat, c: nat)
    requires Structured(s) && p < |s.table| && c < |s.table| && IsProd(p) && Present(s, p, c)
    requires forall k :: 0 <= k < |ops| ==> !MayRemove(ops[k], p, c, s.peers[p][c].userspace)
    ensures Run(s, ops).peers[p][c] == s.peers[p][c]
    decreases |ops|
  {
    if |ops| > 0 {
      StepStructured(s, ops[0]);
      EdgeSurvives(s, ops[0], p, c);
      EdgeSurvivesRun(Step(s, ops[0]), ops[1..], p, c);
    }
  }

  /** After deleting a resource no peers list mentions it. */
  lemma DeletedIsUnknown(s: Rm, i: nat, env: nat -> Reply, j: nat)
    requires Structured(s) && Lookup(s, i) && j < |s.table|
    ensures var r := Delete(s, i, env).s;
            !r.table[i].live && r.peers[j][i] == NoPeer && r.peers[i][j] == NoPeer
  {
    var r := Delete(s, i, env).s;
    DeleteResourceStructured(s, i, env);
    assert !Present(r, j, i) && !Present(r, i, j);
  }
}
