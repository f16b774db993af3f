/** What deleting a resource leaves of every entry, of its own and of its peers'. */
module RmRemoval {
  import opened Basics
  import opened Totals
  import opened RmModel
  import opened RmStructure
  import opened RmCharges
  import opened RmLedger
  import opened RmAccounts
  import opened RmOutcomes
  import opened RmEffects

  /** The queued items that change resources, in order. */
  function Orders(q: seq<Work>): seq<Work>
  {
    if |q| == 0 then []
    else Orders(q[..|q| - 1]) + if q[|q| - 1].NotifyIpa? || q[|q| - 1].NotifyProd? then [] else [q[|q| - 1]]
  }

  lemma {:induction false} OrdersAppend(q: seq<Work>, a: seq<Work>)
    ensures Orders(q + a) == Orders(q) + Orders(a)
    decreases |a|
  {
    if |a| == 0 {
      assert q + a == q;
    } else {
      assert (q + a)[..|q + a| - 1] == q + a[..|a| - 1];
      OrdersAppend(q, a[..|a| - 1]);
    }
  }

  lemma {:induction false} OrdersOfItems(q: seq<Work>)
    ensures Orders(q) == Orders(Items(q))
    decreases |q|
  {
    if |q| > 0 {
      var last := if q[|q| - 1].NotifyIpa? then [] else [q[|q| - 1]];
      OrdersOfItems(q[..|q| - 1]);
      OrdersAppend(Items(q[..|q| - 1]), last);
      if !q[|q| - 1].NotifyIpa? {
        assert last[..0] == [];
      }
    }
  }

  /** Items added without notifications are orders added. */
  lemma OrdersGrow(s: Rm, r: Rm, notes: seq<Work>, orders: seq<Work>)
    requires Items(r.queue) == Items(s.queue) + (notes + orders)
    requires |notes| <= 1 && (|notes| == 1 ==> notes[0].NotifyProd?)
    requires |orders| <= 1 && (|orders| == 1 ==> orders[0].Suspend?)
    ensures Orders(r.queue) == Orders(s.queue) + orders
  {
    OrdersOfItems(s.queue);
    OrdersOfItems(r.queue);
    OrdersAppend(Items(s.queue), notes + orders);
    OrdersAppend(notes, orders);
    if |notes| == 1 { assert notes[..0] == []; }
    if |orders| == 1 { assert orders[..0] == [] && Orders(orders) == orders; }
    assert Orders(notes) == [];
    assert Orders(orders) == orders;
  }

  // ----- deleting a producer

  predicate Busy(x: Resource)
  {
    x.state == Granted || x.state == RequestInProgress
  }

  /** The entry of another name: let go, if the deleted producer was active and depended on it. */
  function Orphaned(s: Rm, p: nat, env: nat -> Reply, i: nat): Entry
    requires Wf(s) && p < |s.table| && i < |s.table|
  {
    if Busy(s.table[p]) && s.peers[p][i].Peer? then Dropped(At(s, i), s.table[p].maxBw, true, env(i)) else At(s, i)
  }

  ghost predicate SlotsCleared(s: Rm, t: Rm, i: nat, k: nat)
    requires Wf(s) && Wf(t) && i < |s.table| == |t.table|
  {
    forall j :: 0 <= j < |s.table| ==> t.peers[i][j] == if j < k then NoPeer else s.peers[i][j]
  }

  /** When the deletion loop of producer p reaches slot k. */
  ghost predicate OrphanedBelow(s: Rm, t: Rm, p: nat, k: nat, env: nat -> Reply)
  {
    && Structured(s) && Structured(t) && p < |s.table| == |t.table| && k <= |s.table|
    && Lookup(t, p) && IsProd(p) && Elsewhere(s, t) && t.nextPtr == s.nextPtr
    && Busy(t.table[p]) == Busy(s.table[p]) && t.table[p].maxBw == s.table[p].maxBw
    && At(t, p) == At(s, p).(record := t.table[p], volt := t.volt[p], bw := t.bw[p])
    && (!Busy(s.table[p]) ==> t.volt[p] == s.volt[p] && t.bw[p] == s.bw[p])
    && SlotsCleared(s, t, p, k)
    && OrphanedOthers(s, t, p, k, env)
    && Orders(t.queue) + (if Busy(s.table[p]) then DropAll(t, p, k, env) else []) ==
       Orders(s.queue) + (if Busy(s.table[p]) then DropAll(s, p, 0, env) else [])
  }

  ghost predicate OrphanedOthers(s: Rm, t: Rm, p: nat, k: nat, env: nat -> Reply)
    requires Wf(s) && Wf(t) && p < |s.table| == |t.table|
  {
    forall i :: 0 <= i < |s.table| && i != p ==> At(t, i) == if i < k then Orphaned(s, p, env, i) else At(s, i)
  }

  lemma UnlinkedKeeps(e: Entry, c: Resource)
    ensures var u := Unlinked(e, c);
            && Busy(u.record) == Busy(e.record) && u.record.maxBw == e.record.maxBw
            && u == e.(record := u.record, volt := u.volt, bw := u.bw)
            && (!Busy(e.record) ==> u.volt == e.volt && u.bw == e.bw)
  {
  }

  /** One edge less: what is left to queue is the same as before, less what has been queued. */
  lemma OrphanOrders(t: Rm, r: Rm, p: nat, k: nat, env: nat -> Reply)
    requires Wf(t) && Wf(r) && p < |t.table| == |r.table| && k < |t.table| && p != k
    requires t.peers[p][k].Peer? && !t.peers[p][p].Peer? && r.table[p].maxBw == t.table[p].maxBw
    requires r.peers[p] == t.peers[p][k := NoPeer]
    requires forall i :: k + 1 <= i < |t.table| && i != p ==> r.table[i] == t.table[i]
    ensures DropAll(t, p, k, env) ==
              DropItems(t.table[k], k, t.table[p].maxBw, true, env(k)) + DropAll(r, p, k + 1, env)
  {
    LaterDropped(t, r, p, k + 1, env);
  }

  lemma OrphanQueue(t: Rm, r: Rm, p: nat, k: nat, env: nat -> Reply)
    requires Wf(t) && Wf(r) && p < |t.table| == |r.table| && k < |t.table| && p != k
    requires t.peers[p][k].Peer? && !t.peers[p][p].Peer? && r.table[p].maxBw == t.table[p].maxBw
    requires r.peers[p] == t.peers[p][k := NoPeer]
    requires forall i :: 0 <= i < |t.table| && i != p && i != k ==> r.table[i] == t.table[i]
    requires Items(r.queue) == Items(t.queue) + (UnlinkedItems(p, t.table[p], t.table[k]) +
               if Busy(t.table[p]) then DropItems(t.table[k], k, t.table[p].maxBw, true, env(k)) else [])
    ensures Orders(r.queue) + (if Busy(t.table[p]) then DropAll(r, p, k + 1, env) else []) ==
            Orders(t.queue) + (if Busy(t.table[p]) then DropAll(t, p, k, env) else [])
  {
    var drops := if Busy(t.table[p]) then DropItems(t.table[k], k, t.table[p].maxBw, true, env(k)) else [];
    OrdersGrow(t, r, UnlinkedItems(p, t.table[p], t.table[k]), drops);
    if Busy(t.table[p]) {
      OrphanOrders(t, r, p, k, env);
      Appended(Orders(t.queue), drops, DropAll(r, p, k + 1, env));
    }
  }

  /** The turn of a consumer that p does depend on. */
  lemma OrphanStep(s: Rm, t: Rm, r: Rm, p: nat, k: nat, env: nat -> Reply)
    requires OrphanedBelow(s, t, p, k, env) && k < |s.table| && Present(t, p, k)
    requires Structured(r) && Lookup(r, p) && Unlinks(t, r, p, k, env(k)) && |r.table| == |t.table|
    ensures OrphanedBelow(s, r, p, k + 1, env)
  {
    assert !Present(t, p, p) && k != p;
    assert At(t, k) == At(s, k) && At(t, k).record == t.table[k] && At(s, k).record == s.table[k];
    assert At(r, p).record == r.table[p] && At(t, p).record == t.table[p];
    UnlinkedKeeps(At(t, p), t.table[k]);
    assert r.peers[p] == t.peers[p][k := NoPeer];
    forall i | 0 <= i < |t.table| && i != p && i != k ensures At(r, i) == At(t, i) && r.table[i] == t.table[i] {
      assert At(r, i).record == r.table[i];
    }
    OrphanQueue(t, r, p, k, env);
  }

  lemma OrphanOne(s: Rm, t: Rm, p: nat, k: nat, env: nat -> Reply)
    requires OrphanedBelow(s, t, p, k, env) && k < |s.table| && Present(t, p, k)
    ensures OrphanedBelow(s, DeleteOne(t, p, k, env(k)), p, k + 1, env)
  {
    DeleteEntry(t, p, k, env(k));
    DeleteOneStructured(t, p, k, env(k));
    OrphanStep(s, t, DeleteOne(t, p, k, env(k)), p, k, env);
  }

  lemma OrphanTurn(s: Rm, t: Rm, p: nat, k: nat, env: nat -> Reply)
    requires OrphanedBelow(s, t, p, k, env) && k < |s.table|
    ensures OrphanedBelow(s, DeleteOne(t, p, k, env(k)), p, k + 1, env)
  {
    if Present(t, p, k) {
      OrphanOne(s, t, p, k, env);
    } else {
      assert s.peers[p][k] == t.peers[p][k];
      assert Busy(s.table[p]) ==> DropAll(t, p, k, env) == DropAll(t, p, k + 1, env);
    }
  }

  lemma {:induction false} DropNone(s: Rm, p: nat, k: nat, env: nat -> Reply)
    requires Wf(s) && p < |s.table| && forall j :: 0 <= j < |s.table| ==> s.peers[p][j] == NoPeer
    ensures DropAll(s, p, k, env) == []
    decreases |s.table| - k
  {
    if k < |s.table| {
      DropNone(s, p, k + 1, env);
    }
  }

  ghost function OrphanedUpTo(s: Rm, p: nat, env: nat -> Reply): (nat, Rm) -> bool
  {
    (j: nat, t: Rm) => OrphanedBelow(s, t, p, j, env)
  }

  lemma OrphanedKeeps(s: Rm, t: Rm, p: nat, j: nat, env: nat -> Reply)
    ensures SlotKeeps(OrphanedUpTo(s, p, env), t, p, j, env(j))
  {
    if j < |t.table| && p < |t.table| && Wf(t) && OrphanedBelow(s, t, p, j, env) {
      OrphanTurn(s, t, p, j, env);
    }
  }

  lemma DeleteLoopOrphans(s: Rm, p: nat, env: nat -> Reply)
    requires Structured(s) && Lookup(s, p) && IsProd(p)
    ensures OrphanedBelow(s, DeleteFrom(s, p, 0, env), p, |s.table|, env)
  {
    forall j: nat, t: Rm ensures SlotKeeps(OrphanedUpTo(s, p, env), t, p, j, env(j)) {
      OrphanedKeeps(s, t, p, j, env);
    }
    DeleteLoop(OrphanedUpTo(s, p, env), s, p, 0, env);
  }

  /** Deleting a producer: its consumers are let go if it was active, no other name is touched, and
      of its own entry the record is gone and the votes of an active one are. */
  ghost predicate ProducerGone(s: Rm, r: Rm, p: nat, env: nat -> Reply)
    requires Wf(s) && Wf(r) && p < |s.table|
  {
    var busy := Busy(s.table[p]);
    && |r.table| == |s.table| && Elsewhere(s, r) && r.nextPtr == s.nextPtr
    && (forall i :: 0 <= i < |s.table| && i != p ==> At(r, i) == Orphaned(s, p, env, i))
    && At(r, p) == At(s, p).(record := Resource(false, 0, 0, 0, 0, Released, 0, 0, 0),
                             volt := if busy then 0 else s.volt[p], bw := if busy then 0 else s.bw[p])
    && Orders(r.queue) == Orders(s.queue) + (if busy then DropAll(s, p, 0, env) else [])
  }

  /** The release that remains touches p alone. */
  lemma LastReleaseEntry(t: Rm, p: nat, env: nat -> Reply)
    requires Structured(t) && Lookup(t, p) && IsProd(p) && forall j :: 0 <= j < |t.table| ==> t.peers[p][j] == NoPeer
    ensures var u := ProducerRelease(t, p, env).s;
            && SameExcept(t, u, {p as int}) && Elsewhere(t, u) && u.nextPtr == t.nextPtr
            && At(u, p) == At(t, p).(record := u.table[p], volt := if Busy(t.table[p]) then 0 else t.volt[p],
                                     bw := if Busy(t.table[p]) then 0 else t.bw[p])
            && Orders(u.queue) == Orders(t.queue)
  {
    if Busy(t.table[p]) {
      var u := ProducerRelease(t, p, env).s;
      ReleaseEffects(t, p, env);
      DropNone(t, p, 0, env);
      OrdersGrow(t, u, [NotifyProd(p, ReleasedEvent, true)], []);
      forall i | 0 <= i < |t.table| && i != p ensures At(u, i) == At(t, i) {
        assert At(u, i) == DroppedEntry(t, p, 0, env, i);
      }
    }
  }

  lemma ClearEntry(u: Rm, p: nat)
    requires Wf(u) && p < |u.table|
    ensures var r := Clear(u, p);
            && SameExcept(u, r, {p as int}) && Elsewhere(u, r) && r.nextPtr == u.nextPtr && r.queue == u.queue
            && At(r, p) == At(u, p).(record := Resource(false, 0, 0, 0, 0, Released, 0, 0, 0))
  {
  }

  lemma LastRelease(s: Rm, t: Rm, p: nat, env: nat -> Reply)
    requires OrphanedBelow(s, t, p, |s.table|, env)
    ensures ProducerGone(s, Clear(ProducerRelease(t, p, env).s, p), p, env)
  {
    var u := ProducerRelease(t, p, env).s;
    DropNone(t, p, |s.table|, env);
    LastReleaseEntry(t, p, env);
    ClearEntry(u, p);
  }

  /** ipa_rm_delete_resource for a producer. */
  lemma DeleteProducerEffects(s: Rm, p: nat, env: nat -> Reply)
    requires Structured(s) && Lookup(s, p) && IsProd(p)
    ensures ProducerGone(s, Step(s, OpDelete(p, env)), p, env) && Delete(s, p, env).code == 0
  {
    DeleteLoopOrphans(s, p, env);
    LastRelease(s, DeleteFrom(s, p, 0, env), p, env);
  }

  // ----- deleting a consumer

  /** The suspend that the last user's release queues, if any. */
  function LastDrops(s: Rm, c: nat, env: nat -> Reply): seq<Work>
    requires Wf(s) && c < |s.table|
  {
    var last := LastUser(s, c, |s.table|);
    var st := s.table[c].state;
    if last.Some? && (st == RequestInProgress || (st == Granted && !env(last.value).noBlock))
    then [Suspend(c, st, s.table[last.value].maxBw)] else []
  }

  /** The clock vote that the last user's release drops at once, if it does. */
  function LastClocks(s: Rm, c: nat, env: nat -> Reply): int
    requires Wf(s) && c < |s.table|
  {
    var last := LastUser(s, c, |s.table|);
    if last.Some? && s.table[c].state == Granted && env(last.value).noBlock then 1 else 0
  }

  /** The last user of c stands in slot k or later. */
  predicate UsedFrom(s: Rm, c: nat, k: nat)
    requires Wf(s) && c < |s.table|
  {
    var last := LastUser(s, c, |s.table|);
    last.Some? && last.value >= k
  }

  /** When the deletion loop of consumer c reaches slot k. */
  ghost predicate RelievedBelow(s: Rm, t: Rm, c: nat, k: nat, env: nat -> Reply)
  {
    && Wf(s) && Wf(t) && c < |s.table| == |t.table| && k <= |s.table| && Lookup(t, c) && IsCons(c)
    && Elsewhere(s, t) && t.nextPtr == s.nextPtr
    && t.table[c].maxBw == s.table[c].maxBw && t.owed[c] == s.owed[c] && t.delayed[c] == s.delayed[c]
    && SlotsCleared(s, t, c, k)
    && RelievedOthers(s, t, c, k) && RelievedSelf(s, t, c, k, env)
  }

  ghost predicate RelievedOthers(s: Rm, t: Rm, c: nat, k: nat)
    requires Wf(s) && Wf(t) && c < |s.table| == |t.table|
  {
    forall i :: 0 <= i < |s.table| && i != c ==>
      At(t, i) == if i < k && s.peers[c][i].Peer? then Unlinked(At(s, i), s.table[c]) else At(s, i)
  }

  ghost predicate RelievedSelf(s: Rm, t: Rm, c: nat, k: nat, env: nat -> Reply)
    requires Wf(s) && Wf(t) && c < |s.table| == |t.table|
  {
    if UsedFrom(s, c, k) then
      t.table[c].state == s.table[c].state && t.clk[c] == s.clk[c] && Orders(t.queue) == Orders(s.queue)
    else
      && t.clk[c] == s.clk[c] - LastClocks(s, c, env)
      && Orders(t.queue) == Orders(s.queue) + LastDrops(s, c, env)
  }

  lemma UnlinkedDepends(e: Entry, c: Resource, d: Resource)
    requires c.maxBw == d.maxBw && (c.state == d.state || e.record.state != RequestInProgress)
    ensures Unlinked(e, c) == Unlinked(e, d)
  {
  }

  /** From slot k on the users of c are those of the beginning. */
  lemma StillUsers(s: Rm, t: Rm, c: nat, k: nat, env: nat -> Reply)
    requires Structured(t) && RelievedBelow(s, t, c, k, env)
    ensures forall p :: 0 <= p < |s.table| ==> UserOf(t, p, c) == (k <= p && UserOf(s, p, c))
  {
    assert !Present(t, c, c);
    forall p | 0 <= p < |s.table| ensures UserOf(t, p, c) == (k <= p && UserOf(s, p, c)) {
      if p != c && k <= p {
        assert At(t, p) == At(s, p) && At(t, p).record == t.table[p];
      } else if p == c && k <= c {
        assert t.peers[c][c] == s.peers[c][c];
      }
    }
  }

  /** What the release by user k does to c itself. */
  lemma RelievedUse(s: Rm, t: Rm, r: Rm, c: nat, k: nat, env: nat -> Reply)
    requires Wf(s) && Wf(t) && Wf(r) && c < |s.table| == |t.table| == |r.table| && k < |s.table| && k != c
    requires IsCons(c) && Charged(t) && Charged(r) && UserOf(t, k, c) && UserOf(s, k, c)
    requires forall p :: 0 <= p < |s.table| ==> UserOf(t, p, c) == (k <= p && UserOf(s, p, c))
    requires forall p :: 0 <= p < |s.table| ==> UserOf(r, p, c) == (p != k && UserOf(t, p, c))
    requires t.table[k].maxBw == s.table[k].maxBw && RelievedSelf(s, t, c, k, env)
    requires At(r, c) == Dropped(At(t, c), t.table[k].maxBw, true, env(k))
    requires Orders(r.queue) == Orders(t.queue) + DropItems(t.table[c], c, t.table[k].maxBw, true, env(k))
    ensures RelievedSelf(s, r, c, k + 1, env)
  {
    var n := |s.table|;
    var last := LastUser(s, c, n);
    assert last.Some? && last.value >= k;
    HeldIsActive(t, n, {}, k, c);
    assert At(r, c).record == r.table[c] && At(t, c).record == t.table[c];
    if last.value == k {
      WithoutUsers(r, c);
    } else {
      assert UserOf(r, last.value, c);
      HeldIsActive(r, n, {}, last.value, c);
    }
  }

  /** Which producers use c once its edge to k is cut. */
  lemma UsersLeft(t: Rm, r: Rm, c: nat, k: nat, reply: Reply)
    requires Structured(t) && Wf(r) && c < |t.table| == |r.table| && k < |t.table| && k != c && IsCons(c)
    requires Unlinks(t, r, k, c, reply)
    ensures forall p :: 0 <= p < |t.table| ==> UserOf(r, p, c) == (p != k && UserOf(t, p, c))
  {
    assert !Present(t, c, c);
    forall p | 0 <= p < |t.table| ensures UserOf(r, p, c) == (p != k && UserOf(t, p, c)) {
      if p != k && p != c {
        assert At(r, p) == At(t, p) && At(r, p).record == r.table[p] && At(t, p).record == t.table[p];
      }
    }
  }

  /** The turn of a producer that does not use c leaves c as it is. */
  lemma RelievedIdle(s: Rm, t: Rm, r: Rm, c: nat, k: nat, env: nat -> Reply)
    requires Wf(s) && Wf(t) && Wf(r) && c < |s.table| == |t.table| == |r.table| && k < |s.table|
    requires !UserOf(s, k, c) && RelievedSelf(s, t, c, k, env)
    requires At(r, c) == At(t, c) && Orders(r.queue) == Orders(t.queue)
    ensures RelievedSelf(s, r, c, k + 1, env)
  {
    assert At(r, c).record == r.table[c] && At(t, c).record == t.table[c];
  }

  lemma RelievedStepSelf(s: Rm, t: Rm, r: Rm, c: nat, k: nat, env: nat -> Reply)
    requires Structured(t) && Charged(t) && RelievedBelow(s, t, c, k, env)
    requires k < |s.table| && Present(t, c, k) && k != c
    requires Wf(r) && Charged(r) && |r.table| == |t.table| && Unlinks(t, r, k, c, env(k))
    requires At(t, k) == At(s, k)
    ensures RelievedSelf(s, r, c, k + 1, env)
  {
    StillUsers(s, t, c, k, env);
    UsersLeft(t, r, c, k, env(k));
    assert At(t, k).record == t.table[k] && At(s, k).record == s.table[k];
    assert Busy(t.table[k]) <==> UserOf(t, k, c);
    var drops := if Busy(t.table[k]) then DropItems(t.table[c], c, t.table[k].maxBw, true, env(k)) else [];
    OrdersGrow(t, r, UnlinkedItems(k, t.table[k], t.table[c]), drops);
    if Busy(t.table[k]) {
      RelievedUse(s, t, r, c, k, env);
    } else {
      RelievedIdle(s, t, r, c, k, env);
    }
  }

  lemma RelievedStepOthers(s: Rm, t: Rm, r: Rm, c: nat, k: nat, env: nat -> Reply)
    requires Structured(t) && RelievedBelow(s, t, c, k, env) && k < |s.table| && Present(t, c, k) && k != c
    requires Wf(r) && |r.table| == |t.table| && Unlinks(t, r, k, c, env(k))
    requires At(t, k) == At(s, k)
    ensures RelievedOthers(s, r, c, k + 1)
  {
    assert At(t, k).record == t.table[k];
    StillUsers(s, t, c, k, env);
    assert UserOf(s, k, c) <==> Active(s.table[k].state);
    UnlinkedDepends(At(s, k), s.table[c], t.table[c]);
    forall i | 0 <= i < |s.table| && i != c && i != k ensures At(r, i) == At(t, i) {
    }
  }

  lemma DroppedKeeps(e: Entry, bw: u32, reply: Reply)
    ensures var d := Dropped(e, bw, true, reply); d.owed == e.owed && d.delayed == e.delayed
  {
  }

  lemma SamePromises(t: Rm, r: Rm, c: nat)
    requires Wf(t) && Wf(r) && c < |t.table| == |r.table|
    requires At(r, c).owed == At(t, c).owed && At(r, c).delayed == At(t, c).delayed
    ensures r.owed[c] == t.owed[c] && r.delayed[c] == t.delayed[c]
  {
  }

  lemma RelievedSlots(s: Rm, t: Rm, r: Rm, c: nat, k: nat)
    requires Wf(s) && Wf(t) && Wf(r) && c < |s.table| == |t.table| == |r.table| && k < |s.table| && k != c
    requires SlotsCleared(s, t, c, k) && EdgeGone(t, r, k, c)
    ensures SlotsCleared(s, r, c, k + 1)
  {
    assert r.peers[c] == t.peers[c][k := NoPeer];
  }

  lemma RelievedStep(s: Rm, t: Rm, r: Rm, c: nat, k: nat, env: nat -> Reply)
    requires Structured(t) && Charged(t) && RelievedBelow(s, t, c, k, env) && k < |s.table| && Present(t, c, k)
    requires Wf(r) && Charged(r) && |r.table| == |t.table| && Lookup(r, c) && r.nextPtr == t.nextPtr
    requires r.table[c].maxBw == t.table[c].maxBw && Unlinks(t, r, k, c, env(k))
    ensures RelievedBelow(s, r, c, k + 1, env)
  {
    assert !Present(t, c, c) && k != c;
    assert At(t, k) == At(s, k);
    RelievedSlots(s, t, r, c, k);
    DroppedKeeps(At(t, c), t.table[k].maxBw, env(k));
    SamePromises(t, r, c);
    RelievedStepSelf(s, t, r, c, k, env);
    RelievedStepOthers(s, t, r, c, k, env);
  }

  lemma RelievedOne(s: Rm, t: Rm, c: nat, k: nat, env: nat -> Reply)
    requires Structured(t) && Charged(t) && RelievedBelow(s, t, c, k, env) && k < |s.table| && Present(t, c, k)
    ensures RelievedBelow(s, DeleteOne(t, c, k, env(k)), c, k + 1, env)
  {
    assert Present(t, k, c);
    DeleteEntry(t, k, c, env(k));
    DeleteOneCharged(t, c, k, env(k));
    RelievedStep(s, t, DeleteOne(t, c, k, env(k)), c, k, env);
  }

  lemma RelievedSkip(s: Rm, t: Rm, c: nat, k: nat, env: nat -> Reply)
    requires Structured(t) && RelievedBelow(s, t, c, k, env) && k < |s.table| && !Present(t, c, k)
    ensures RelievedBelow(s, t, c, k + 1, env)
  {
    StillUsers(s, t, c, k, env);
    assert !UserOf(t, k, c);
    EmptySlot(s, t, c, k);
    RelievedIdle(s, t, t, c, k, env);
  }

  lemma EmptySlot(s: Rm, t: Rm, c: nat, k: nat)
    requires Wf(s) && Wf(t) && c < |s.table| == |t.table| && k < |s.table| && !t.peers[c][k].Peer?
    requires SlotsCleared(s, t, c, k) && RelievedOthers(s, t, c, k)
    ensures SlotsCleared(s, t, c, k + 1) && RelievedOthers(s, t, c, k + 1)
  {
    assert s.peers[c][k] == t.peers[c][k];
  }

  ghost predicate Relieving(s: Rm, t: Rm, c: nat, k: nat, env: nat -> Reply)
  {
    Structured(t) && Charged(t) && RelievedBelow(s, t, c, k, env)
  }

  lemma RelievedTurn(s: Rm, t: Rm, r: Rm, c: nat, k: nat, env: nat -> Reply)
    requires Relieving(s, t, c, k, env) && k < |s.table| && r == DeleteOne(t, c, k, env(k))
    ensures Relieving(s, r, c, k + 1, env)
  {
    DeleteOneStructured(t, c, k, env(k));
    DeleteOneCharged(t, c, k, env(k));
    if Present(t, c, k) {
      RelievedOne(s, t, c, k, env);
    } else {
      RelievedSkip(s, t, c, k, env);
    }
  }

  /** Deleting a consumer: every dependent producer loses it, no other name is touched, and of its
      own entry the record is gone and the clock vote that its last user's release drops. */
  ghost predicate ConsumerGone(s: Rm, r: Rm, c: nat, env: nat -> Reply)
    requires Wf(s) && Wf(r) && c < |s.table|
  {
    && |r.table| == |s.table| && Elsewhere(s, r) && r.nextPtr == s.nextPtr
    && (forall i :: 0 <= i < |s.table| && i != c ==>
          At(r, i) == if s.peers[c][i].Peer? then Unlinked(At(s, i), s.table[c]) else At(s, i))
    && r.table[c] == Resource(false, 0, 0, 0, 0, Released, 0, 0, 0)
    && r.clk[c] == s.clk[c] - LastClocks(s, c, env)
    && r.owed[c] == s.owed[c] && r.delayed[c] == s.delayed[c]
    && Orders(r.queue) == Orders(s.queue) + LastDrops(s, c, env)
  }

  lemma RelievedAll(s: Rm, t: Rm, r: Rm, c: nat, env: nat -> Reply)
    requires RelievedBelow(s, t, c, |s.table|, env) && r == Clear(t, c)
    ensures ConsumerGone(s, r, c, env)
  {
    ClearEntry(t, c);
    forall i | 0 <= i < |s.table| && i != c ensures At(r, i) == At(t, i) {
    }
  }

  ghost function RelievingUpTo(s: Rm, c: nat, env: nat -> Reply): (nat, Rm) -> bool
  {
    (j: nat, t: Rm) => Relieving(s, t, c, j, env)
  }

  lemma RelievedKeeps(s: Rm, t: Rm, c: nat, j: nat, env: nat -> Reply)
    ensures SlotKeeps(RelievingUpTo(s, c, env), t, c, j, env(j))
  {
    if j < |t.table| && c < |t.table| && Wf(t) && Relieving(s, t, c, j, env) {
      RelievedTurn(s, t, DeleteOne(t, c, j, env(j)), c, j, env);
    }
  }

  lemma RelievedStart(s: Rm, c: nat, env: nat -> Reply)
    requires Structured(s) && Charged(s) && Lookup(s, c) && IsCons(c)
    ensures RelievedBelow(s, s, c, 0, env)
  {
    assert RelievedSelf(s, s, c, 0, env);
  }

  lemma DeleteLoopRelieves(s: Rm, c: nat, env: nat -> Reply)
    requires Structured(s) && Charged(s) && Lookup(s, c) && IsCons(c)
    ensures Relieving(s, DeleteFrom(s, c, 0, env), c, |s.table|, env)
  {
    RelievedStart(s, c, env);
    forall j: nat, t: Rm ensures SlotKeeps(RelievingUpTo(s, c, env), t, c, j, env(j)) {
      RelievedKeeps(s, t, c, j, env);
    }
    DeleteLoop(RelievingUpTo(s, c, env), s, c, 0, env);
  }

  /** ipa_rm_delete_resource for a consumer. */
  lemma DeleteConsumerEffects(s: Rm, c: nat, env: nat -> Reply)
    requires Structured(s) && Charged(s) && Lookup(s, c) && IsCons(c)
    ensures ConsumerGone(s, Step(s, OpDelete(c, env)), c, env) && Delete(s, c, env).code == 0
  {
    DeleteLoopRelieves(s, c, env);
    RelievedAll(s, DeleteFrom(s, c, 0, env), Delete(s, c, env).s, c, env);
  }

  /** ipa_rm_delete_resource: what it does and returns, in every case. */
  lemma DeletionEffects(s: Rm, i: nat, env: nat -> Reply)
    requires Structured(s) && (IsCons(i) ==> Charged(s))
    ensures var o := Delete(s, i, env);
            && o.s == Step(s, OpDelete(i, env))
            && if !(i < |s.table| && s.table[i].live) then o == Out(s, -EINVAL)
               else o.code == 0 && if i % 2 == 0 then ProducerGone(s, o.s, i, env) else ConsumerGone(s, o.s, i, env)
  {
    if i < |s.table| && s.table[i].live {
      if IsProd(i) {
        DeleteProducerEffects(s, i, env);
      } else {
        DeleteConsumerEffects(s, i, env);
      }
    }
  }
}
