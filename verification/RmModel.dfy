/**
 * The state of the IPA resource manager as one value, and the effect of every
 * function of the resource manager as a function on that value. The class in
 * ResourceManager.dfy is the program that updates the state in place and is
 * proved to compute these functions; the other modules prove what they keep.
 */
module RmModel {
  import opened Basics

  const EPERM: int := 1
  const EEXIST: int := 17
  const EINVAL: int := 22
  const EINPROGRESS: int := 115
  const VOLTAGE_MAX: int := 4

  datatype State = Released | RequestInProgress | Granted | ReleaseInProgress

  datatype Event = GrantedEvent | ReleasedEvent

  /** A slot of a peers list: null, or a resource pointer and who added it. */
  datatype Peer = NoPeer | Peer(ptr: nat, userspace: bool)

  /** A slot of the resource table. `ptr` is the identity of the allocation. */
  datatype Resource = Resource(
    live: bool, ptr: nat, floor: nat, maxBw: u32, neededBw: u32, state: State,
    usage: int, pendingRequest: int, pendingRelease: int)

  const NO_RESOURCE := Resource(false, 0, 0, 0, 0, Released, 0, 0, 0)

  /** Items of the single-threaded workqueue. */
  datatype Work =
    | Resume(c: nat, prev: State, neededBw: u32, incUsage: bool)
    | Suspend(c: nat, prev: State, neededBw: u32)
    | ResourceCb(c: nat, event: Event)
    | NotifyProd(p: nat, event: Event, registeredOnly: bool)
    | NotifyIpa(volt: nat, bandwidth: u32)

  /** What the outside answers during one consumer request or release. `noBlock` says
      that the clock call succeeded without blocking; `driver` is the callback's result. */
  datatype Reply = Reply(noBlock: bool, driver: int)

  /**
   * table, peers, count:    the dependency graph (count is peers_count)
   * volt, bw, curr*:        the performance vote table
   * queue, inflight:        the workqueue and the item its thread is executing
   * clk:                    clock votes held on behalf of each consumer
   * owed:                   the driver answered a request with "later" and has not notified yet
   * delayed:                one-second release works scheduled for each consumer
   * profile:                the last profile handed to the IPA driver
   * nextPtr:                allocator
   */
  datatype Rm = Rm(
    table: seq<Resource>, peers: seq<seq<Peer>>, count: seq<int>,
    volt: seq<nat>, bw: seq<u32>, currVolt: nat, currBw: u32,
    queue: seq<Work>, inflight: Option<Work>,
    clk: seq<int>, owed: seq<bool>, delayed: seq<nat>,
    profile: (nat, u32), nextPtr: nat)

  datatype Out = Out(s: Rm, code: int)

  predicate Active(st: State)
  {
    st == Granted || st == RequestInProgress
  }

  predicate IsProd(i: int)
  {
    i % 2 == 0
  }

  predicate IsCons(i: int)
  {
    i % 2 == 1
  }

  /** Names of the enumeration that no index function accepts. */
  predicate Reserved(i: int)
  {
    i == 11 || i == 13
  }

  ghost predicate Wf(s: Rm)
  {
    && var n := |s.table|;
    && |s.peers| == n && |s.count| == n && |s.volt| == n && |s.bw| == n
    && |s.clk| == n && |s.owed| == n && |s.delayed| == n
    && forall i :: 0 <= i < n ==> |s.peers[i]| == n
  }

  /** What no function below the API level changes, except to add or remove an edge. */
  ghost predicate SameNodes(s: Rm, r: Rm)
  {
    && |r.table| == |s.table|
    && r.nextPtr == s.nextPtr
    && forall i :: 0 <= i < |s.table| ==>
         && r.table[i].live == s.table[i].live
         && r.table[i].ptr == s.table[i].ptr
         && r.table[i].floor == s.table[i].floor
         && r.table[i].maxBw == s.table[i].maxBw
  }

  ghost predicate SameGraph(s: Rm, r: Rm)
  {
    SameNodes(s, r) && r.peers == s.peers && r.count == s.count
  }

  /** Only resource records, votes and notifications differ. */
  ghost predicate Quiet(s: Rm, r: Rm)
  {
    && r == s.(table := r.table, volt := r.volt, bw := r.bw, currVolt := r.currVolt, currBw := r.currBw,
               queue := r.queue)
    && Notes(s.queue, r.queue)
  }

  /** The second queue is the first one with notifications appended. */
  ghost predicate Notes(q: seq<Work>, r: seq<Work>)
  {
    && q <= r
    && forall i :: |q| <= i < |r| ==> r[i].NotifyIpa? || r[i].NotifyProd?
  }

  /** The queue only grows, never by a completion event, and the running item stays. */
  ghost predicate Grows(s: Rm, r: Rm)
  {
    && r.inflight == s.inflight
    && s.queue <= r.queue
    && forall i :: |s.queue| <= i < |r.queue| ==> !r.queue[i].ResourceCb?
  }

  function Put(s: Rm, i: nat, r: Resource): Rm
    requires i < |s.table|
  {
    s.(table := s.table[i := r])
  }

  function SetState(s: Rm, i: nat, st: State): Rm
    requires i < |s.table|
  {
    Put(s, i, s.table[i].(state := st))
  }

  function AddNeeded(s: Rm, i: nat, bw: int): Rm
    requires i < |s.table|
  {
    Put(s, i, s.table[i].(neededBw := Wrap(s.table[i].neededBw + bw)))
  }

  function AddUsage(s: Rm, i: nat, d: int): Rm
    requires i < |s.table|
  {
    Put(s, i, s.table[i].(usage := s.table[i].usage + d))
  }

  function AddPending(s: Rm, i: nat, d: int): Rm
    requires i < |s.table|
  {
    Put(s, i, s.table[i].(pendingRequest := s.table[i].pendingRequest + d))
  }

  function AddPendingRelease(s: Rm, i: nat, d: int): Rm
    requires i < |s.table|
  {
    Put(s, i, s.table[i].(pendingRelease := s.table[i].pendingRelease + d))
  }

  function Enqueue(s: Rm, w: Work): Rm
  {
    s.(queue := s.queue + [w])
  }

  function Vote(s: Rm, c: nat, d: int): Rm
    requires c < |s.clk|
  {
    s.(clk := s.clk[c := s.clk[c] + d])
  }

  // ----- ipa_rm_peers_list.c

  function SetPeer(s: Rm, i: nat, j: nat, peer: Peer, d: int): Rm
    requires Wf(s) && i < |s.table| && j < |s.table|
  {
    s.(peers := s.peers[i := s.peers[i][j := peer]], count := s.count[i := s.count[i] + d])
  }

  function AddPeer(s: Rm, i: nat, j: nat, userspace: bool): (r: Rm)
    requires Wf(s) && i < |s.table| && j < |s.table|
    ensures Wf(r) && SameNodes(s, r)
  {
    SetPeer(s, i, j, Peer(s.table[j].ptr, userspace), 1)
  }

  function RemovePeer(s: Rm, i: nat, j: nat): (r: Rm)
    requires Wf(s) && i < |s.table| && j < |s.table|
    ensures Wf(r) && SameNodes(s, r)
  {
    SetPeer(s, i, j, NoPeer, -1)
  }

  /** Whether either list knows the edge, and the flag found last. */
  function CheckDependency(s: Rm, p: nat, c: nat): (r: Option<bool>)
    requires Wf(s) && p < |s.table| && c < |s.table|
  {
    if s.peers[c][p].Peer? then Some(s.peers[c][p].userspace)
    else if s.peers[p][c].Peer? then Some(s.peers[p][c].userspace)
    else None
  }

  // ----- the vote table (ipa_rm.c)

  function MaxOf(vs: seq<nat>): nat
  {
    if |vs| == 0 then 0
    else
      var m := MaxOf(vs[..|vs| - 1]);
      if vs[|vs| - 1] > m then vs[|vs| - 1] else m
  }

  /** The votes of the names of one parity: 0 for producers, 1 for consumers. */
  function SideTotal(bw: seq<u32>, parity: int): u32
  {
    if |bw| == 0 then 0
    else
      var rest := SideTotal(bw[..|bw| - 1], parity);
      if (|bw| - 1) % 2 == parity then Wrap(rest + bw[|bw| - 1]) else rest
  }

  function VoltVote(r: Resource): nat
  {
    if Active(r.state) then r.floor else 0
  }

  function BwVote(r: Resource): u32
  {
    if Active(r.state) then Min(r.maxBw, r.neededBw) else 0
  }

  /** ipa_rm_perf_profile_change */
  function Perf(s: Rm, i: nat): (r: Rm)
    requires Wf(s) && i < |s.table|
    ensures Wf(r) && r.table == s.table && SameGraph(s, r) && Quiet(s, r)
  {
    if !s.table[i].live then s
    else
      var volt := s.volt[i := VoltVote(s.table[i])];
      var bw := s.bw[i := BwVote(s.table[i])];
      var cv := MaxOf(volt);
      var cb: u32 := Min(SideTotal(bw, 0), SideTotal(bw, 1));
      var t := s.(volt := volt, bw := bw, currVolt := cv, currBw := cb);
      if cv == s.currVolt && cb == s.currBw then t else Enqueue(t, NotifyIpa(cv, cb))
  }

  // ----- completions (ipa_rm_resource.c)

  /** What a completion event does to the record of one dependent producer. */
  function ProducerAfter(r: Resource, ev: Event): Resource
  {
    if r.state == RequestInProgress && ev == GrantedEvent && r.pendingRequest > 0 then
      r.(pendingRequest := r.pendingRequest - 1,
         state := if r.pendingRequest == 1 then Granted else RequestInProgress)
    else if r.state == ReleaseInProgress && ev == ReleasedEvent && r.pendingRelease > 0 then
      r.(pendingRelease := r.pendingRelease - 1,
         state := if r.pendingRelease == 1 then Released else ReleaseInProgress)
    else r
  }

  /** ipa_rm_resource_producer_handle_cb */
  function ProducerHandleCb(s: Rm, p: nat, ev: Event): (r: Rm)
    requires Wf(s) && p < |s.table|
    ensures Wf(r) && SameGraph(s, r) && Quiet(s, r)
    ensures r.table == s.table[p := ProducerAfter(s.table[p], ev)]
  {
    var t := Put(s, p, ProducerAfter(s.table[p], ev));
    if t.table[p].state != s.table[p].state then Perf(t, p) else t
  }

  /** The loop of ipa_rm_resource_consumer_handle_cb from slot k on. */
  function NotifyFrom(s: Rm, c: nat, ev: Event, k: nat): (r: Rm)
    requires Wf(s) && c < |s.table| && k <= |s.table|
    ensures Wf(r) && SameGraph(s, r) && Quiet(s, r)
    decreases |s.table| - k
  {
    if k == |s.table| then s
    else NotifyFrom(if s.peers[c][k].Peer? then ProducerHandleCb(s, k, ev) else s, c, ev, k + 1)
  }

  /** ipa_rm_resource_consumer_handle_cb */
  function HandleCb(s: Rm, c: nat, ev: Event): (r: Rm)
    requires Wf(s) && c < |s.table|
    ensures Wf(r) && SameGraph(s, r) && Quiet(s, r)
  {
    if s.table[c].state == RequestInProgress && ev == GrantedEvent then
      NotifyFrom(Perf(SetState(s, c, Granted), c), c, ev, 0)
    else if s.table[c].state == ReleaseInProgress && ev == ReleasedEvent then
      NotifyFrom(SetState(s, c, Released), c, ev, 0)
    else s
  }

  /** ipa_rm_resource_consumer_request_work */
  function RequestWork(s: Rm, c: nat, prev: State, bw: u32, notify: bool, decOnErr: bool, driver: int): (o: Out)
    requires Wf(s) && c < |s.table|
    ensures Wf(o.s) && SameGraph(s, o.s) && o.code == driver
    ensures Grows(s, o.s)
  {
    if driver == 0 then
      if notify then Out(HandleCb(s, c, GrantedEvent), 0)
      else Out(Perf(SetState(s, c, Granted), c), 0)
    else if driver != -EINPROGRESS then
      var t := AddNeeded(SetState(s, c, prev), c, -(bw as int));
      Out(if decOnErr then AddUsage(t, c, -1) else t, driver)
    else Out(s.(owed := s.owed[c := true]), driver)
  }

  /** ipa_rm_resource_consumer_release_work */
  function ReleaseWork(s: Rm, c: nat, prev: State, notify: bool, driver: int): (o: Out)
    requires Wf(s) && c < |s.table|
    ensures Wf(o.s) && SameGraph(s, o.s)
    ensures Grows(s, o.s)
  {
    if driver != 0 && driver != -EINPROGRESS then Out(SetState(s, c, prev), driver)
    else if notify then Out(Perf(HandleCb(s, c, ReleasedEvent), c), 0)
    else Out(Perf(SetState(s, c, Released), c), 0)
  }

  /** ipa_rm_resource_consumer_request */
  function ConsumerRequest(s: Rm, c: nat, bw: u32, inc: bool, wake: bool, reply: Reply): (o: Out)
    requires Wf(s) && c < |s.table|
    ensures Wf(o.s) && SameGraph(s, o.s)
    ensures Grows(s, o.s)
  {
    var prev := s.table[c].state;
    var t := AddNeeded(s, c, bw);
    var o :=
      if prev == Granted then
        if wake then RequestWork(t, c, prev, bw, false, inc, reply.driver) else Out(Perf(t, c), 0)
      else if prev == RequestInProgress then Out(t, -EINPROGRESS)
      else
        var t := SetState(t, c, RequestInProgress);
        if prev == ReleaseInProgress || !reply.noBlock then
          Out(Enqueue(t, Resume(c, prev, bw, inc)), -EINPROGRESS)
        else
          RequestWork(Vote(t, c, 1), c, prev, bw, false, inc, reply.driver);
    if inc then Out(AddUsage(o.s, c, 1), o.code) else o
  }

  /** ipa_rm_resource_consumer_release */
  function ConsumerRelease(s: Rm, c: nat, bw: u32, dec: bool, reply: Reply): (o: Out)
    requires Wf(s) && c < |s.table|
    ensures Wf(o.s) && SameGraph(s, o.s)
    ensures Grows(s, o.s)
  {
    var save := s.table[c].state;
    var t := AddNeeded(s, c, -(bw as int));
    if save == Released then Out(t, 0)
    else
      var t := if dec && t.table[c].usage > 0 then AddUsage(t, c, -1) else t;
      if save == ReleaseInProgress then Out(t, -EINPROGRESS)
      else if t.table[c].usage == 0 then
        var t := SetState(t, c, ReleaseInProgress);
        if save == RequestInProgress || !reply.noBlock then
          Out(Enqueue(t, Suspend(c, save, bw)), -EINPROGRESS)
        else
          ReleaseWork(Vote(t, c, -1), c, save, false, reply.driver)
      else if save == Granted then Out(Perf(t, c), 0)
      else Out(t, 0)
  }

  // ----- dependencies (ipa_rm_resource.c)

  /** A new edge, and the producer's demand with it. */
  function NewEdge(s: Rm, p: nat, c: nat, userspace: bool): (r: Rm)
    requires Wf(s) && p < |s.table| && c < |s.table|
    ensures Wf(r) && SameNodes(s, r) && Grows(s, r)
  {
    AddNeeded(AddPeer(AddPeer(s, p, c, userspace), c, p, userspace), p, s.table[c].maxBw)
  }

  /** ipa_rm_resource_add_dependency */
  function AddDependency(s: Rm, p: nat, c: nat, userspace: bool, reply: Reply): (o: Out)
    requires Wf(s) && p < |s.table| && c < |s.table|
    ensures Wf(o.s) && SameNodes(s, o.s)
    ensures Grows(s, o.s)
  {
    if CheckDependency(s, p, c).Some? then Out(s, -EEXIST)
    else
      var t := NewEdge(s, p, c, userspace);
      var prev := t.table[p].state;
      if !Active(prev) then Out(t, 0)
      else
        var t := AddPending(SetState(t, p, RequestInProgress), p, 1);
        var o := ConsumerRequest(t, c, t.table[p].maxBw, true, false, reply);
        if o.code == -EINPROGRESS then o
        else Out(Perf(AddPending(SetState(o.s, p, prev), p, -1), p), o.code)
  }

  /** The producer's side of ipa_rm_resource_delete_dependency. */
  function ForgetConsumer(s: Rm, p: nat, c: nat): (r: Rm)
    requires Wf(s) && p < |s.table| && c < |s.table|
    ensures Wf(r) && SameGraph(s, r)
    ensures Grows(s, r)
  {
    var t := AddNeeded(s, p, -(s.table[c].maxBw as int));
    match t.table[p].state
    case Released => t
    case Granted => Perf(t, p)
    case ReleaseInProgress =>
      var t := if t.table[p].pendingRelease > 0 then AddPendingRelease(t, p, -1) else t;
      if t.table[c].state == ReleaseInProgress && t.table[p].pendingRelease == 0 then
        Enqueue(Perf(SetState(t, p, Released), p), NotifyProd(p, ReleasedEvent, false))
      else t
    case RequestInProgress =>
      var t := if t.table[p].pendingRequest > 0 then AddPending(t, p, -1) else t;
      if t.table[c].state == RequestInProgress && t.table[p].pendingRequest == 0 then
        Enqueue(Perf(SetState(t, p, Granted), p), NotifyProd(p, GrantedEvent, false))
      else t
  }

  /** The edge and the producer's share of it are gone; the consumer is not released yet. */
  function Cut(s: Rm, p: nat, c: nat): (r: Rm)
    requires Wf(s) && p < |s.table| && c < |s.table|
    ensures Wf(r) && SameNodes(s, r) && Grows(s, r)
  {
    RemovePeer(RemovePeer(ForgetConsumer(s, p, c), p, c), c, p)
  }

  /** ipa_rm_resource_delete_dependency */
  function DeleteDependency(s: Rm, p: nat, c: nat, userspace: bool, reply: Reply): (o: Out)
    requires Wf(s) && p < |s.table| && c < |s.table|
    ensures Wf(o.s) && SameNodes(s, o.s)
    ensures Grows(s, o.s)
  {
    var found := CheckDependency(s, p, c);
    if found.None? then Out(s, -EINVAL)
    else if found.value != userspace then Out(s, 0)
    else
      var t := Cut(s, p, c);
      if Active(s.table[p].state) then
        Out(ConsumerRelease(t, c, t.table[p].maxBw, true, reply).s, 0)
      else Out(t, 0)
  }

  // ----- producers (ipa_rm_resource.c)

  /** One turn of the request loop: ask consumer k. */
  function RequestOne(s: Rm, p: nat, k: nat, reply: Reply): (o: Out)
    requires Wf(s) && p < |s.table| && k < |s.table|
    ensures Wf(o.s) && SameGraph(s, o.s)
    ensures Grows(s, o.s)
  {
    var t := AddPending(s, p, 1);
    var o := ConsumerRequest(t, k, t.table[p].maxBw, true, false, reply);
    if o.code == -EINPROGRESS then o else Out(AddPending(o.s, p, -1), o.code)
  }

  /** The rest of ipa_rm_resource_producer_request from slot k on. */
  function RequestFrom(s: Rm, p: nat, k: nat, code: int, env: nat -> Reply): (o: Out)
    requires Wf(s) && p < |s.table| && k <= |s.table|
    ensures Wf(o.s) && SameGraph(s, o.s)
    ensures Grows(s, o.s)
    decreases |s.table| - k
  {
    if k == |s.table| then
      if s.table[p].pendingRequest == 0 then
        Out(Enqueue(Perf(SetState(s, p, Granted), p), NotifyProd(p, GrantedEvent, true)), 0)
      else Out(s, code)
    else if !s.peers[p][k].Peer? then RequestFrom(s, p, k + 1, code, env)
    else
      var o := RequestOne(s, p, k, env(k));
      if o.code != 0 && o.code != -EINPROGRESS then o
      else RequestFrom(o.s, p, k + 1, if o.code == 0 then code else o.code, env)
  }

  /** ipa_rm_resource_producer_request */
  function ProducerRequest(s: Rm, p: nat, env: nat -> Reply): (o: Out)
    requires Wf(s) && p < |s.table|
    ensures Wf(o.s) && SameGraph(s, o.s)
    ensures Grows(s, o.s)
  {
    match s.table[p].state
    case Granted => Out(s, 0)
    case RequestInProgress => Out(s, -EINPROGRESS)
    case _ =>
      var t := Put(s, p, s.table[p].(state := RequestInProgress, pendingRequest := 0));
      RequestFrom(t, p, 0, 0, env)
  }

  /** One turn of the release loop: let go of consumer k. */
  function ReleaseOne(s: Rm, p: nat, k: nat, reply: Reply): (r: Rm)
    requires Wf(s) && p < |s.table| && k < |s.table|
    ensures Wf(r) && SameGraph(s, r)
    ensures Grows(s, r)
  {
    var t := AddPendingRelease(s, p, 1);
    AddPendingRelease(ConsumerRelease(t, k, t.table[p].maxBw, true, reply).s, p, -1)
  }

  /** The rest of ipa_rm_resource_producer_release from slot k on. */
  function ReleaseFrom(s: Rm, p: nat, k: nat, env: nat -> Reply): (r: Rm)
    requires Wf(s) && p < |s.table| && k <= |s.table|
    ensures Wf(r) && SameGraph(s, r)
    ensures Grows(s, r)
    decreases |s.table| - k
  {
    if k == |s.table| then
      if s.table[p].pendingRelease == 0 then
        Enqueue(Perf(SetState(s, p, Released), p), NotifyProd(p, ReleasedEvent, true))
      else s
    else ReleaseFrom(if s.peers[p][k].Peer? then ReleaseOne(s, p, k, env(k)) else s, p, k + 1, env)
  }

  /** ipa_rm_resource_producer_release */
  function ProducerRelease(s: Rm, p: nat, env: nat -> Reply): (o: Out)
    requires Wf(s) && p < |s.table|
    ensures Wf(o.s) && SameGraph(s, o.s)
    ensures Grows(s, o.s)
  {
    match s.table[p].state
    case Released => Out(s, 0)
    case ReleaseInProgress => Out(s, -EINPROGRESS)
    case _ =>
      var t := Put(s, p, s.table[p].(state := ReleaseInProgress, pendingRelease := 0));
      Out(ReleaseFrom(t, p, 0, env), 0)
  }

  // ----- performance profile (ipa_rm_resource.c)

  function ProfileOne(s: Rm, k: nat, d: int): (r: Rm)
    requires Wf(s) && k < |s.table|
    ensures Wf(r) && SameGraph(s, r)
    ensures Grows(s, r)
  {
    var t := AddNeeded(s, k, d);
    if t.table[k].state == Granted then Perf(t, k) else t
  }

  function ProfileFrom(s: Rm, i: nat, d: int, k: nat): (r: Rm)
    requires Wf(s) && i < |s.table| && k <= |s.table|
    ensures Wf(r) && SameGraph(s, r)
    ensures Grows(s, r)
    decreases |s.table| - k
  {
    if k == |s.table| then s
    else ProfileFrom(if s.peers[i][k].Peer? then ProfileOne(s, k, d) else s, i, d, k + 1)
  }

  /** ipa_rm_resource_set_perf_profile */
  function SetProfile(s: Rm, i: nat, max: u32): (r: Rm)
    requires Wf(s) && i < |s.table|
    ensures Wf(r) && r.peers == s.peers && r.count == s.count
    ensures Grows(s, r)
    ensures |r.table| == |s.table|
  {
    if max == s.table[i].maxBw then s
    else
      var t := if IsCons(i) || Active(s.table[i].state)
               then ProfileFrom(s, i, max - s.table[i].maxBw, 0) else s;
      var t := Put(t, i, t.table[i].(maxBw := max));
      if t.table[i].state == Granted then Perf(t, i) else t
  }

  // ----- creation and deletion

  /** ipa_rm_dep_graph_get_resource: the name has a live resource. */
  predicate Lookup(s: Rm, i: nat)
  {
    i < |s.table| && !Reserved(i) && s.table[i].live
  }

  /** ipa_rm_create_resource */
  function Create(s: Rm, i: nat, floor: int): (o: Out)
    requires Wf(s)
    ensures Wf(o.s) && |o.s.table| == |s.table|
    ensures Grows(s, o.s)
  {
    if floor < 0 || floor >= VOLTAGE_MAX then Out(s, -EINVAL)
    else if Lookup(s, i) then Out(s, -EEXIST)
    else if i >= |s.table| then Out(s, -EPERM)
    else if Reserved(i) then Out(s, -EINVAL)
    else
      Out(s.(table := s.table[i := NO_RESOURCE.(live := true, ptr := s.nextPtr, floor := floor)],
             peers := s.peers[i := seq(|s.table|, _ => NoPeer)],
             count := s.count[i := 0],
             nextPtr := s.nextPtr + 1), 0)
  }

  /** One turn of the deletion loop: drop the edge in slot k, on behalf of its owner. */
  function DeleteOne(s: Rm, i: nat, k: nat, reply: Reply): (r: Rm)
    requires Wf(s) && i < |s.table| && k < |s.table|
    ensures Wf(r) && SameNodes(s, r) && Grows(s, r)
  {
    if !s.peers[i][k].Peer? then s
    else if IsProd(i) then DeleteDependency(s, i, k, s.peers[i][k].userspace, reply).s
    else DeleteDependency(s, k, i, s.peers[i][k].userspace, reply).s
  }

  /** The loop of ipa_rm_resource_delete from slot k on. */
  function DeleteFrom(s: Rm, i: nat, k: nat, env: nat -> Reply): (r: Rm)
    requires Wf(s) && i < |s.table| && k <= |s.table|
    ensures Wf(r) && SameNodes(s, r) && Grows(s, r)
    decreases |s.table| - k
  {
    if k == |s.table| then s else DeleteFrom(DeleteOne(s, i, k, env(k)), i, k + 1, env)
  }

  /** Frees the resource and its peers list and clears its slot of the table. */
  function Clear(s: Rm, i: nat): (r: Rm)
    requires Wf(s) && i < |s.table|
    ensures Wf(r) && |r.table| == |s.table|
  {
    s.(table := s.table[i := NO_RESOURCE],
       peers := s.peers[i := seq(|s.table|, _ => NoPeer)],
       count := s.count[i := 0])
  }

  /** ipa_rm_delete_resource */
  function Delete(s: Rm, i: nat, env: nat -> Reply): (o: Out)
    requires Wf(s)
    ensures Wf(o.s) && |o.s.table| == |s.table|
    ensures Grows(s, o.s)
  {
    if !Lookup(s, i) then Out(s, -EINVAL)
    else
      var t := DeleteFrom(s, i, 0, env);
      var t := if IsProd(i) then ProducerRelease(t, i, env).s else t;
      Out(Clear(t, i), 0)
  }

  // ----- the remaining API (ipa_rm.c, ipa_rm_dependency_graph.c)

  predicate BothExist(s: Rm, p: nat, c: nat)
  {
    IsProd(p) && IsCons(c) && Lookup(s, p) && Lookup(s, c)
  }

  /** ipa_rm_add_dependency through ipa_rm_dep_graph_add_dependency */
  function ApiAdd(s: Rm, p: nat, c: nat, userspace: bool, reply: Reply): (o: Out)
    requires Wf(s)
    ensures Wf(o.s) && |o.s.table| == |s.table|
  {
    if BothExist(s, p, c) then AddDependency(s, p, c, userspace, reply) else Out(s, -EINVAL)
  }

  /** ipa_rm_delete_dependency through ipa_rm_dep_graph_delete_dependency */
  function ApiDelete(s: Rm, p: nat, c: nat, userspace: bool, reply: Reply): (o: Out)
    requires Wf(s)
    ensures Wf(o.s) && |o.s.table| == |s.table|
  {
    if BothExist(s, p, c) then DeleteDependency(s, p, c, userspace, reply) else Out(s, -EINVAL)
  }

  /** ipa_rm_request_resource */
  function ApiRequest(s: Rm, p: nat, env: nat -> Reply): (o: Out)
    requires Wf(s)
    ensures Wf(o.s) && |o.s.table| == |s.table|
  {
    if !(p < |s.table| && IsProd(p)) then Out(s, -EINVAL)
    else if !Lookup(s, p) then Out(s, -EPERM)
    else ProducerRequest(s, p, env)
  }

  /** ipa_rm_release_resource */
  function ApiRelease(s: Rm, p: nat, env: nat -> Reply): (o: Out)
    requires Wf(s)
    ensures Wf(o.s) && |o.s.table| == |s.table|
  {
    if !(p < |s.table| && IsProd(p)) then Out(s, -EINVAL)
    else if !Lookup(s, p) then Out(s, -EPERM)
    else ProducerRelease(s, p, env)
  }

  /** ipa_rm_set_perf_profile */
  function ApiProfile(s: Rm, i: nat, max: u32): (o: Out)
    requires Wf(s)
    ensures Wf(o.s) && |o.s.table| == |s.table|
  {
    if Lookup(s, i) then Out(SetProfile(s, i, max), 0) else Out(s, -EPERM)
  }

  /** ipa_rm_request_resource_with_timer */
  function TimerRequest(s: Rm, c: nat, reply: Reply): (o: Out)
    requires Wf(s)
    ensures Wf(o.s) && SameGraph(s, o.s)
    ensures Grows(s, o.s)
  {
    if !(c < |s.table| && IsCons(c)) then Out(s, -EINVAL)
    else if !Lookup(s, c) then Out(s, -EPERM)
    else
      var o := ConsumerRequest(s, c, 0, false, true, reply);
      if o.code != 0 && o.code != -EINPROGRESS then Out(o.s, -EPERM)
      else Out(o.s.(delayed := o.s.delayed[c := o.s.delayed[c] + 1]), 0)
  }

  /** delayed_release_work_func, when a release of c is scheduled */
  function DelayedRelease(s: Rm, c: nat, reply: Reply): (r: Rm)
    requires Wf(s)
    ensures Wf(r) && SameGraph(s, r)
    ensures Grows(s, r)
  {
    if !(c < |s.table|) || s.delayed[c] == 0 then s
    else
      var t := s.(delayed := s.delayed[c := s.delayed[c] - 1]);
      if IsCons(c) && Lookup(t, c) then ConsumerRelease(t, c, 0, false, reply).s else t
  }

  /** ipa_rm_notify_completion: the driver keeps its promise when it reports a grant. */
  function Complete(s: Rm, c: nat, ev: Event): (o: Out)
    requires Wf(s)
    ensures Wf(o.s) && SameGraph(s, o.s)
  {
    if !(c < |s.table| && IsCons(c)) then Out(s, -EINVAL)
    else
      var t := Enqueue(s, ResourceCb(c, ev));
      Out(if ev == GrantedEvent then t.(owed := t.owed[c := false]) else t, 0)
  }

  // ----- the workqueue thread (ipa_rm.c)

  /** The thread takes the next item and does what the handler does before the lock. */
  function StartWork(s: Rm): (r: Rm)
    requires Wf(s)
    ensures Wf(r) && SameGraph(s, r)
  {
    if s.inflight.Some? || |s.queue| == 0 then s
    else
      var w := s.queue[0];
      var t := s.(queue := s.queue[1..], inflight := Some(w));
      match w
      case Resume(c, _, _, _) => if c < |s.table| && IsCons(c) then Vote(t, c, 1) else t
      case Suspend(c, _, _) => if c < |s.table| && IsCons(c) then Vote(t, c, -1) else t
      case _ => t
  }

  /** The locked region of the handler of work item w. */
  function Execute(s: Rm, w: Work, driver: int): (r: Rm)
    requires Wf(s)
    ensures Wf(r) && SameGraph(s, r) && Grows(s, r)
  {
    match w
    case Resume(c, prev, bw, inc) =>
      if !(c < |s.table| && IsCons(c)) then s
      else if Lookup(s, c) then RequestWork(s, c, prev, bw, true, inc, driver).s
      else Vote(s, c, -1)
    case Suspend(c, prev, bw) =>
      if c < |s.table| && IsCons(c) && Lookup(s, c) then ReleaseWork(s, c, prev, true, driver).s else s
    case ResourceCb(c, ev) =>
      if Lookup(s, c) then HandleCb(s, c, ev) else s
    case NotifyProd(_, _, _) => s
    case NotifyIpa(v, b) => s.(profile := (v, b))
  }

  /** The thread executes the item it has taken and lets go of it. */
  function FinishWork(s: Rm, driver: int): (r: Rm)
    requires Wf(s)
    ensures Wf(r) && SameGraph(s, r)
  {
    if s.inflight.None? then s else Execute(s, s.inflight.value, driver).(inflight := None)
  }

  // ----- runs

  datatype Op =
    | OpCreate(i: nat, floor: int)
    | OpDelete(i: nat, env: nat -> Reply)
    | OpAdd(p: nat, c: nat, userspace: bool, reply: Reply)
    | OpDel(p: nat, c: nat, userspace: bool, reply: Reply)
    | OpRequest(p: nat, env: nat -> Reply)
    | OpRelease(p: nat, env: nat -> Reply)
    | OpTimerRequest(c: nat, reply: Reply)
    | OpDelayedRelease(c: nat, reply: Reply)
    | OpProfile(i: nat, max: u32)
    | OpComplete(c: nat, event: Event)
    | OpStartWork
    | OpFinishWork(driver: int)

  function Step(s: Rm, op: Op): (r: Rm)
    requires Wf(s)
    ensures Wf(r) && |r.table| == |s.table|
  {
    match op
    case OpCreate(i, floor) => Create(s, i, floor).s
    case OpDelete(i, env) => Delete(s, i, env).s
    case OpAdd(p, c, u, reply) => ApiAdd(s, p, c, u, reply).s
    case OpDel(p, c, u, reply) => ApiDelete(s, p, c, u, reply).s
    case OpRequest(p, env) => ApiRequest(s, p, env).s
    case OpRelease(p, env) => ApiRelease(s, p, env).s
    case OpTimerRequest(c, reply) => TimerRequest(s, c, reply).s
    case OpDelayedRelease(c, reply) => DelayedRelease(s, c, reply)
    case OpProfile(i, max) => ApiProfile(s, i, max).s
    case OpComplete(c, ev) => Complete(s, c, ev).s
    case OpStartWork => StartWork(s)
    case OpFinishWork(driver) => FinishWork(s, driver)
  }

  function Run(s: Rm, ops: seq<Op>): (r: Rm)
    requires Wf(s)
    ensures Wf(r) && |r.table| == |s.table|
    decreases |ops|
  {
    if |ops| == 0 then s else Run(Step(s, ops[0]), ops[1..])
  }

  lemma {:induction false} RunAppend(s: Rm, a: seq<Op>, b: seq<Op>)
    requires Wf(s)
    ensures Run(s, a + b) == Run(Run(s, a), b)
    decreases |a|
  {
    if |a| == 0 {
      assert a + b == b;
    } else {
      assert (a + b)[1..] == a[1..] + b;
      RunAppend(Step(s, a[0]), a[1..], b);
    }
  }

  /** ipa_rm_initialize: kzalloc'ed, for n resource names. */
  function Init(n: nat): (s: Rm)
    ensures Wf(s) && |s.table| == n
  {
    Rm(seq(n, _ => NO_RESOURCE), seq(n, _ => seq(n, _ => NoPeer)), seq(n, _ => 0),
       seq(n, _ => 0), seq(n, _ => 0), 0, 0,
       [], None,
       seq(n, _ => 0), seq(n, _ => false), seq(n, _ => 0),
       (0, 0), 0)
  }
}
