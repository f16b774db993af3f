/**
 * The resource manager as a program: tables that every operation updates in
 * place, one method per C function, each proved to do to the state exactly
 * what its function in RmModel says. Every lemma about that function is thereby
 * a statement about the method.
 */
module ResourceManager {
  import opened Basics
  import opened RmModel

  class Manager {
    const table: array<Resource>
    const peers: array2<Peer>
    const count: array<int>
    const volt: array<nat>
    const bw: array<u32>
    var currVolt: nat
    var currBw: u32
    var queue: seq<Work>
    var inflight: Option<Work>
    var nextPtr: nat
    var delayed: seq<nat>
    // the world outside: clock votes, driver promises, IPA profile
    ghost var clk: seq<int>
    ghost var owed: seq<bool>
    ghost var profile: (nat, u32)

    ghost function Footprint(): set<object>
    {
      {this, table, peers, count, volt, bw}
    }

    ghost predicate Valid()
      reads this
    {
      && var n := table.Length;
      && peers.Length0 == n && peers.Length1 == n && count.Length == n && volt.Length == n && bw.Length == n
      && |clk| == n && |owed| == n && |delayed| == n
      && count as object != volt && count as object != bw && volt as object != bw
    }

    ghost function Row(i: nat): seq<Peer>
      requires i < peers.Length0
      reads peers
    {
      seq(peers.Length1, j requires 0 <= j < peers.Length1 reads peers => peers[i, j])
    }

    ghost function Rows(): seq<seq<Peer>>
      reads peers
    {
      seq(peers.Length0, i requires 0 <= i < peers.Length0 reads peers => Row(i))
    }

    /** The state as one value. */
    ghost function Model(): (s: Rm)
      requires Valid()
      reads this, Footprint()
      ensures Wf(s) && |s.table| == table.Length
    {
      Rm(table[..], Rows(), count[..], volt[..], bw[..], currVolt, currBw, queue, inflight,
         clk, owed, delayed, profile, nextPtr)
    }

    /** ipa_rm_initialize */
    constructor (n: nat)
      ensures Valid() && fresh(Footprint()) && Model() == Init(n)
    {
      table := new Resource[n](_ => NO_RESOURCE);
      peers := new Peer[n, n]((_, _) => NoPeer);
      count := new int[n](_ => 0);
      volt := new nat[n](_ => 0);
      bw := new u32[n](_ => 0);
      currVolt, currBw, queue, inflight, nextPtr := 0, 0, [], None, 0;
      clk, owed, delayed := seq(n, _ => 0), seq(n, _ => false), seq(n, _ => 0);
      profile := (0, 0);
      new;
      assert table[..] == Init(n).table;
      assert forall i :: 0 <= i < n ==> Row(i) == Init(n).peers[i];
      assert Rows() == Init(n).peers;
      assert count[..] == Init(n).count && volt[..] == Init(n).volt && bw[..] == Init(n).bw;
    }

    // ----- writes

    /** A write to the record of resource i. */
    method Write(i: nat, r: Resource)
      requires Valid() && i < table.Length
      modifies table
      ensures Valid() && Model() == Put(old(Model()), i, r)
    {
      table[i] := r;
      assert table[..] == old(table[..])[i := r];
    }

    method ChangeState(i: nat, st: State)
      requires Valid() && i < table.Length
      modifies table
      ensures Valid() && Model() == SetState(old(Model()), i, st)
    {
      Write(i, table[i].(state := st));
    }

    method ChangeNeeded(i: nat, d: int)
      requires Valid() && i < table.Length
      modifies table
      ensures Valid() && Model() == AddNeeded(old(Model()), i, d)
    {
      Write(i, table[i].(neededBw := Wrap(table[i].neededBw + d)));
    }

    method ChangeUsage(i: nat, d: int)
      requires Valid() && i < table.Length
      modifies table
      ensures Valid() && Model() == AddUsage(old(Model()), i, d)
    {
      Write(i, table[i].(usage := table[i].usage + d));
    }

    method ChangePendingRequest(i: nat, d: int)
      requires Valid() && i < table.Length
      modifies table
      ensures Valid() && Model() == AddPending(old(Model()), i, d)
    {
      Write(i, table[i].(pendingRequest := table[i].pendingRequest + d));
    }

    method ChangePendingRelease(i: nat, d: int)
      requires Valid() && i < table.Length
      modifies table
      ensures Valid() && Model() == AddPendingRelease(old(Model()), i, d)
    {
      Write(i, table[i].(pendingRelease := table[i].pendingRelease + d));
    }

    /** A write to slot j of the peers list of resource i, and to its count. */
    method WritePeer(i: nat, j: nat, peer: Peer, d: int)
      requires Valid() && i < table.Length && j < table.Length
      modifies peers, count
      ensures Valid() && Model() == SetPeer(old(Model()), i, j, peer, d)
    {
      peers[i, j] := peer;
      count[i] := count[i] + d;
      assert count[..] == old(count[..])[i := old(count[i]) + d];
      assert Row(i) == old(Row(i))[j := peer];
      assert forall k :: 0 <= k < table.Length && k != i ==> Row(k) == old(Row(k));
      assert Rows() == old(Rows())[i := old(Row(i))[j := peer]];
    }

    method Queue(w: Work)
      requires Valid()
      modifies this
      ensures Valid() && Model() == Enqueue(old(Model()), w)
    {
      queue := queue + [w];
    }

    // ----- ipa_rm_peers_list.c

    /** ipa_rm_peers_list_add_peer */
    method ListAddPeer(i: nat, j: nat, userspace: bool)
      requires Valid() && i < table.Length && j < table.Length
      modifies peers, count
      ensures Valid() && Model() == AddPeer(old(Model()), i, j, userspace)
    {
      WritePeer(i, j, Peer(table[j].ptr, userspace), 1);
    }

    /** ipa_rm_peers_list_remove_peer */
    method ListRemovePeer(i: nat, j: nat)
      requires Valid() && i < table.Length && j < table.Length
      modifies peers, count
      ensures Valid() && Model() == RemovePeer(old(Model()), i, j)
    {
      WritePeer(i, j, NoPeer, -1);
    }

    /** ipa_rm_peers_list_check_dependency */
    method ListCheckDependency(p: nat, c: nat) returns (found: Option<bool>)
      requires Valid() && p < table.Length && c < table.Length
      ensures found == CheckDependency(Model(), p, c)
    {
      found := None;
      if peers[p, c].Peer? {
        found := Some(peers[p, c].userspace);
      }
      if peers[c, p].Peer? {
        found := Some(peers[c, p].userspace);
      }
    }

    // ----- ipa_rm.c: the vote table

    method MaxVolt() returns (m: nat)
      requires Valid()
      ensures m == MaxOf(volt[..])
    {
      m := 0;
      for i := 0 to volt.Length
        invariant m == MaxOf(volt[..i])
      {
        assert volt[..i + 1][..i] == volt[..i];
        if volt[i] > m {
          m := volt[i];
        }
      }
      assert volt[..volt.Length] == volt[..];
    }

    method SideSums() returns (prod: u32, cons: u32)
      requires Valid()
      ensures prod == SideTotal(bw[..], 0) && cons == SideTotal(bw[..], 1)
    {
      prod, cons := 0, 0;
      for i := 0 to bw.Length
        invariant prod == SideTotal(bw[..i], 0) && cons == SideTotal(bw[..i], 1)
      {
        assert bw[..i + 1][..i] == bw[..i];
        if IsProd(i) {
          prod := Wrap(prod + bw[i]);
        } else {
          cons := Wrap(cons + bw[i]);
        }
      }
      assert bw[..bw.Length] == bw[..];
    }

    /** ipa_rm_perf_profile_change */
    method PerfProfileChange(i: nat)
      requires Valid() && i < table.Length
      modifies this, volt, bw
      ensures Valid() && Model() == Perf(old(Model()), i)
    {
      if !table[i].live {
        return;
      }
      var oldVolt, oldBw := currVolt, currBw;
      CastVote(i);
      currVolt := MaxVolt();
      var prod, cons := SideSums();
      currBw := Min(prod, cons);
      if currVolt == oldVolt && currBw == oldBw {
        return;
      }
      queue := queue + [NotifyIpa(currVolt, currBw)];
    }

    /** The vote of resource i, by its state. */
    method CastVote(i: nat)
      requires Valid() && i < table.Length
      modifies volt, bw
      ensures volt[..] == old(volt[..])[i := VoltVote(table[i])]
      ensures bw[..] == old(bw[..])[i := BwVote(table[i])]
    {
      if table[i].state == Granted || table[i].state == RequestInProgress {
        bw[i] := Min(table[i].maxBw, table[i].neededBw);
        volt[i] := table[i].floor;
      } else {
        bw[i] := 0;
        volt[i] := 0;
      }
    }

    // ----- ipa_rm_resource.c: completions

    /** ipa_rm_resource_producer_handle_cb */
    method ProducerCb(p: nat, ev: Event)
      requires Valid() && p < table.Length
      modifies this, table, volt, bw
      ensures Valid() && Model() == ProducerHandleCb(old(Model()), p, ev)
    {
      var r := table[p];
      if r.state == RequestInProgress && ev == GrantedEvent && r.pendingRequest > 0 {
        var left := r.pendingRequest - 1;
        Write(p, r.(pendingRequest := left, state := if left == 0 then Granted else r.state));
        if left == 0 {
          PerfProfileChange(p);
        }
      } else if r.state == ReleaseInProgress && ev == ReleasedEvent && r.pendingRelease > 0 {
        var left := r.pendingRelease - 1;
        Write(p, r.(pendingRelease := left, state := if left == 0 then Released else r.state));
        if left == 0 {
          PerfProfileChange(p);
        }
      } else {
        assert ProducerAfter(r, ev) == r;
        assert Put(Model(), p, r) == Model();
      }
    }

    /** ipa_rm_resource_consumer_handle_cb */
    method ConsumerCb(c: nat, ev: Event)
      requires Valid() && c < table.Length
      modifies this, table, volt, bw
      ensures Valid() && Model() == HandleCb(old(Model()), c, ev)
    {
      if table[c].state == RequestInProgress {
        if ev == ReleasedEvent { return; }
        ChangeState(c, Granted);
        PerfProfileChange(c);
      } else if table[c].state == ReleaseInProgress {
        if ev == GrantedEvent { return; }
        ChangeState(c, Released);
      } else {
        return;
      }
      for k := 0 to table.Length
        invariant Valid()
        invariant NotifyFrom(Model(), c, ev, k) == HandleCb(old(Model()), c, ev)
      {
        if peers[c, k].Peer? {
          ProducerCb(k, ev);
        }
      }
    }

    // ----- ipa_rm_resource.c: consumers

    /** ipa_rm_resource_consumer_request_work */
    method ConsumerRequestWork(c: nat, prev: State, neededBw: u32, notify: bool, decOnErr: bool, driver: int)
      returns (code: int)
      requires Valid() && c < table.Length
      modifies this, table, volt, bw
      ensures Valid()
      ensures Out(Model(), code) == RequestWork(old(Model()), c, prev, neededBw, notify, decOnErr, driver)
    {
      if driver == 0 {
        if notify {
          ConsumerCb(c, GrantedEvent);
        } else {
          ChangeState(c, Granted);
          PerfProfileChange(c);
        }
      } else if driver != -EINPROGRESS {
        ChangeState(c, prev);
        ChangeNeeded(c, -(neededBw as int));
        if decOnErr {
          ChangeUsage(c, -1);
        }
      } else {
        owed := owed[c := true];
      }
      code := driver;
    }

    /** ipa_rm_resource_consumer_release_work */
    method ConsumerReleaseWork(c: nat, prev: State, notify: bool, driver: int) returns (code: int)
      requires Valid() && c < table.Length
      modifies this, table, volt, bw
      ensures Valid()
      ensures Out(Model(), code) == ReleaseWork(old(Model()), c, prev, notify, driver)
    {
      code := if driver == -EINPROGRESS then 0 else driver;
      if code != 0 {
        ChangeState(c, prev);
        return;
      }
      if notify {
        ConsumerCb(c, ReleasedEvent);
      } else {
        ChangeState(c, Released);
      }
      PerfProfileChange(c);
    }

    /** The branch of ipa_rm_resource_consumer_request that wakes a consumer. */
    method WakeConsumer(c: nat, prev: State, neededBw: u32, inc: bool, reply: Reply) returns (code: int)
      requires Valid() && c < table.Length
      modifies this, table, volt, bw
      ensures Valid()
      ensures var t := SetState(old(Model()), c, RequestInProgress);
              Out(Model(), code) ==
                if prev == ReleaseInProgress || !reply.noBlock
                then Out(Enqueue(t, Resume(c, prev, neededBw, inc)), -EINPROGRESS)
                else RequestWork(Vote(t, c, 1), c, prev, neededBw, false, inc, reply.driver)
    {
      ChangeState(c, RequestInProgress);
      if prev == ReleaseInProgress || !reply.noBlock {
        Queue(Resume(c, prev, neededBw, inc));
        code := -EINPROGRESS;
      } else {
        clk := clk[c := clk[c] + 1];
        code := ConsumerRequestWork(c, prev, neededBw, false, inc, reply.driver);
      }
    }

    /** The switch of ipa_rm_resource_consumer_request. */
    method RequestInState(c: nat, prev: State, neededBw: u32, inc: bool, wake: bool, reply: Reply) returns (code: int)
      requires Valid() && c < table.Length
      modifies this, table, volt, bw
      ensures Valid()
      ensures var s := old(Model()); var t := SetState(s, c, RequestInProgress);
              Out(Model(), code) ==
                if prev == Granted then
                  if wake then RequestWork(s, c, prev, neededBw, false, inc, reply.driver) else Out(Perf(s, c), 0)
                else if prev == RequestInProgress then Out(s, -EINPROGRESS)
                else if prev == ReleaseInProgress || !reply.noBlock
                then Out(Enqueue(t, Resume(c, prev, neededBw, inc)), -EINPROGRESS)
                else RequestWork(Vote(t, c, 1), c, prev, neededBw, false, inc, reply.driver)
    {
      code := 0;
      match prev
      case Released => code := WakeConsumer(c, prev, neededBw, inc, reply);
      case ReleaseInProgress => code := WakeConsumer(c, prev, neededBw, inc, reply);
      case Granted =>
        if wake {
          code := ConsumerRequestWork(c, prev, neededBw, false, inc, reply.driver);
        } else {
          PerfProfileChange(c);
        }
      case RequestInProgress => code := -EINPROGRESS;
    }

    /** ipa_rm_resource_consumer_request */
    method RequestConsumer(c: nat, neededBw: u32, inc: bool, wake: bool, reply: Reply) returns (code: int)
      requires Valid() && c < table.Length
      modifies this, table, volt, bw
      ensures Valid()
      ensures Out(Model(), code) == ConsumerRequest(old(Model()), c, neededBw, inc, wake, reply)
    {
      var prev := table[c].state;
      ChangeNeeded(c, neededBw);
      code := RequestInState(c, prev, neededBw, inc, wake, reply);
      if inc {
        ChangeUsage(c, 1);
      }
    }

    /** The branch of ipa_rm_resource_consumer_release that lets an unused consumer go. */
    method LetGoConsumer(c: nat, save: State, neededBw: u32, reply: Reply) returns (code: int)
      requires Valid() && c < table.Length
      modifies this, table, volt, bw
      ensures Valid()
      ensures var t := SetState(old(Model()), c, ReleaseInProgress);
              Out(Model(), code) ==
                if save == RequestInProgress || !reply.noBlock
                then Out(Enqueue(t, Suspend(c, save, neededBw)), -EINPROGRESS)
                else ReleaseWork(Vote(t, c, -1), c, save, false, reply.driver)
    {
      ChangeState(c, ReleaseInProgress);
      if save == RequestInProgress || !reply.noBlock {
        Queue(Suspend(c, save, neededBw));
        code := -EINPROGRESS;
      } else {
        clk := clk[c := clk[c] - 1];
        code := ConsumerReleaseWork(c, save, false, reply.driver);
      }
    }

    /** ipa_rm_resource_consumer_release */
    method ReleaseConsumer(c: nat, neededBw: u32, dec: bool, reply: Reply) returns (code: int)
      requires Valid() && c < table.Length
      modifies this, table, volt, bw
      ensures Valid()
      ensures Out(Model(), code) == ConsumerRelease(old(Model()), c, neededBw, dec, reply)
    {
      code := 0;
      var save := table[c].state;
      ChangeNeeded(c, -(neededBw as int));
      if save == Released {
        return;
      }
      if dec && table[c].usage > 0 {
        ChangeUsage(c, -1);
      }
      if save == ReleaseInProgress {
        code := -EINPROGRESS;
      } else if table[c].usage == 0 {
        code := LetGoConsumer(c, save, neededBw, reply);
      } else if save == Granted {
        PerfProfileChange(c);
      }
    }

    // ----- ipa_rm_resource.c: dependencies

    /** Both lists, and the producer's demand. */
    method AddEdge(p: nat, c: nat, userspace: bool)
      requires Valid() && p < table.Length && c < table.Length
      modifies table, peers, count
      ensures Valid() && Model() == NewEdge(old(Model()), p, c, userspace)
    {
      ListAddPeer(p, c, userspace);
      ListAddPeer(c, p, userspace);
      ChangeNeeded(p, table[c].maxBw);
    }

    /** ipa_rm_resource_add_dependency */
    method LinkResources(p: nat, c: nat, userspace: bool, reply: Reply) returns (code: int)
      requires Valid() && p < table.Length && c < table.Length
      modifies this, table, peers, count, volt, bw
      ensures Valid()
      ensures Out(Model(), code) == AddDependency(old(Model()), p, c, userspace, reply)
    {
      var found := ListCheckDependency(p, c);
      if found.Some? {
        return -EEXIST;
      }
      AddEdge(p, c, userspace);
      code := 0;
      if Active(table[p].state) {
        code := RequestForEdge(p, c, reply);
      }
    }

    /** The request that a new edge of an active producer causes. */
    method RequestForEdge(p: nat, c: nat, reply: Reply) returns (code: int)
      requires Valid() && p < table.Length && c < table.Length
      modifies this, table, volt, bw
      ensures Valid()
      ensures var s := old(Model()); var t := AddPending(SetState(s, p, RequestInProgress), p, 1);
              var o := ConsumerRequest(t, c, t.table[p].maxBw, true, false, reply);
              Out(Model(), code) ==
                if o.code == -EINPROGRESS then o
                else Out(Perf(AddPending(SetState(o.s, p, s.table[p].state), p, -1), p), o.code)
    {
      var prev := table[p].state;
      ChangeState(p, RequestInProgress);
      ChangePendingRequest(p, 1);
      code := RequestConsumer(c, table[p].maxBw, true, false, reply);
      if code != -EINPROGRESS {
        ChangeState(p, prev);
        ChangePendingRequest(p, -1);
        PerfProfileChange(p);
      }
    }

    /** The producer's side of ipa_rm_resource_delete_dependency. */
    method ForgetPeer(p: nat, c: nat)
      requires Valid() && p < table.Length && c < table.Length
      modifies this, table, volt, bw
      ensures Valid() && Model() == ForgetConsumer(old(Model()), p, c)
    {
      ChangeNeeded(p, -(table[c].maxBw as int));
      match table[p].state
      case Released =>
      case Granted => PerfProfileChange(p);
      case ReleaseInProgress =>
        if table[p].pendingRelease > 0 {
          ChangePendingRelease(p, -1);
        }
        if table[c].state == ReleaseInProgress && table[p].pendingRelease == 0 {
          ChangeState(p, Released);
          PerfProfileChange(p);
          Queue(NotifyProd(p, ReleasedEvent, false));
        }
      case RequestInProgress =>
        if table[p].pendingRequest > 0 {
          ChangePendingRequest(p, -1);
        }
        if table[c].state == RequestInProgress && table[p].pendingRequest == 0 {
          ChangeState(p, Granted);
          PerfProfileChange(p);
          Queue(NotifyProd(p, GrantedEvent, false));
        }
    }

    /** ipa_rm_resource_delete_dependency */
    method UnlinkResources(p: nat, c: nat, userspace: bool, reply: Reply) returns (code: int)
      requires Valid() && p < table.Length && c < table.Length
      modifies this, table, peers, count, volt, bw
      ensures Valid()
      ensures Out(Model(), code) == DeleteDependency(old(Model()), p, c, userspace, reply)
    {
      var found := ListCheckDependency(p, c);
      if found.None? {
        return -EINVAL;
      }
      if found.value != userspace {
        return 0;
      }
      var releaseConsumer := Active(table[p].state);
      ForgetPeer(p, c);
      ListRemovePeer(p, c);
      ListRemovePeer(c, p);
      if releaseConsumer {
        var ignored := ReleaseConsumer(c, table[p].maxBw, true, reply);
      }
      code := 0;
    }

    // ----- ipa_rm_resource.c: producers

    /** ipa_rm_resource_producer_request */
    method RequestProducer(p: nat, env: nat -> Reply) returns (code: int)
      requires Valid() && p < table.Length
      modifies this, table, volt, bw
      ensures Valid()
      ensures Out(Model(), code) == ProducerRequest(old(Model()), p, env)
    {
      if table[p].state == Granted {
        return 0;
      } else if table[p].state == RequestInProgress {
        return -EINPROGRESS;
      }
      Write(p, table[p].(state := RequestInProgress, pendingRequest := 0));
      code := 0;
      for k := 0 to table.Length
        invariant Valid()
        invariant RequestFrom(Model(), p, k, code, env) == ProducerRequest(old(Model()), p, env)
      {
        if peers[p, k].Peer? {
          var result := AskConsumer(p, k, env(k));
          if result == -EINPROGRESS {
            code := -EINPROGRESS;
          } else if result != 0 {
            return result;
          }
        }
      }
      if table[p].pendingRequest == 0 {
        ChangeState(p, Granted);
        PerfProfileChange(p);
        Queue(NotifyProd(p, GrantedEvent, true));
        code := 0;
      }
    }

    /** The body of the request loop. */
    method AskConsumer(p: nat, k: nat, reply: Reply) returns (result: int)
      requires Valid() && p < table.Length && k < table.Length
      modifies this, table, volt, bw
      ensures Valid()
      ensures Out(Model(), result) == RequestOne(old(Model()), p, k, reply)
    {
      ChangePendingRequest(p, 1);
      result := RequestConsumer(k, table[p].maxBw, true, false, reply);
      if result != -EINPROGRESS {
        ChangePendingRequest(p, -1);
      }
    }

    /** ipa_rm_resource_producer_release */
    method ReleaseProducer(p: nat, env: nat -> Reply) returns (code: int)
      requires Valid() && p < table.Length
      modifies this, table, volt, bw
      ensures Valid()
      ensures Out(Model(), code) == ProducerRelease(old(Model()), p, env)
    {
      if table[p].state == Released {
        return 0;
      } else if table[p].state == ReleaseInProgress {
        return -EINPROGRESS;
      }
      Write(p, table[p].(state := ReleaseInProgress, pendingRelease := 0));
      code := 0;
      for k := 0 to table.Length
        invariant Valid()
        invariant Out(ReleaseFrom(Model(), p, k, env), 0) == ProducerRelease(old(Model()), p, env)
      {
        if peers[p, k].Peer? {
          DropConsumer(p, k, env(k));
        }
      }
      if table[p].pendingRelease == 0 {
        ChangeState(p, Released);
        PerfProfileChange(p);
        Queue(NotifyProd(p, ReleasedEvent, true));
      }
    }

    /** The body of the release loop. */
    method DropConsumer(p: nat, k: nat, reply: Reply)
      requires Valid() && p < table.Length && k < table.Length
      modifies this, table, volt, bw
      ensures Valid() && Model() == ReleaseOne(old(Model()), p, k, reply)
    {
      ChangePendingRelease(p, 1);
      var ignored := ReleaseConsumer(k, table[p].maxBw, true, reply);
      ChangePendingRelease(p, -1);
    }

    // ----- ipa_rm_resource.c: performance profile

    /** The loop of ipa_rm_resource_set_perf_profile: every peer's demand moves by d. */
    method ShiftPeers(i: nat, d: int)
      requires Valid() && i < table.Length
      modifies this, table, volt, bw
      ensures Valid() && Model() == ProfileFrom(old(Model()), i, d, 0)
    {
      for k := 0 to table.Length
        invariant Valid()
        invariant ProfileFrom(Model(), i, d, k) == ProfileFrom(old(Model()), i, d, 0)
      {
        if peers[i, k].Peer? {
          ChangeNeeded(k, d);
          if table[k].state == Granted {
            PerfProfileChange(k);
          }
        }
      }
    }

    /** ipa_rm_resource_set_perf_profile */
    method ChangeProfile(i: nat, max: u32)
      requires Valid() && i < table.Length
      modifies this, table, volt, bw
      ensures Valid() && Model() == SetProfile(old(Model()), i, max)
    {
      if max == table[i].maxBw {
        return;
      }
      if IsCons(i) || Active(table[i].state) {
        ShiftPeers(i, max as int - table[i].maxBw as int);
      }
      Write(i, table[i].(maxBw := max));
      if table[i].state == Granted {
        PerfProfileChange(i);
      }
    }

    // ----- ipa_rm.c and ipa_rm_dependency_graph.c

    /** ipa_rm_dep_graph_get_resource */
    method GetResource(i: nat) returns (found: bool)
      requires Valid()
      ensures found == Lookup(Model(), i)
    {
      if i >= table.Length || Reserved(i) {
        return false;
      }
      found := table[i].live;
    }

    /** Empties the peers list of resource i. */
    method EmptyList(i: nat)
      requires Valid() && i < table.Length
      modifies peers, count
      ensures Valid()
      ensures Model() == old(Model()).(peers := old(Model()).peers[i := seq(table.Length, _ => NoPeer)],
                                       count := old(Model()).count[i := 0])
    {
      for j := 0 to table.Length
        modifies peers
        invariant forall k :: 0 <= k < j ==> peers[i, k] == NoPeer
        invariant forall a, b :: 0 <= a < table.Length && 0 <= b < table.Length && a != i ==>
          peers[a, b] == old(peers[a, b])
      {
        peers[i, j] := NoPeer;
      }
      count[i] := 0;
      assert count[..] == old(count[..])[i := 0];
      assert Row(i) == seq(table.Length, _ => NoPeer);
      assert forall k :: 0 <= k < table.Length && k != i ==> Row(k) == old(Row(k));
      assert Rows() == old(Rows())[i := seq(table.Length, _ => NoPeer)];
    }

    /** ipa_rm_create_resource */
    method CreateResource(i: nat, floor: int) returns (code: int)
      requires Valid()
      modifies this, table, peers, count
      ensures Valid()
      ensures Out(Model(), code) == Create(old(Model()), i, floor)
    {
      if floor < 0 || floor >= VOLTAGE_MAX {
        return -EINVAL;
      }
      var taken := GetResource(i);
      if taken {
        return -EEXIST;
      }
      if i >= table.Length {
        return -EPERM;
      }
      if Reserved(i) {
        return -EINVAL;
      }
      EmptyList(i);
      Write(i, NO_RESOURCE.(live := true, ptr := nextPtr, floor := floor));
      nextPtr := nextPtr + 1;
      code := 0;
    }

    /** ipa_rm_delete_resource */
    method DeleteResource(i: nat, env: nat -> Reply) returns (code: int)
      requires Valid()
      modifies this, table, peers, count, volt, bw
      ensures Valid()
      ensures Out(Model(), code) == Delete(old(Model()), i, env)
    {
      var found := GetResource(i);
      if !found {
        return -EINVAL;
      }
      ghost var s := Model();
      for k := 0 to table.Length
        invariant Valid()
        invariant DeleteFrom(Model(), i, k, env) == DeleteFrom(s, i, 0, env)
      {
        if peers[i, k].Peer? {
          if IsProd(i) {
            var ignored := UnlinkResources(i, k, peers[i, k].userspace, env(k));
          } else {
            var ignored := UnlinkResources(k, i, peers[i, k].userspace, env(k));
          }
        }
      }
      if IsProd(i) {
        var ignored := ReleaseProducer(i, env);
      }
      EmptyList(i);
      Write(i, NO_RESOURCE);
      code := 0;
    }

    /** ipa_rm_request_resource_with_timer */
    method RequestWithTimer(c: nat, reply: Reply) returns (code: int)
      requires Valid()
      modifies this, table, volt, bw
      ensures Valid()
      ensures Out(Model(), code) == TimerRequest(old(Model()), c, reply)
    {
      if !(c < table.Length && IsCons(c)) {
        return -EINVAL;
      }
      var found := GetResource(c);
      if !found {
        return -EPERM;
      }
      code := RequestConsumer(c, 0, false, true, reply);
      if code != 0 && code != -EINPROGRESS {
        return -EPERM;
      }
      delayed := delayed[c := delayed[c] + 1];
      code := 0;
    }

    /** The locked region of delayed_release_work_func. */
    method ReleaseByName(c: nat, reply: Reply)
      requires Valid() && c < table.Length
      modifies this, table, volt, bw
      ensures Valid()
      ensures var s := old(Model());
              Model() == if IsCons(c) && Lookup(s, c) then ConsumerRelease(s, c, 0, false, reply).s else s
    {
      if !IsCons(c) {
        return;
      }
      var found := GetResource(c);
      if found {
        var ignored := ReleaseConsumer(c, 0, false, reply);
      }
    }

    /** delayed_release_work_func, run when a delayed release of c expires */
    method RunDelayedRelease(c: nat, reply: Reply)
      requires Valid()
      modifies this, table, volt, bw
      ensures Valid() && Model() == DelayedRelease(old(Model()), c, reply)
    {
      if c >= table.Length || delayed[c] == 0 {
        return;
      }
      ghost var s := Model();
      delayed := delayed[c := delayed[c] - 1];
      assert Model() == s.(delayed := s.delayed[c := s.delayed[c] - 1]);
      ReleaseByName(c, reply);
    }

    /** ipa_rm_notify_completion */
    method NotifyCompletion(ev: Event, c: nat) returns (code: int)
      requires Valid()
      modifies this
      ensures Valid()
      ensures Out(Model(), code) == Complete(old(Model()), c, ev)
    {
      if !(c < table.Length && IsCons(c)) {
        return -EINVAL;
      }
      Queue(ResourceCb(c, ev));
      if ev == GrantedEvent {
        owed := owed[c := false];
      }
      code := 0;
    }

    // ----- the workqueue thread

    /** Takes an item; the handlers of resumes and suspends move the clock vote before locking. */
    method TakeWork()
      requires Valid()
      modifies this
      ensures Valid() && Model() == StartWork(old(Model()))
    {
      if inflight.Some? || |queue| == 0 {
        return;
      }
      var w := queue[0];
      queue, inflight := queue[1..], Some(w);
      if (w.Resume? || w.Suspend?) && w.c < table.Length && IsCons(w.c) {
        clk := clk[w.c := clk[w.c] + if w.Resume? then 1 else -1];
      }
    }

    /** ipa_rm_wq_resume_handler, ipa_rm_wq_suspend_handler, ipa_rm_wq_handler and the
        notification of the IPA driver */
    method HandleWork(driver: int)
      requires Valid()
      modifies this, table, volt, bw
      ensures Valid() && Model() == FinishWork(old(Model()), driver)
    {
      if inflight.None? {
        return;
      }
      var w := inflight.value;
      RunHandler(w, driver);
      inflight := None;
    }

    method RunHandler(w: Work, driver: int)
      requires Valid()
      modifies this, table, volt, bw
      ensures Valid() && Model() == Execute(old(Model()), w, driver)
    {
      match w
      case Resume(c, prev, neededBw, inc) =>
        if c < table.Length && IsCons(c) {
          var found := GetResource(c);
          if found {
            var ignored := ConsumerRequestWork(c, prev, neededBw, true, inc, driver);
          } else {
            clk := clk[c := clk[c] - 1];
          }
        }
      case Suspend(c, prev, neededBw) =>
        if c < table.Length && IsCons(c) {
          var found := GetResource(c);
          if found {
            var ignored := ConsumerReleaseWork(c, prev, true, driver);
          }
        }
      case ResourceCb(c, ev) =>
        var found := GetResource(c);
        if found {
          ConsumerCb(c, ev);
        }
      case NotifyProd(_, _, _) =>
      case NotifyIpa(v, b) => profile := (v, b);
    }

    // ----- the remaining API

    /** The checks of ipa_rm_dep_graph_add_dependency and its counterpart. */
    method Endpoints(p: nat, c: nat) returns (ok: bool)
      requires Valid()
      ensures ok == BothExist(Model(), p, c)
    {
      if !(p < table.Length && IsProd(p)) || !(c < table.Length && IsCons(c)) {
        return false;
      }
      var a := GetResource(p);
      var b := GetResource(c);
      ok := a && b;
    }

    /** ipa_rm_add_dependency */
    method AddDependencyByName(p: nat, c: nat, userspace: bool, reply: Reply) returns (code: int)
      requires Valid()
      modifies this, table, peers, count, volt, bw
      ensures Valid()
      ensures Out(Model(), code) == ApiAdd(old(Model()), p, c, userspace, reply)
    {
      var ok := Endpoints(p, c);
      if !ok {
        return -EINVAL;
      }
      code := LinkResources(p, c, userspace, reply);
    }

    /** ipa_rm_delete_dependency */
    method DeleteDependencyByName(p: nat, c: nat, userspace: bool, reply: Reply) returns (code: int)
      requires Valid()
      modifies this, table, peers, count, volt, bw
      ensures Valid()
      ensures Out(Model(), code) == ApiDelete(old(Model()), p, c, userspace, reply)
    {
      var ok := Endpoints(p, c);
      if !ok {
        return -EINVAL;
      }
      code := UnlinkResources(p, c, userspace, reply);
    }

    /** ipa_rm_request_resource */
    method RequestResource(p: nat, env: nat -> Reply) returns (code: int)
      requires Valid()
      modifies this, table, volt, bw
      ensures Valid()
      ensures Out(Model(), code) == ApiRequest(old(Model()), p, env)
    {
      if !(p < table.Length && IsProd(p)) {
        return -EINVAL;
      }
      var found := GetResource(p);
      if !found {
        return -EPERM;
      }
      code := RequestProducer(p, env);
    }

    /** ipa_rm_release_resource */
    method ReleaseResource(p: nat, env: nat -> Reply) returns (code: int)
      requires Valid()
      modifies this, table, volt, bw
      ensures Valid()
      ensures Out(Model(), code) == ApiRelease(old(Model()), p, env)
    {
      if !(p < table.Length && IsProd(p)) {
        return -EINVAL;
      }
      var found := GetResource(p);
      if !found {
        return -EPERM;
      }
      code := ReleaseProducer(p, env);
    }

    /** ipa_rm_set_perf_profile */
    method SetPerfProfile(i: nat, max: u32) returns (code: int)
      requires Valid()
      modifies this, table, volt, bw
      ensures Valid()
      ensures Out(Model(), code) == ApiProfile(old(Model()), i, max)
    {
      var found := GetResource(i);
      if !found {
        return -EPERM;
      }
      ChangeProfile(i, max);
      code := 0;
    }

    /** One API call, delayed release or workqueue step: the program's steps are the model's. */
    method Perform(op: Op)
      requires Valid()
      modifies Footprint()
      ensures Valid() && Model() == Step(old(Model()), op)
    {
      match op
      case OpCreate(i, floor) => var code := CreateResource(i, floor);
      case OpDelete(i, env) => var code := DeleteResource(i, env);
      case OpAdd(p, c, u, reply) => var code := AddDependencyByName(p, c, u, reply);
      case OpDel(p, c, u, reply) => var code := DeleteDependencyByName(p, c, u, reply);
      case OpRequest(p, env) => var code := RequestResource(p, env);
      case OpRelease(p, env) => var code := ReleaseResource(p, env);
      case OpTimerRequest(c, reply) => var code := RequestWithTimer(c, reply);
      case OpDelayedRelease(c, reply) => RunDelayedRelease(c, reply);
      case OpProfile(i, max) => var code := SetPerfProfile(i, max);
      case OpComplete(c, ev) => var code := NotifyCompletion(ev, c);
      case OpStartWork => TakeWork();
      case OpFinishWork(driver) => HandleWork(driver);
    }

    /** A whole run of the program is a run of the model. */
    method PerformAll(ops: seq<Op>)
      requires Valid()
      modifies Footprint()
      ensures Valid() && Model() == Run(old(Model()), ops)
    {
      for k := 0 to |ops|
        invariant Valid()
        invariant Run(Model(), ops[k..]) == Run(old(Model()), ops)
      {
        assert ops[k..][1..] == ops[k + 1..];
        Perform(ops[k]);
      }
    }
  }
}
