/**
 * Grant safety. A granted producer has every consumer it depends on granted,
 * and a waiting producer counts exactly the consumers it still waits for.
 * Both need one more condition than well-behaved drivers: no edge to a granted
 * consumer is deleted while its producer waits. The last part shows that every
 * step keeps the property exactly under that condition.
 */
module RmGrants {
  import opened Basics
  import opened Totals
  import opened RmModel
  import opened RmStructure
  import opened RmCharges

  /** One for each consumer that p still waits for. */
  function Blocked(s: Rm, p: nat): seq<int>
    requires Wf(s) && p < |s.table|
  {
    seq(|s.table|, c requires 0 <= c < |s.table| =>
      Unit(s.peers[p][c].Peer? && s.table[c].state == RequestInProgress))
  }

  ghost predicate GrantOk(s: Rm, p: nat)
    requires Wf(s) && p < |s.table|
  {
    && (s.table[p].state == Granted ==>
          && s.table[p].pendingRequest == 0
          && forall c :: 0 <= c < |s.table| && Present(s, p, c) ==> s.table[c].state == Granted)
    && (s.table[p].state == RequestInProgress ==>
          s.table[p].pendingRequest == Sum(Blocked(s, p)) && s.table[p].pendingRequest > 0)
  }

  ghost predicate GrantsExcept(s: Rm, x: nat)
    requires Wf(s)
  {
    forall p :: 0 <= p < |s.table| && IsProd(p) && p != x ==> GrantOk(s, p)
  }

  ghost predicate Granting(s: Rm)
    requires Wf(s)
  {
    GrantsExcept(s, |s.table|)
  }

  /** An active producer is unaffected while none of its consumers moves. */
  ghost predicate Undisturbed(s: Rm, r: Rm, p: nat)
    requires Wf(s) && Wf(r) && |r.table| == |s.table| && p < |s.table|
  {
    && r.peers[p] == s.peers[p]
    && r.table[p].state == s.table[p].state
    && r.table[p].pendingRequest == s.table[p].pendingRequest
    && (Active(s.table[p].state) ==>
          forall c :: 0 <= c < |s.table| && Present(s, p, c) ==> r.table[c].state == s.table[c].state)
  }

  lemma UndisturbedGrant(s: Rm, r: Rm, p: nat)
    requires Wf(s) && Wf(r) && |r.table| == |s.table| && p < |s.table|
    requires Undisturbed(s, r, p)
    ensures GrantOk(r, p) <==> GrantOk(s, p)
  {
    if Active(s.table[p].state) {
      assert forall c :: 0 <= c < |s.table| ==> Present(r, p, c) == Present(s, p, c);
      assert Blocked(r, p) == Blocked(s, p);
    }
  }

  lemma GrantsFrame(s: Rm, r: Rm, x: nat)
    requires Wf(s) && Wf(r) && |r.table| == |s.table| && GrantsExcept(s, x)
    requires forall p :: 0 <= p < |s.table| && IsProd(p) && p != x ==> Undisturbed(s, r, p)
    ensures GrantsExcept(r, x)
  {
    forall p | 0 <= p < |s.table| && IsProd(p) && p != x ensures GrantOk(r, p) {
      UndisturbedGrant(s, r, p);
    }
  }

  /** A consumer that no other active producer holds may change state. */
  lemma ConsumerMoves(s: Rm, r: Rm, c: nat, x: nat)
    requires Wf(s) && Wf(r) && SameGraph(s, r) && Symmetric(s) && c < |s.table| && IsCons(c) && GrantsExcept(s, x)
    requires forall i :: 0 <= i < |s.table| && i != c && i != x ==> r.table[i] == s.table[i]
    requires IsCons(x) ==> x >= |s.table|
    requires r.table[c].state != s.table[c].state ==>
      forall p :: 0 <= p < |s.table| && IsProd(p) && p != x && Present(s, p, c) ==> !Active(s.table[p].state)
    ensures GrantsExcept(r, x)
  {
    forall p | 0 <= p < |s.table| && IsProd(p) && p != x ensures Undisturbed(s, r, p) {
      forall c' | 0 <= c' < |s.table| && Active(s.table[p].state) && Present(s, p, c')
        ensures r.table[c'].state == s.table[c'].state
      {
        assert IsCons(c');
      }
    }
    GrantsFrame(s, r, x);
  }

  /** A consumer that changes state was unused, or is unused afterwards. */
  lemma UnusedIsFree(s: Rm, q: nat, held: set<int>, c: nat)
    requires Wf(s) && Symmetric(s) && ChargedExcept(s, q, held) && c < |s.table| && IsCons(c)
    requires s.table[c].usage == 0
    ensures forall p :: 0 <= p < |s.table| && IsProd(p) && p != q && Present(s, p, c) ==> !Active(s.table[p].state)
  {
    forall p | 0 <= p < |s.table| && IsProd(p) && p != q && Present(s, p, c) ensures !Active(s.table[p].state) {
      assert Present(s, c, p);
      if Active(s.table[p].state) {
        HeldIsActive(s, q, held, p, c);
      }
    }
  }

  /** Nobody waits on a sum of zero. */
  lemma NoneBlocked(s: Rm, p: nat)
    requires Wf(s) && p < |s.table| && Sum(Blocked(s, p)) == 0
    ensures forall c :: 0 <= c < |s.table| && Present(s, p, c) ==> s.table[c].state != RequestInProgress
  {
    forall c | 0 <= c < |s.table| && Present(s, p, c) ensures s.table[c].state != RequestInProgress {
      SumBounds(Blocked(s, p), c);
    }
  }

  // ----- requesting

  lemma RequestMoves(s: Rm, q: nat, held: set<int>, c: nat, reply: Reply)
    requires Wf(s) && Integrity(s) && ChargedExcept(s, q, held) && GrantsExcept(s, q)
    requires q < |s.table| && c < |s.table| && IsProd(q) && IsCons(c) && !Refuses(s.table[c].state, reply)
    ensures var o := ConsumerRequest(s, c, s.table[q].maxBw, true, false, reply);
            && GrantsExcept(o.s, q)
            && o.s.table == s.table[c := o.s.table[c]]
            && (o.code == -EINPROGRESS <==> o.s.table[c].state == RequestInProgress)
            && (o.code == 0 <==> o.s.table[c].state == Granted)
  {
    var o := ConsumerRequest(s, c, s.table[q].maxBw, true, false, reply);
    RequestEffect(s, c, s.table[q].maxBw, true, false, reply);
    if !Active(s.table[c].state) {
      assert ChargedTo(s, q, held, c);
      UsageNonNegative(s, q, held, c);
      UnusedIsFree(s, q, held, c);
    }
    ConsumerMoves(s, o.s, c, q);
  }

  lemma RequestOneGrants(s: Rm, p: nat, k: nat, reply: Reply, held: set<int>)
    requires Structured(s) && p < |s.table| && k < |s.table| && IsProd(p) && Present(s, p, k)
    requires !Refuses(s.table[k].state, reply) && ChargedExcept(s, p, held) && GrantsExcept(s, p)
    ensures var o := RequestOne(s, p, k, reply);
            && GrantsExcept(o.s, p)
            && (forall i :: 0 <= i < |s.table| && i != k && i != p ==> o.s.table[i] == s.table[i])
            && o.s.table[p] == s.table[p].(pendingRequest :=
                 s.table[p].pendingRequest + Unit(o.s.table[k].state == RequestInProgress))
  {
    var t := AddPending(s, p, 1);
    ProducerChanged(s, t, p, held);
    GrantsFrame(s, t, p);
    RequestMoves(t, p, held, k, reply);
    var o := ConsumerRequest(t, k, t.table[p].maxBw, true, false, reply);
    var r := RequestOne(s, p, k, reply).s;
    assert r.table == o.s.table[p := r.table[p]] && r.peers == s.peers;
    GrantsFrame(o.s, r, p);
  }

  lemma RequestDoneGrants(s: Rm, p: nat, code: int, env: nat -> Reply)
    requires Structured(s) && p < |s.table| && IsProd(p) && s.table[p].state == RequestInProgress
    requires ChargedExcept(s, p, Between(s, p, 0, |s.table|)) && GrantsExcept(s, p)
    requires s.table[p].pendingRequest == Sum(Blocked(s, p))
    ensures Granting(RequestFrom(s, p, |s.table|, code, env).s)
  {
    var r := RequestFrom(s, p, |s.table|, code, env).s;
    GrantsFrame(s, r, p);
    if s.table[p].pendingRequest == 0 {
      NoneBlocked(s, p);
      forall c | 0 <= c < |s.table| && Present(s, p, c) ensures s.table[c].state == Granted {
        assert Present(s, c, p);
        HeldIsActive(s, p, Between(s, p, 0, |s.table|), p, c);
      }
      assert forall c :: 0 <= c < |s.table| ==> Present(r, p, c) == Present(s, p, c);
    } else {
      SumNonNegative(Blocked(s, p));
    }
    assert GrantOk(r, p);
  }

  /** Before slot k of the request loop: the consumers below k are charged, and those of them
      still in progress are counted. */
  ghost predicate AskedBelow(s: Rm, p: nat, k: nat)
  {
    && Structured(s) && p < |s.table| && k <= |s.table| && IsProd(p) && s.table[p].live
    && s.table[p].state == RequestInProgress
    && ChargedExcept(s, p, Between(s, p, 0, k)) && GrantsExcept(s, p)
    && s.table[p].pendingRequest == Sum(Blocked(s, p)[..k])
  }

  lemma AskOne(s: Rm, p: nat, k: nat, reply: Reply)
    requires AskedBelow(s, p, k) && k < |s.table| && Present(s, p, k) && !Refuses(s.table[k].state, reply)
    ensures Good(RequestOne(s, p, k, reply).code) && AskedBelow(RequestOne(s, p, k, reply).s, p, k + 1)
  {
    var r := RequestOne(s, p, k, reply).s;
    assert Present(s, k, p);
    RequestOneKeeps(s, p, k, reply);
    RequestOneCharged(s, p, k, reply, Between(s, p, 0, k));
    RequestOneGrants(s, p, k, reply, Between(s, p, 0, k));
    BetweenStep(s, r, p, k);
    BlockedStep(s, r, p, k);
  }

  lemma AskNone(s: Rm, p: nat, k: nat)
    requires AskedBelow(s, p, k) && k < |s.table| && !Present(s, p, k)
    ensures AskedBelow(s, p, k + 1)
  {
    assert !Present(s, k, p);
    BetweenStep(s, s, p, k);
    assert Blocked(s, p)[..k + 1][..k] == Blocked(s, p)[..k];
  }

  lemma {:induction false} RequestFromGrants(s: Rm, p: nat, k: nat, code: int, env: nat -> Reply)
    requires AskedBelow(s, p, k) && Willing(s, p, k, env)
    ensures Granting(RequestFrom(s, p, k, code, env).s)
    decreases |s.table| - k
  {
    if k == |s.table| {
      assert Blocked(s, p)[..k] == Blocked(s, p);
      RequestDoneGrants(s, p, code, env);
    } else {
      assert !RefusedAt(s, p, k, env);
      WillingTurn(s, p, k, env);
      if Present(s, p, k) {
        var o := RequestOne(s, p, k, env(k));
        AskOne(s, p, k, env(k));
        RequestFromGrants(o.s, p, k + 1, if o.code == 0 then code else o.code, env);
      } else {
        AskNone(s, p, k);
        RequestFromGrants(s, p, k + 1, code, env);
      }
    }
  }

  lemma BlockedStep(s: Rm, r: Rm, p: nat, k: nat)
    requires Wf(s) && Wf(r) && |r.table| == |s.table| && r.peers == s.peers && p < |s.table| && k < |s.table|
    requires Symmetric(s) && Present(s, p, k)
    requires forall i :: 0 <= i < |s.table| && i != k && i != p ==> r.table[i] == s.table[i]
    ensures Sum(Blocked(r, p)[..k + 1]) ==
            Sum(Blocked(s, p)[..k]) + Unit(r.table[k].state == RequestInProgress)
  {
    assert !Present(s, p, p);
    assert Blocked(r, p)[..k + 1][..k] == Blocked(s, p)[..k];
  }

  lemma StillWilling(s: Rm, t: Rm, p: nat, env: nat -> Reply)
    requires Wf(s) && Symmetric(s) && Wf(t) && p < |s.table| && |t.table| == |s.table| && Willing(s, p, 0, env)
    requires t.peers == s.peers && forall j :: 0 <= j < |s.table| && j != p ==> t.table[j] == s.table[j]
    ensures Willing(t, p, 0, env)
  {
    assert !Present(s, p, p);
    assert forall j :: 0 <= j < |s.table| ==> RefusedAt(t, p, j, env) == RefusedAt(s, p, j, env);
  }

  lemma RequestGrants(s: Rm, p: nat, env: nat -> Reply)
    requires Structured(s) && Charged(s) && Granting(s)
    requires p < |s.table| && IsProd(p) && s.table[p].live
    requires s.table[p].state == Released ==> Willing(s, p, 0, env)
    ensures Granting(ProducerRequest(s, p, env).s)
  {
    if s.table[p].state == Released {
      var t := Put(s, p, s.table[p].(state := RequestInProgress, pendingRequest := 0));
      StructuredFrame(s, t);
      Focus(s, p);
      ProducerChanged(s, t, p, {});
      GrantsFrame(s, t, p);
      assert Between(t, p, 0, 0) == {};
      StillWilling(s, t, p, env);
      RequestFromGrants(t, p, 0, 0, env);
    }
  }

  /** What a request does to each consumer: exactly what its driver answered. */
  lemma RequestOneOutcome(s: Rm, p: nat, k: nat, reply: Reply)
    requires Wf(s) && p < |s.table| && k < |s.table| && IsProd(p) && IsCons(k)
    requires !Refuses(s.table[k].state, reply)
    ensures var r := RequestOne(s, p, k, reply).s;
            && r.table[k].state == StateAfterRequest(s.table[k].state, reply)
            && Good(RequestOne(s, p, k, reply).code)
            && forall c :: 0 <= c < |s.table| && IsCons(c) && c != k ==> r.table[c] == s.table[c]
  {
    RequestEffect(AddPending(s, p, 1), k, s.table[p].maxBw, true, false, reply);
  }

  lemma RequestOneAnswers(s: Rm, p: nat, k: nat, reply: Reply)
    requires Wf(s) && Symmetric(s) && p < |s.table| && k < |s.table| && IsProd(p) && IsCons(k)
    requires !Refuses(s.table[k].state, reply)
    ensures var o := RequestOne(s, p, k, reply); Good(o.code) && Symmetric(o.s)
  {
    RequestOneOutcome(s, p, k, reply);
    SymmetricFrame(s, RequestOne(s, p, k, reply).s);
  }

  /** In r the consumers of p from slot k on have moved as answered; all others are as in s. */
  ghost predicate MovedFrom(s: Rm, r: Rm, p: nat, k: nat, env: nat -> Reply)
    requires Wf(s) && p < |s.table| && |r.table| == |s.table|
  {
    forall c :: 0 <= c < |s.table| && IsCons(c) ==>
      r.table[c].state == if c >= k && Present(s, p, c) then StateAfterRequest(s.table[c].state, env(c))
                          else s.table[c].state
  }

  lemma MovedOneMore(s: Rm, r: Rm, p: nat, k: nat, env: nat -> Reply)
    requires Wf(s) && p < |s.table| && k < |s.table| == |r.table| && IsProd(p) && IsCons(k)
    requires Present(s, p, k) && !Refuses(s.table[k].state, env(k))
    requires MovedFrom(RequestOne(s, p, k, env(k)).s, r, p, k + 1, env)
    ensures MovedFrom(s, r, p, k, env)
  {
    var t := RequestOne(s, p, k, env(k)).s;
    RequestOneOutcome(s, p, k, env(k));
    assert forall c :: 0 <= c < |s.table| ==> Present(t, p, c) == Present(s, p, c);
  }

  lemma MovedNoMore(s: Rm, r: Rm, p: nat, k: nat, env: nat -> Reply)
    requires Wf(s) && p < |s.table| && k < |s.table| == |r.table|
    requires !Present(s, p, k) && MovedFrom(s, r, p, k + 1, env)
    ensures MovedFrom(s, r, p, k, env)
  {
  }

  lemma RequestDoneOutcome(s: Rm, p: nat, code: int, env: nat -> Reply)
    requires Wf(s) && p < |s.table| && IsProd(p)
    ensures MovedFrom(s, RequestFrom(s, p, |s.table|, code, env).s, p, |s.table|, env)
  {
  }

  lemma {:induction false} RequestFromOutcome(s: Rm, p: nat, k: nat, code: int, env: nat -> Reply)
    requires Wf(s) && Symmetric(s) && p < |s.table| && k <= |s.table| && IsProd(p) && Willing(s, p, k, env)
    ensures MovedFrom(s, RequestFrom(s, p, k, code, env).s, p, k, env)
    decreases |s.table| - k
  {
    if k < |s.table| {
      if Present(s, p, k) {
        var o := RequestOne(s, p, k, env(k));
        var next := if o.code == 0 then code else o.code;
        assert !RefusedAt(s, p, k, env);
        WillingTurn(s, p, k, env);
        RequestOneAnswers(s, p, k, env(k));
        RequestFromOutcome(o.s, p, k + 1, next, env);
        MovedOneMore(s, RequestFrom(o.s, p, k + 1, next, env).s, p, k, env);
      } else {
        RequestFromOutcome(s, p, k + 1, code, env);
        MovedNoMore(s, RequestFrom(s, p, k + 1, code, env).s, p, k, env);
      }
    } else {
      RequestDoneOutcome(s, p, code, env);
    }
  }

  /** Requesting a released producer: every consumer moves as its driver answered, no other
      consumer moves, and the producer is granted exactly if all its consumers are. */
  lemma RequestOutcome(s: Rm, p: nat, env: nat -> Reply)
    requires Structured(s) && Charged(s) && Granting(s) && p < |s.table|
    requires IsProd(p) && s.table[p].live && s.table[p].state == Released && Willing(s, p, 0, env)
    ensures var r := ProducerRequest(s, p, env).s;
            && MovedFrom(s, r, p, 0, env)
            && Active(r.table[p].state)
            && (r.table[p].state == Granted <==>
                  forall c :: 0 <= c < |s.table| && Present(s, p, c) ==> r.table[c].state == Granted)
            && r.table[p].pendingRequest == Sum(Blocked(r, p))
  {
    var t := Put(s, p, s.table[p].(state := RequestInProgress, pendingRequest := 0));
    var r := ProducerRequest(s, p, env).s;
    StructuredFrame(s, t);
    StillWilling(s, t, p, env);
    RequestFromOutcome(t, p, 0, 0, env);
    RequestFromKeeps(t, p, 0, 0, env);
    RequestGrants(s, p, env);
    assert GrantOk(r, p);
    assert forall c :: 0 <= c < |s.table| ==> Present(t, p, c) == Present(s, p, c) == Present(r, p, c);
    if r.table[p].state == Granted {
      SumZeros(Blocked(r, p));
    } else {
      var c := SumPositive(Blocked(r, p));
      assert Present(s, p, c);
    }
  }

  // ----- releasing

  lemma ReleaseMoves(s: Rm, q: nat, held: set<int>, c: nat, reply: Reply)
    requires Wf(s) && Integrity(s) && ChargedExcept(s, q, held) && GrantsExcept(s, q)
    requires q < |s.table| && c < |s.table| && IsProd(q) && IsCons(c) && c in held
    ensures var o := ConsumerRelease(s, c, s.table[q].maxBw, true, reply);
            && GrantsExcept(o.s, q)
            && o.s.table == s.table[c := o.s.table[c]]
            && (o.s.table[c].state == s.table[c].state || !Active(o.s.table[c].state))
  {
    var o := ConsumerRelease(s, c, s.table[q].maxBw, true, reply);
    ReleaseEffect(s, c, s.table[q].maxBw, true, reply);
    ReleaseUncharges(s, q, held, c, reply);
    if o.s.table[c].state != s.table[c].state {
      UnusedIsFree(o.s, q, held - {c}, c);
      assert forall p :: 0 <= p < |s.table| ==> Present(o.s, p, c) == Present(s, p, c);
    }
    ConsumerMoves(s, o.s, c, q);
  }

  lemma ReleaseOneGrants(s: Rm, p: nat, k: nat, reply: Reply, held: set<int>)
    requires Wf(s) && Integrity(s) && p < |s.table| && k < |s.table| && IsProd(p) && Present(s, p, k)
    requires ChargedExcept(s, p, held) && k in held && GrantsExcept(s, p)
    ensures GrantsExcept(ReleaseOne(s, p, k, reply), p)
  {
    var t := AddPendingRelease(s, p, 1);
    ProducerChanged(s, t, p, held);
    GrantsFrame(s, t, p);
    ReleaseMoves(t, p, held, k, reply);
    var o := ConsumerRelease(t, k, t.table[p].maxBw, true, reply);
    GrantsFrame(o.s, ReleaseOne(s, p, k, reply), p);
  }

  lemma ReleaseTurnGrants(s: Rm, p: nat, k: nat, reply: Reply)
    requires HeldFrom(s, p, k) && k < |s.table| && GrantsExcept(s, p)
    ensures GrantsExcept(if Present(s, p, k) then ReleaseOne(s, p, k, reply) else s, p)
  {
    if Present(s, p, k) {
      assert Present(s, k, p);
      ReleaseOneGrants(s, p, k, reply, Between(s, p, k, |s.table|));
    }
  }

  lemma {:induction false} ReleaseFromGrants(s: Rm, p: nat, k: nat, env: nat -> Reply)
    requires HeldFrom(s, p, k) && GrantsExcept(s, p)
    ensures GrantsExcept(ReleaseFrom(s, p, k, env), p)
    decreases |s.table| - k
  {
    if k == |s.table| {
      GrantsFrame(s, ReleaseFrom(s, p, k, env), p);
    } else {
      ReleaseTurnCharged(s, p, k, env(k));
      ReleaseTurnGrants(s, p, k, env(k));
      ReleaseFromGrants(if Present(s, p, k) then ReleaseOne(s, p, k, env(k)) else s, p, k + 1, env);
    }
  }

  /** Whether or not the released producer itself was consistent before. */
  lemma ReleaseGrants(s: Rm, p: nat, env: nat -> Reply)
    requires Structured(s) && Charged(s) && p < |s.table| && IsProd(p) && s.table[p].live
    requires GrantsExcept(s, p)
    ensures Granting(ProducerRelease(s, p, env).s)
  {
    var r := ProducerRelease(s, p, env).s;
    ReleaseStructured(s, p, env);
    if s.table[p].state != Released {
      var t := Put(s, p, s.table[p].(state := ReleaseInProgress, pendingRelease := 0));
      Focus(s, p);
      ProducerChanged(s, t, p, Holds(s, p));
      GrantsFrame(s, t, p);
      assert Between(t, p, 0, |s.table|) == Holds(s, p);
      ReleaseFromGrants(t, p, 0, env);
    }
    assert GrantOk(r, p);
  }

  // ----- adding an edge

  /** Adding an edge to an active producer: what becomes of the two records. */
  lemma ActiveAddEffect(s: Rm, p: nat, c: nat, userspace: bool, reply: Reply)
    requires Wf(s) && BothExist(s, p, c) && !Refuses(s.table[c].state, reply)
    requires CheckDependency(s, p, c).None? && Active(s.table[p].state)
    ensures var t := NewEdge(s, p, c, userspace); var r := AddDependency(s, p, c, userspace, reply).s;
            var st := StateAfterRequest(s.table[c].state, reply);
            && r.peers == t.peers
            && (forall i :: 0 <= i < |s.table| && i != p && i != c ==> r.table[i] == s.table[i])
            && r.table[c].state == st
            && r.table[p].pendingRequest == s.table[p].pendingRequest + Unit(st == RequestInProgress)
            && r.table[p].state == if st == RequestInProgress then RequestInProgress else s.table[p].state
  {
    var t := NewEdge(s, p, c, userspace);
    var u := AddPending(SetState(t, p, RequestInProgress), p, 1);
    RequestEffect(u, c, u.table[p].maxBw, true, false, reply);
  }

  lemma ActiveAddOthers(s: Rm, r: Rm, p: nat, c: nat, userspace: bool, reply: Reply)
    requires Structured(s) && Charged(s) && GrantsExcept(s, p) && BothExist(s, p, c) && Wf(r)
    requires |r.table| == |s.table| && r.peers == NewEdge(s, p, c, userspace).peers
    requires forall i :: 0 <= i < |s.table| && i != p && i != c ==> r.table[i] == s.table[i]
    requires r.table[c].state == StateAfterRequest(s.table[c].state, reply)
    ensures GrantsExcept(r, p)
  {
    if !Active(s.table[c].state) {
      assert ChargedTo(s, |s.table|, {}, c);
      UsageNonNegative(s, |s.table|, {}, c);
      UnusedIsFree(s, |s.table|, {}, c);
    }
    GrantsFrame(s, r, p);
  }

  /** A producer that was consistent and takes on one active consumer. */
  lemma WaitsForOneMore(s: Rm, r: Rm, p: nat, c: nat)
    requires Wf(s) && Wf(r) && |r.table| == |s.table| && p < |s.table| && c < |s.table|
    requires Active(s.table[p].state) && GrantOk(s, p) && !Present(s, p, c) && Present(r, p, c)
    requires r.peers[p] == s.peers[p][c := r.peers[p][c]]
    requires forall i :: 0 <= i < |s.table| && i != c && Present(s, p, i) ==> r.table[i].state == s.table[i].state
    requires Active(r.table[c].state)
    requires r.table[p].pendingRequest == s.table[p].pendingRequest + Unit(r.table[c].state == RequestInProgress)
    requires r.table[p].state ==
      if r.table[c].state == RequestInProgress then RequestInProgress else s.table[p].state
    ensures GrantOk(r, p)
  {
    var b := Unit(r.table[c].state == RequestInProgress);
    assert forall i :: 0 <= i < |s.table| && i != c ==> Present(r, p, i) == Present(s, p, i);
    assert Blocked(r, p) == Blocked(s, p)[c := b];
    SumUpdate(Blocked(s, p), c, b);
    if s.table[p].state == Granted {
      SumZeros(Blocked(s, p));
    }
  }

  lemma AddGrants(s: Rm, p: nat, c: nat, userspace: bool, reply: Reply)
    requires Structured(s) && Charged(s) && Granting(s) && BothExist(s, p, c)
    requires Active(s.table[p].state) && CheckDependency(s, p, c).None? ==> !Refuses(s.table[c].state, reply)
    ensures Granting(AddDependency(s, p, c, userspace, reply).s)
  {
    if CheckDependency(s, p, c).None? {
      var r := AddDependency(s, p, c, userspace, reply).s;
      var t := NewEdge(s, p, c, userspace);
      assert !Present(s, p, p);
      if Active(s.table[p].state) {
        ActiveAddEffect(s, p, c, userspace, reply);
        ActiveAddOthers(s, r, p, c, userspace, reply);
        assert r.peers[p] == s.peers[p][c := t.peers[p][c]];
        WaitsForOneMore(s, r, p, c);
      } else {
        AddTouches(s, p, c, userspace, reply);
        GrantsFrame(s, r, p);
      }
    }
  }

  // ----- deleting an edge

  /** The deletion that a waiting producer does not survive: an edge it no longer waits for. */
  predicate Premature(s: Rm, p: nat, c: nat)
    requires p < |s.table| && c < |s.table|
  {
    s.table[p].state == RequestInProgress && s.table[c].state == Granted
  }

  lemma CutOthers(s: Rm, p: nat, c: nat)
    requires Structured(s) && GrantsExcept(s, p) && BothExist(s, p, c)
    ensures GrantsExcept(Cut(s, p, c), p)
  {
    ForgetTouches(s, p, c);
    GrantsFrame(s, Cut(s, p, c), p);
  }

  /** What the producer's side of a deletion does to an active producer. */
  lemma CutEffect(s: Rm, p: nat, c: nat)
    requires Structured(s) && BothExist(s, p, c)
    ensures var t := Cut(s, p, c); var r := s.table[p];
            && t.peers[p] == s.peers[p][c := NoPeer]
            && (forall i :: 0 <= i < |s.table| && i != p ==> t.table[i] == s.table[i])
            && (r.state == Granted ==> t.table[p].state == Granted && t.table[p].pendingRequest == r.pendingRequest)
            && (r.state == RequestInProgress && r.pendingRequest > 0 ==>
                  && t.table[p].pendingRequest == r.pendingRequest - 1
                  && t.table[p].state == if s.table[c].state == RequestInProgress && r.pendingRequest == 1
                                         then Granted else RequestInProgress)
  {
  }

  /** The producer that loses a consumer it waits for, or does not wait at all. */
  lemma WaitsForOneLess(s: Rm, r: Rm, p: nat, c: nat)
    requires Wf(s) && Wf(r) && |r.table| == |s.table| && p < |s.table| && c < |s.table|
    requires Active(s.table[p].state) && GrantOk(s, p) && Present(s, p, c)
    requires r.peers[p] == s.peers[p][c := NoPeer]
    requires forall i :: 0 <= i < |s.table| && i != c && Present(s, p, i) ==>
      r.table[i].state == s.table[i].state && Active(s.table[i].state)
    requires s.table[p].state == Granted ==>
      r.table[p].state == Granted && r.table[p].pendingRequest == s.table[p].pendingRequest
    requires s.table[p].state == RequestInProgress ==>
      && s.table[c].state == RequestInProgress
      && r.table[p].pendingRequest == s.table[p].pendingRequest - 1
      && r.table[p].state == if s.table[p].pendingRequest == 1 then Granted else RequestInProgress
    ensures GrantOk(r, p)
  {
    assert forall i :: 0 <= i < |s.table| && i != c ==> Present(r, p, i) == Present(s, p, i);
    assert Blocked(r, p) == Blocked(s, p)[c := 0];
    SumUpdate(Blocked(s, p), c, 0);
    if r.table[p].state == Granted && s.table[p].state == RequestInProgress {
      NoneBlocked(r, p);
    }
  }

  lemma CutSelf(s: Rm, p: nat, c: nat)
    requires Structured(s) && Charged(s) && BothExist(s, p, c) && Present(s, p, c)
    requires GrantOk(s, p) && !Premature(s, p, c)
    ensures GrantOk(Cut(s, p, c), p)
  {
    CutEffect(s, p, c);
    ForgetTouches(s, p, c);
    if Active(s.table[p].state) {
      ActiveConsumers(s, p);
      WaitsForOneLess(s, Cut(s, p, c), p, c);
    }
  }

  /** All consumers of an active producer are active. */
  lemma ActiveConsumers(s: Rm, p: nat)
    requires Structured(s) && Charged(s) && p < |s.table| && IsProd(p) && Active(s.table[p].state)
    ensures forall c :: 0 <= c < |s.table| && Present(s, p, c) ==> Active(s.table[c].state) && s.table[c].usage > 0
  {
    forall c | 0 <= c < |s.table| && Present(s, p, c) ensures Active(s.table[c].state) && s.table[c].usage > 0 {
      assert Present(s, c, p);
      HeldIsActive(s, |s.table|, {}, p, c);
    }
  }

  /** After the cut the consumer is released: it keeps its state or becomes inactive. */
  lemma DeleteEffect(s: Rm, p: nat, c: nat, userspace: bool, reply: Reply)
    requires Structured(s) && BothExist(s, p, c)
    requires Present(s, p, c) && s.peers[p][c].userspace == userspace
    ensures var t := Cut(s, p, c); var r := DeleteDependency(s, p, c, userspace, reply).s;
            && r.peers == t.peers && r.table[p] == t.table[p]
            && (forall i :: 0 <= i < |s.table| && i != p && i != c ==> r.table[i] == s.table[i])
            && (r.table[c].state == s.table[c].state || !Active(r.table[c].state))
            && (!Active(s.table[p].state) ==> r.table[c] == s.table[c])
  {
    assert Present(s, c, p);
    var t := Cut(s, p, c);
    CutEffect(s, p, c);
    if Active(s.table[p].state) {
      ReleaseEffect(t, c, t.table[p].maxBw, true, reply);
    }
  }

  /** No other active producer notices. */
  lemma DeleteOthers(s: Rm, p: nat, c: nat, userspace: bool, reply: Reply)
    requires Structured(s) && Charged(s) && GrantsExcept(s, p) && BothExist(s, p, c)
    requires Present(s, p, c) && s.peers[p][c].userspace == userspace
    ensures GrantsExcept(DeleteDependency(s, p, c, userspace, reply).s, p)
  {
    assert Present(s, c, p);
    var t := Cut(s, p, c);
    CutOthers(s, p, c);
    CutStructured(s, p, c);
    if Active(s.table[p].state) {
      Focus(s, p);
      CutCharged(s, p, c);
      ReleaseMoves(t, p, Holds(s, p), c, reply);
    }
  }

  lemma DeleteUndisturbed(s: Rm, p: nat, c: nat, userspace: bool, reply: Reply)
    requires Structured(s) && BothExist(s, p, c)
    requires Present(s, p, c) && s.peers[p][c].userspace == userspace
    ensures Undisturbed(Cut(s, p, c), DeleteDependency(s, p, c, userspace, reply).s, p)
  {
    DeleteEffect(s, p, c, userspace, reply);
    CutEffect(s, p, c);
    assert !Present(s, p, p);
  }

  lemma DeleteGrants(s: Rm, p: nat, c: nat, userspace: bool, reply: Reply)
    requires Structured(s) && Charged(s) && GrantsExcept(s, p) && BothExist(s, p, c)
    ensures var r := DeleteDependency(s, p, c, userspace, reply).s;
            && GrantsExcept(r, p)
            && (GrantOk(s, p) && !Premature(s, p, c) ==> GrantOk(r, p))
  {
    DeleteGraph(s, p, c, userspace, reply);
    if Present(s, p, c) && s.peers[p][c].userspace == userspace {
      DeleteOthers(s, p, c, userspace, reply);
      DeleteUndisturbed(s, p, c, userspace, reply);
      UndisturbedGrant(Cut(s, p, c), DeleteDependency(s, p, c, userspace, reply).s, p);
      if GrantOk(s, p) && !Premature(s, p, c) {
        CutSelf(s, p, c);
      }
    }
  }

  /** A waiting producer whose count is wrong. */
  ghost predicate Miscounts(s: Rm, p: nat)
    requires Wf(s) && p < |s.table|
  {
    s.table[p].state == RequestInProgress && s.table[p].pendingRequest != Sum(Blocked(s, p))
  }

  /** The other direction: a premature deletion leaves the count one short. */
  lemma PrematureBreaks(s: Rm, p: nat, c: nat, userspace: bool, reply: Reply)
    requires Structured(s) && Charged(s) && BothExist(s, p, c) && GrantOk(s, p)
    requires Present(s, p, c) && s.peers[p][c].userspace == userspace && Premature(s, p, c)
    ensures Miscounts(DeleteDependency(s, p, c, userspace, reply).s, p)
    ensures var r := DeleteDependency(s, p, c, userspace, reply).s;
            r.table[p].pendingRequest == Sum(Blocked(r, p)) - 1
  {
    DeleteUndisturbed(s, p, c, userspace, reply);
    CutEffect(s, p, c);
    var t := Cut(s, p, c);
    var r := DeleteDependency(s, p, c, userspace, reply).s;
    assert Blocked(t, p) == Blocked(s, p)[c := 0];
    SumUpdate(Blocked(s, p), c, 0);
    assert forall i :: 0 <= i < |s.table| ==> Present(r, p, i) == Present(t, p, i);
    assert Blocked(r, p) == Blocked(t, p);
  }

  // ----- deleting a resource

  lemma DeleteOneSpares(s: Rm, p: nat, k: nat, reply: Reply)
    requires Structured(s) && Charged(s) && Lookup(s, p) && IsProd(p) && k < |s.table|
    requires GrantsExcept(s, p)
    ensures GrantsExcept(DeleteOne(s, p, k, reply), p)
  {
    if Present(s, p, k) {
      DeleteGrants(s, p, k, s.peers[p][k].userspace, reply);
    }
  }

  lemma {:induction false} DeleteProducerFromGrants(s: Rm, p: nat, k: nat, env: nat -> Reply)
    requires Structured(s) && Charged(s) && Lookup(s, p) && IsProd(p) && k <= |s.table|
    requires GrantsExcept(s, p)
    ensures GrantsExcept(DeleteFrom(s, p, k, env), p)
    decreases |s.table| - k
  {
    if k < |s.table| {
      DeleteOneStructured(s, p, k, env(k));
      DeleteOneCharged(s, p, k, env(k));
      DeleteOneSpares(s, p, k, env(k));
      DeleteProducerFromGrants(DeleteOne(s, p, k, env(k)), p, k + 1, env);
    }
  }

  /** Some producer waits for others while c, which it also depends on, is already granted. */
  ghost predicate PrematureAny(s: Rm, c: nat)
    requires Wf(s) && c < |s.table|
  {
    exists p :: 0 <= p < |s.table| && Present(s, c, p) && Premature(s, p, c)
  }

  lemma NoneTurnsPremature(s: Rm, r: Rm, c: nat, k: nat)
    requires Wf(s) && Symmetric(s) && Wf(r) && |r.table| == |s.table| && c < |s.table| && k < |s.table|
    requires !PrematureAny(s, c) && r.peers[c] == s.peers[c][k := NoPeer]
    requires forall i :: 0 <= i < |s.table| && i != k && i != c ==> r.table[i] == s.table[i]
    requires r.table[c].state == s.table[c].state || !Active(r.table[c].state)
    ensures !PrematureAny(r, c)
  {
    forall p | 0 <= p < |s.table| && Present(r, c, p) ensures !Premature(r, p, c) {
      assert Present(s, c, p) && !Premature(s, p, c) && p != c;
    }
  }

  lemma DeleteOneGrants(s: Rm, c: nat, k: nat, reply: Reply)
    requires Structured(s) && Charged(s) && Lookup(s, c) && IsCons(c) && k < |s.table|
    requires Granting(s) && !PrematureAny(s, c)
    ensures var r := DeleteOne(s, c, k, reply); Granting(r) && !PrematureAny(r, c)
  {
    if Present(s, c, k) {
      var r := DeleteOne(s, c, k, reply);
      assert Present(s, k, c) && !Premature(s, k, c) && GrantOk(s, k);
      DeleteGrants(s, k, c, s.peers[c][k].userspace, reply);
      DeleteEffect(s, k, c, s.peers[c][k].userspace, reply);
      DeleteOneStructured(s, c, k, reply);
      NoneTurnsPremature(s, r, c, k);
    }
  }

  lemma {:induction false} DeleteConsumerFromGrants(s: Rm, c: nat, k: nat, env: nat -> Reply)
    requires Structured(s) && Charged(s) && Lookup(s, c) && IsCons(c) && k <= |s.table|
    requires Granting(s) && !PrematureAny(s, c)
    ensures Granting(DeleteFrom(s, c, k, env))
    decreases |s.table| - k
  {
    if k < |s.table| {
      DeleteOneStructured(s, c, k, env(k));
      DeleteOneCharged(s, c, k, env(k));
      DeleteOneGrants(s, c, k, env(k));
      DeleteConsumerFromGrants(DeleteOne(s, c, k, env(k)), c, k + 1, env);
    }
  }

  lemma DeleteOneKeepsMiscount(s: Rm, c: nat, k: nat, reply: Reply, p: nat)
    requires Structured(s) && Lookup(s, c) && IsCons(c) && k < |s.table|
    requires p < |s.table| && IsProd(p) && Miscounts(s, p) && !Present(s, p, c)
    ensures var r := DeleteOne(s, c, k, reply); Miscounts(r, p) && !Present(r, p, c)
  {
    if Present(s, c, k) {
      assert Present(s, k, c);
      DeleteOneStructured(s, c, k, reply);
      DeleteEffect(s, k, c, s.peers[c][k].userspace, reply);
      CutEffect(s, k, c);
      MiscountStays(s, DeleteOne(s, c, k, reply), p, k, c);
    }
  }

  lemma MiscountStays(s: Rm, r: Rm, p: nat, k: nat, c: nat)
    requires Wf(s) && Symmetric(s) && Wf(r) && |r.table| == |s.table| && p < |s.table| && Miscounts(s, p)
    requires c < |s.table| && !Present(s, p, c) && p != k && p != c && k < |s.table| && k % 2 == p % 2
    requires r.peers[p] == s.peers[p]
    requires forall i :: 0 <= i < |s.table| && i != k && i != c ==> r.table[i] == s.table[i]
    ensures Miscounts(r, p) && !Present(r, p, c)
  {
    assert !Present(s, p, k);
    assert Blocked(r, p) == Blocked(s, p);
  }

  /** One turn: the premature deletion itself, or one that leaves it still to come. */
  lemma DeleteOneBreaks(s: Rm, c: nat, k: nat, reply: Reply, p: nat)
    requires Structured(s) && Charged(s) && Lookup(s, c) && IsCons(c) && k <= p < |s.table|
    requires Present(s, c, p) && Premature(s, p, c) && GrantOk(s, p)
    ensures var r := DeleteOne(s, c, k, reply);
            && Charged(r)
            && (k == p ==> Miscounts(r, p))
            && (k != p ==> Present(r, c, p) && Premature(r, p, c) && GrantOk(r, p))
  {
    var r := DeleteOne(s, c, k, reply);
    DeleteOneStructured(s, c, k, reply);
    assert Present(s, p, c);
    if Present(s, c, k) {
      assert Present(s, k, c);
      DeleteOneCharged(s, c, k, reply);
      if k == p {
        PrematureBreaks(s, p, c, s.peers[c][p].userspace, reply);
      } else {
        DeleteEffect(s, k, c, s.peers[c][k].userspace, reply);
        CutEffect(s, k, c);
        StillPremature(s, r, p, k, c);
      }
    }
  }

  /** When the deletion loop reaches slot k, the premature deletion of the edge of p is to come,
      or has been. */
  ghost predicate Doomed(s: Rm, c: nat, k: nat, p: nat)
  {
    && Structured(s) && Charged(s) && Lookup(s, c) && IsCons(c) && p < |s.table| && IsProd(p)
    && if k <= p then Present(s, c, p) && Premature(s, p, c) && GrantOk(s, p)
       else Miscounts(s, p) && !Present(s, p, c)
  }

  lemma DeleteOneDoomed(s: Rm, c: nat, k: nat, reply: Reply, p: nat)
    requires Doomed(s, c, k, p) && k < |s.table|
    ensures Doomed(DeleteOne(s, c, k, reply), c, k + 1, p)
  {
    DeleteOneStructured(s, c, k, reply);
    DeleteOneCharged(s, c, k, reply);
    if k <= p {
      DeleteOneBreaks(s, c, k, reply, p);
      assert k == p ==> !Present(DeleteOne(s, c, k, reply), c, p);
    } else {
      DeleteOneKeepsMiscount(s, c, k, reply, p);
    }
  }

  lemma DeleteFromBreaks(s: Rm, c: nat, env: nat -> Reply, p: nat)
    requires Doomed(s, c, 0, p)
    ensures Miscounts(DeleteFrom(s, c, 0, env), p)
  {
    var inv := (j: nat, t: Rm) => Doomed(t, c, j, p);
    forall j: nat, t: Rm ensures SlotKeeps(inv, t, c, j, env(j)) {
      if j < |t.table| && c < |t.table| && Wf(t) && inv(j, t) {
        DeleteOneDoomed(t, c, j, env(j), p);
      }
    }
    DeleteLoop(inv, s, c, 0, env);
  }

  lemma StillPremature(s: Rm, r: Rm, p: nat, k: nat, c: nat)
    requires Structured(s) && Structured(r) && Charged(r) && |r.table| == |s.table|
    requires p < |s.table| && k < |s.table| && c < |s.table| && p != k && IsProd(p) && IsProd(k) && IsCons(c)
    requires Present(s, p, c) && Premature(s, p, c) && GrantOk(s, p)
    requires r.peers[p] == s.peers[p]
    requires forall i :: 0 <= i < |s.table| && i != k && i != c ==> r.table[i] == s.table[i]
    requires r.table[c].state == s.table[c].state || !Active(r.table[c].state)
    ensures Present(r, c, p) && Premature(r, p, c) && GrantOk(r, p)
  {
    assert Present(r, p, c);
    HeldIsActive(r, |r.table|, {}, p, c);
    assert !Present(s, p, k);
    forall i | 0 <= i < |s.table| && Present(s, p, i) ensures r.table[i].state == s.table[i].state {
    }
    UndisturbedGrant(s, r, p);
  }

  lemma ClearGrants(s: Rm, i: nat, x: nat)
    requires Structured(s) && GrantsExcept(s, x) && i < |s.table| && (x == i || x >= |s.table|)
    requires forall j :: 0 <= j < |s.table| ==> s.peers[i][j] == NoPeer
    ensures Granting(Clear(s, i))
  {
    var r := Clear(s, i);
    assert r.peers[i] == s.peers[i];
    assert r.peers == s.peers;
    forall p | 0 <= p < |s.table| && IsProd(p) ensures GrantOk(r, p) {
      if p != i {
        assert !Present(s, i, p);
        assert !Present(s, p, i);
        UndisturbedGrant(s, r, p);
      }
    }
  }

  lemma ClearKeepsMiscount(s: Rm, i: nat, p: nat)
    requires Structured(s) && i < |s.table| && p < |s.table| && i != p && Miscounts(s, p)
    requires forall j :: 0 <= j < |s.table| ==> s.peers[i][j] == NoPeer
    ensures Miscounts(Clear(s, i), p)
  {
    var r := Clear(s, i);
    assert !Present(s, i, p);
    assert !Present(s, p, i);
    assert Blocked(r, p) == Blocked(s, p);
  }

  /** Deleting a resource keeps the grants, exactly if nobody waits beyond it. */
  lemma DeleteResourceGrants(s: Rm, i: nat, env: nat -> Reply)
    requires Structured(s) && Charged(s) && Granting(s) && Lookup(s, i)
    ensures Granting(Delete(s, i, env).s) <==> !(IsCons(i) && PrematureAny(s, i))
  {
    var t := DeleteFrom(s, i, 0, env);
    DeleteFromStructured(s, i, 0, env);
    DeleteFromCharged(s, i, 0, env);
    if IsProd(i) {
      DeleteProducerFromGrants(s, i, 0, env);
      ReleaseGrants(t, i, env);
      ReleaseStructured(t, i, env);
      ClearGrants(ProducerRelease(t, i, env).s, i, i);
    } else if !PrematureAny(s, i) {
      DeleteConsumerFromGrants(s, i, 0, env);
      ClearGrants(t, i, |s.table|);
    } else {
      var p :| 0 <= p < |s.table| && Present(s, i, p) && Premature(s, p, i);
      assert GrantOk(s, p);
      assert IsProd(p);
      DeleteFromBreaks(s, i, env, p);
      ClearKeepsMiscount(t, i, p);
      assert !GrantOk(Clear(t, i), p);
    }
  }

  // ----- completions, timers, profiles

  lemma NotifiedGrant(s: Rm, r: Rm, c: nat, p: nat)
    requires Structured(s) && Charged(s) && p < |s.table| && IsProd(p) && GrantOk(s, p)
    requires Wf(r) && r.peers == s.peers
    requires c < |s.table| && IsCons(c) && s.table[c].state == RequestInProgress && Present(s, c, p)
    requires |r.table| == |s.table| && r.table[p] == ProducerAfter(s.table[p], GrantedEvent)
    requires forall i :: 0 <= i < |s.table| && IsCons(i) ==>
      r.table[i].state == if i == c then Granted else s.table[i].state
    ensures GrantOk(r, p)
  {
    assert Present(s, p, c);
    if s.table[p].state == RequestInProgress {
      assert Blocked(r, p) == Blocked(s, p)[c := 0] by {
        assert forall i :: 0 <= i < |s.table| && Present(s, p, i) ==> IsCons(i);
      }
      SumUpdate(Blocked(s, p), c, 0);
      SumNonNegative(Blocked(r, p));
      ActiveConsumers(s, p);
      assert forall i :: 0 <= i < |s.table| ==> Present(r, p, i) == Present(s, p, i);
      if Sum(Blocked(r, p)) == 0 {
        NoneBlocked(r, p);
        forall i | 0 <= i < |s.table| && Present(r, p, i) ensures r.table[i].state == Granted {
          assert Present(s, p, i) && IsCons(i);
        }
      }
    }
  }

  /** What a grant does to the records. */
  lemma CompletionView(s: Rm, c: nat)
    requires Structured(s) && c < |s.table| && IsCons(c) && s.table[c].state == RequestInProgress
    ensures var r := HandleCb(s, c, GrantedEvent);
            forall i :: 0 <= i < |s.table| ==>
              && (IsCons(i) ==> r.table[i].state == if i == c then Granted else s.table[i].state)
              && (IsProd(i) ==>
                    r.table[i] == if Present(s, c, i) then ProducerAfter(s.table[i], GrantedEvent) else s.table[i])
  {
    var t := Perf(SetState(s, c, Granted), c);
    NotifyTouches(t, c, GrantedEvent, 0);
    assert HandleCb(s, c, GrantedEvent).table == Notified(t, c, GrantedEvent, 0);
    forall i | 0 <= i < |s.table| && IsCons(i) ensures !Present(s, c, i) {
    }
  }

  /** p depends on c and on nobody else that is still in progress. */
  ghost predicate WaitsOnlyFor(s: Rm, p: nat, c: nat)
    requires Wf(s) && p < |s.table| && c < |s.table|
  {
    && Present(s, p, c)
    && forall x :: 0 <= x < |s.table| && Present(s, p, x) && s.table[x].state == RequestInProgress ==> x == c
  }

  /** A grant of c grants exactly the waiting producers that wait for it only. */
  lemma HandleCbOutcome(s: Rm, c: nat, p: nat)
    requires Structured(s) && Charged(s) && Granting(s) && c < |s.table| && IsCons(c) && s.table[c].live
    requires p < |s.table| && IsProd(p)
    ensures HandleCb(s, c, GrantedEvent).table[p].state == Granted <==>
              s.table[p].state == Granted ||
              (s.table[c].state == RequestInProgress && s.table[p].state == RequestInProgress
               && WaitsOnlyFor(s, p, c))
  {
    var r := HandleCb(s, c, GrantedEvent);
    if s.table[c].state == RequestInProgress {
      CompletionView(s, c);
      HandleCbGrants(s, c, GrantedEvent);
      assert GrantOk(r, p);
      assert Present(s, p, c) <==> Present(s, c, p);
      forall x | 0 <= x < |s.table| ensures Present(r, p, x) == Present(s, p, x) && (Present(s, p, x) ==> IsCons(x)) {
      }
      if s.table[p].state == RequestInProgress && WaitsOnlyFor(s, p, c) {
        SumZeros(Blocked(r, p));
      }
    }
  }

  /** A completion keeps every producer's count equal to the consumers it waits for. */
  lemma HandleCbGrants(s: Rm, c: nat, ev: Event)
    requires Structured(s) && Charged(s) && Granting(s) && c < |s.table| && IsCons(c) && s.table[c].live
    ensures Granting(HandleCb(s, c, ev))
  {
    var r := HandleCb(s, c, ev);
    if s.table[c].state == RequestInProgress && ev == GrantedEvent {
      CompletionView(s, c);
      forall p | 0 <= p < |s.table| && IsProd(p) ensures GrantOk(r, p) {
        assert GrantOk(s, p);
        if Present(s, c, p) {
          NotifiedGrant(s, r, c, p);
        } else {
          assert !Present(s, p, c);
          UndisturbedGrant(s, r, p);
        }
      }
    } else if s.table[c].state == ReleaseInProgress && ev == ReleasedEvent {
      HandleReleasedGrants(s, c);
    }
  }

  lemma HandleReleasedGrants(s: Rm, c: nat)
    requires Structured(s) && Charged(s) && Granting(s) && c < |s.table| && IsCons(c) && s.table[c].live
    requires s.table[c].state == ReleaseInProgress
    ensures Granting(HandleCb(s, c, ReleasedEvent))
  {
    var r := HandleCb(s, c, ReleasedEvent);
    var t := SetState(s, c, Released);
    NotifyTouches(t, c, ReleasedEvent, 0);
    assert r.table == Notified(t, c, ReleasedEvent, 0);
    assert !Present(s, c, c);
    assert forall i :: 0 <= i < |s.table| && i != c ==> r.table[i] == s.table[i] by {
      forall i | 0 <= i < |s.table| && i != c ensures r.table[i] == s.table[i] {
        assert IsCons(i) ==> !Present(s, c, i);
      }
    }
    assert ChargedTo(s, |s.table|, {}, c);
    UsageNonNegative(s, |s.table|, {}, c);
    UnusedIsFree(s, |s.table|, {}, c);
    ConsumerMoves(s, r, c, |s.table|);
  }

  lemma TimerRequestGrants(s: Rm, c: nat, reply: Reply)
    requires Structured(s) && Charged(s) && Granting(s)
    ensures Granting(TimerRequest(s, c, reply).s)
  {
    if c < |s.table| && IsCons(c) && Lookup(s, c) {
      TimedRequestEffect(s, c, reply);
      assert ChargedTo(s, |s.table|, {}, c);
      UsageNonNegative(s, |s.table|, {}, c);
      if !Active(s.table[c].state) {
        UnusedIsFree(s, |s.table|, {}, c);
      }
      ConsumerMoves(s, TimerRequest(s, c, reply).s, c, |s.table|);
    }
  }

  lemma DelayedReleaseGrants(s: Rm, c: nat, reply: Reply)
    requires Structured(s) && Charged(s) && Granting(s)
    ensures Granting(DelayedRelease(s, c, reply))
  {
    if c < |s.table| && s.delayed[c] != 0 {
      var t := s.(delayed := s.delayed[c := s.delayed[c] - 1]);
      GrantsFrame(s, t, |s.table|);
      if IsCons(c) && Lookup(t, c) {
        ReleaseEffect(t, c, 0, false, reply);
        if s.table[c].usage == 0 {
          UnusedIsFree(s, |s.table|, {}, c);
        }
        ConsumerMoves(s, DelayedRelease(s, c, reply), c, |s.table|);
      }
    }
  }

  lemma ProfileGrants(s: Rm, i: nat, max: u32)
    requires Structured(s) && Granting(s) && Lookup(s, i)
    ensures Granting(SetProfile(s, i, max))
  {
    if max != s.table[i].maxBw {
      ProfileTable(s, i, max);
      GrantsFrame(s, SetProfile(s, i, max), |s.table|);
    }
  }

  lemma CreateGrants(s: Rm, i: nat, floor: int)
    requires Structured(s) && Granting(s)
    ensures Granting(Create(s, i, floor).s)
  {
    var r := Create(s, i, floor).s;
    if r != s {
      forall j | 0 <= j < |s.table| ensures s.peers[i][j] == NoPeer {
        assert !Present(s, i, j);
      }
      assert r.peers[i] == s.peers[i];
      GrantsFrame(s, r, |s.table|);
    }
  }

  lemma ResumeGrants(s: Rm, c: nat, prev: State, bw: u32, inc: bool, driver: int)
    requires Structured(s) && Charged(s) && Granting(s) && IsCons(c) && Lookup(s, c) && Good(driver)
    ensures Granting(RequestWork(s, c, prev, bw, true, inc, driver).s)
  {
    if driver == 0 {
      HandleCbGrants(s, c, GrantedEvent);
    } else {
      GrantsFrame(s, RequestWork(s, c, prev, bw, true, inc, driver).s, |s.table|);
    }
  }

  lemma SuspendGrants(s: Rm, c: nat, prev: State, driver: int)
    requires Structured(s) && Charged(s) && Granting(s) && IsCons(c) && Lookup(s, c) && Good(driver)
    ensures Granting(ReleaseWork(s, c, prev, true, driver).s)
  {
    var t := HandleCb(s, c, ReleasedEvent);
    HandleCbGrants(s, c, ReleasedEvent);
    GrantsFrame(t, Perf(t, c), |s.table|);
  }

  lemma GrantsSame(s: Rm, r: Rm)
    requires Wf(s) && Wf(r) && Granting(s) && r.table == s.table && r.peers == s.peers
    ensures Granting(r)
  {
    GrantsFrame(s, r, |s.table|);
  }

  /** A work item whose handler, if its driver fails, puts back a state that users of the consumer
      have seen change. */
  predicate Misleads(s: Rm, w: Work)
  {
    match w
    case Resume(c, prev, _, _) => IsCons(c) && Lookup(s, c) && s.table[c].usage > 0 && s.table[c].state != prev
    case Suspend(c, prev, _) => IsCons(c) && Lookup(s, c) && s.table[c].usage > 0 && s.table[c].state != prev
    case _ => false
  }

  /** An active producer notices that its consumer has left, or entered, the granted state. */
  lemma UserNotices(s: Rm, r: Rm, c: nat, prev: State, p: nat)
    requires PutBack(s, r, c, prev, 0, false) && Symmetric(s) && Charged(s) && IsCons(c) && p < |s.table|
    requires GrantOk(s, p) && Present(s, p, c) && Active(s.table[p].state) && Active(s.table[c].state)
    requires Active(prev) && prev != s.table[c].state
    ensures !GrantOk(r, p)
  {
    assert !Present(s, p, p);
    assert Present(r, p, c);
    if s.table[p].state == RequestInProgress {
      var v := Unit(prev == RequestInProgress);
      assert Blocked(r, p) == Blocked(s, p)[c := v];
      SumUpdate(Blocked(s, p), c, v);
    }
  }

  lemma PutBackGrants(s: Rm, r: Rm, c: nat, prev: State)
    requires PutBack(s, r, c, prev, 0, false) && Structured(s) && Structured(r) && Charged(s) && Charged(r)
    requires Granting(s) && IsCons(c)
    ensures Granting(r) <==> !(s.table[c].usage > 0 && s.table[c].state != prev)
  {
    var n := |s.table|;
    UsageNonNegative(s, n, {}, c);
    if s.table[c].usage > 0 && s.table[c].state != prev {
      var p := UsedIsHeld(s, n, {}, c);
      assert Present(s, c, p) && Present(s, p, c);
      HeldIsActive(s, n, {}, p, c);
      HeldIsActive(r, n, {}, p, c);
      assert GrantOk(s, p);
      UserNotices(s, r, c, prev, p);
    } else {
      if s.table[c].usage == 0 {
        UnusedIsFree(s, n, {}, c);
      }
      ConsumerUndisturbs(s, r, c);
    }
  }

  lemma ConsumerUndisturbs(s: Rm, r: Rm, c: nat)
    requires Structured(s) && Wf(r) && |r.table| == |s.table| && r.peers == s.peers && Granting(s)
    requires c < |s.table| && IsCons(c)
    requires forall i :: 0 <= i < |s.table| && i != c ==> r.table[i] == s.table[i]
    requires r.table[c].state != s.table[c].state ==>
      forall p :: 0 <= p < |s.table| && IsProd(p) && Present(s, p, c) ==> !Active(s.table[p].state)
    ensures Granting(r)
  {
    forall p | 0 <= p < |s.table| && IsProd(p) ensures Undisturbed(s, r, p) {
    }
    GrantsFrame(s, r, |s.table|);
  }

  lemma ExecuteGrants(s: Rm, w: Work, driver: int)
    requires Structured(s) && Charged(s) && Granting(s) && (w.ResourceCb? ==> IsCons(w.c))
    requires Good(driver) || !Botches(s, w)
    ensures Granting(Execute(s, w, driver)) <==> Good(driver) || !Misleads(s, w)
  {
    match w
    case Resume(c, prev, bw, inc) =>
      if c < |s.table| && IsCons(c) {
        if !Lookup(s, c) {
          GrantsSame(s, Vote(s, c, -1));
        } else if Good(driver) {
          ResumeGrants(s, c, prev, bw, inc, driver);
        } else {
          FailedWorkGrants(s, w, driver, c, prev);
        }
      }
    case Suspend(c, prev, bw) =>
      if c < |s.table| && IsCons(c) && Lookup(s, c) {
        if Good(driver) {
          SuspendGrants(s, c, prev, driver);
        } else {
          FailedWorkGrants(s, w, driver, c, prev);
        }
      }
    case ResourceCb(c, ev) =>
      if Lookup(s, c) { HandleCbGrants(s, c, ev); }
    case NotifyProd(_, _, _) =>
    case NotifyIpa(v, b) => GrantsSame(s, s.(profile := (v, b)));
  }

  lemma FailedWorkGrants(s: Rm, w: Work, driver: int, c: nat, prev: State)
    requires Structured(s) && Charged(s) && Granting(s) && !Good(driver) && !Botches(s, w)
    requires (w.Resume? || w.Suspend?) && w.c == c && w.prev == prev && IsCons(c) && Lookup(s, c)
    ensures Granting(Execute(s, w, driver)) <==> !Misleads(s, w)
  {
    var r := Execute(s, w, driver);
    assert PutBack(s, r, c, prev, 0, false);
    ExecuteStructured(s, w, driver);
    ExecuteCharged(s, w, driver);
    PutBackGrants(s, r, c, prev);
  }

  lemma FinishGrants(s: Rm, driver: int)
    requires Structured(s) && Charged(s) && Granting(s)
    requires Good(driver) || s.inflight.None? || !Botches(s, s.inflight.value)
    ensures Granting(FinishWork(s, driver)) <==>
              Good(driver) || s.inflight.None? || !Misleads(s, s.inflight.value)
  {
    if s.inflight.Some? {
      var t := Execute(s, s.inflight.value, driver);
      var r := FinishWork(s, driver);
      ExecuteGrants(s, s.inflight.value, driver);
      if Granting(t) { GrantsSame(t, r); }
      if Granting(r) { GrantsSame(r, t); }
    }
  }

  /** The operation deletes an edge to a granted consumer while its producer waits, or is a handler
      that puts back a state after its driver failed. */
  ghost predicate Rash(s: Rm, op: Op)
    requires Wf(s)
  {
    match op
    case OpDelete(i, _) => Lookup(s, i) && IsCons(i) && PrematureAny(s, i)
    case OpDel(p, c, u, _) =>
      BothExist(s, p, c) && Present(s, p, c) && s.peers[p][c].userspace == u && Premature(s, p, c)
    case OpFinishWork(driver) => !Good(driver) && s.inflight.Some? && Misleads(s, s.inflight.value)
    case _ => false
  }

  /** Whatever the drivers answer, a step that is not refused keeps every grant and every count
      exactly if it is not rash. */
  lemma StepGrants(s: Rm, op: Op)
    requires Structured(s) && Charged(s) && Granting(s) && !Refused(s, op)
    ensures Granting(Step(s, op)) <==> !Rash(s, op)
  {
    match op
    case OpCreate(i, floor) => CreateGrants(s, i, floor);
    case OpDelete(i, env) => if Lookup(s, i) { DeleteResourceGrants(s, i, env); }
    case OpAdd(p, c, u, reply) => if BothExist(s, p, c) { AddGrants(s, p, c, u, reply); }
    case OpDel(p, c, u, reply) => if BothExist(s, p, c) { DeleteEdgeGrants(s, p, c, u, reply); }
    case OpRequest(p, env) => if IsProd(p) && Lookup(s, p) { RequestGrants(s, p, env); }
    case OpRelease(p, env) => if IsProd(p) && Lookup(s, p) { ReleaseGrants(s, p, env); }
    case OpTimerRequest(c, reply) => TimerRequestGrants(s, c, reply);
    case OpDelayedRelease(c, reply) => DelayedReleaseGrants(s, c, reply);
    case OpProfile(i, max) => if Lookup(s, i) { ProfileGrants(s, i, max); }
    case OpComplete(c, ev) => GrantsSame(s, Step(s, op));
    case OpStartWork => GrantsSame(s, Step(s, op));
    case OpFinishWork(driver) => FinishGrants(s, driver);
  }

  lemma DeleteEdgeGrants(s: Rm, p: nat, c: nat, userspace: bool, reply: Reply)
    requires Structured(s) && Charged(s) && Granting(s) && BothExist(s, p, c)
    ensures var r := DeleteDependency(s, p, c, userspace, reply).s;
            Granting(r) <==> !(Present(s, p, c) && s.peers[p][c].userspace == userspace && Premature(s, p, c))
  {
    assert GrantOk(s, p);
    DeleteGraph(s, p, c, userspace, reply);
    DeleteGrants(s, p, c, userspace, reply);
    var r := DeleteDependency(s, p, c, userspace, reply).s;
    if Present(s, p, c) && s.peers[p][c].userspace == userspace && Premature(s, p, c) {
      PrematureBreaks(s, p, c, userspace, reply);
      assert !GrantOk(r, p);
    }
  }

  lemma InitGrants(n: nat)
    ensures Granting(Init(n))
  {
  }
}
