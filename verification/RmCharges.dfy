/**
 * A consumer's usage count and bandwidth demand are sums over the producers
 * that hold it, whatever the drivers answer, until a driver refuses a request
 * made for a producer. An edge is charged to its consumer while its producer is
 * active; in the middle of an operation on producer q the charged edges of q
 * are the set held instead.
 */
module RmCharges {
  import opened Basics
  import opened Totals
  import opened RmModel
  import opened RmStructure

  // ----- effects of one request and one release

  /** Drivers answer now or later, and do not fail. */
  predicate Good(driver: int)
  {
    driver == 0 || driver == -EINPROGRESS
  }

  /** A consumer in this state asks its driver, and the driver fails. */
  predicate Refuses(st: State, reply: Reply)
  {
    st == Released && reply.noBlock && !Good(reply.driver)
  }

  function StateAfterRequest(st: State, reply: Reply): State
  {
    if st == Released && reply.noBlock && reply.driver == 0 then Granted
    else if Active(st) then st
    else RequestInProgress
  }

  lemma RequestEffect(s: Rm, c: nat, bw: u32, inc: bool, wake: bool, reply: Reply)
    requires Wf(s) && c < |s.table| && !Refuses(s.table[c].state, reply) && (wake ==> Good(reply.driver))
    ensures var o := ConsumerRequest(s, c, bw, inc, wake, reply); var r := s.table[c];
            && o.s.table == s.table[c := r.(
                 state := StateAfterRequest(r.state, reply), neededBw := Wrap(r.neededBw + bw),
                 usage := r.usage + if inc then 1 else 0)]
            && (!wake ==>
                  o.code == if StateAfterRequest(r.state, reply) == RequestInProgress then -EINPROGRESS else 0)
  {
  }

  /** A refused request undoes itself on the consumer. */
  lemma RefusedEffect(s: Rm, c: nat, bw: u32, inc: bool, wake: bool, reply: Reply)
    requires Wf(s) && c < |s.table| && Refuses(s.table[c].state, reply)
    ensures var o := ConsumerRequest(s, c, bw, inc, wake, reply);
            o.s.table == s.table && o.code == reply.driver
  {
    WrapAdd(s.table[c].neededBw + bw, -(bw as int));
    var r := ConsumerRequest(s, c, bw, inc, wake, reply).s;
    assert r.table[c] == s.table[c];
  }

  /** A timer's request moves nothing but the state, and that of an inactive consumer only. */
  lemma TimedRequestEffect(s: Rm, c: nat, reply: Reply)
    requires Wf(s) && c < |s.table|
    ensures var r := ConsumerRequest(s, c, 0, false, true, reply).s;
            && r.table == s.table[c := s.table[c].(state := r.table[c].state)]
            && (Active(s.table[c].state) ==> r.table[c].state == s.table[c].state)
  {
    if Refuses(s.table[c].state, reply) {
      RefusedEffect(s, c, 0, false, true, reply);
    }
  }

  function UsageAfterRelease(r: Resource, dec: bool): int
  {
    if r.state != Released && dec && r.usage > 0 then r.usage - 1 else r.usage
  }

  function StateAfterRelease(r: Resource, dec: bool, reply: Reply): State
  {
    if Active(r.state) && UsageAfterRelease(r, dec) == 0 then
      if r.state != Granted || !reply.noBlock then ReleaseInProgress
      else if Good(reply.driver) then Released else Granted
    else r.state
  }

  lemma ReleaseEffect(s: Rm, c: nat, bw: u32, dec: bool, reply: Reply)
    requires Wf(s) && c < |s.table|
    ensures var o := ConsumerRelease(s, c, bw, dec, reply); var r := s.table[c];
            o.s.table == s.table[c := r.(
              state := StateAfterRelease(r, dec, reply), neededBw := Wrap(r.neededBw - bw as int),
              usage := UsageAfterRelease(r, dec))]
  {
  }

  // ----- charged edges

  predicate Held(s: Rm, q: nat, held: set<int>, p: nat, c: nat)
    requires Wf(s) && p < |s.table| && c < |s.table|
  {
    if p == q then c in held else s.peers[c][p].Peer? && Active(s.table[p].state)
  }

  function Uses(s: Rm, q: nat, held: set<int>, c: nat): seq<int>
    requires Wf(s) && c < |s.table|
  {
    seq(|s.table|, p requires 0 <= p < |s.table| => if Held(s, q, held, p, c) then 1 else 0)
  }

  function Demands(s: Rm, q: nat, held: set<int>, c: nat): seq<int>
    requires Wf(s) && c < |s.table|
  {
    seq(|s.table|, p requires 0 <= p < |s.table| =>
      if Held(s, q, held, p, c) then s.table[p].maxBw as int else 0)
  }

  ghost predicate ChargedTo(s: Rm, q: nat, held: set<int>, c: nat)
    requires Wf(s) && c < |s.table|
  {
    && s.table[c].usage == Sum(Uses(s, q, held, c))
    && s.table[c].neededBw == Wrap(Sum(Demands(s, q, held, c)))
    && (s.table[c].usage > 0 ==> Active(s.table[c].state))
  }

  ghost predicate ChargedExcept(s: Rm, q: nat, held: set<int>)
    requires Wf(s)
  {
    forall c :: 0 <= c < |s.table| && IsCons(c) ==> ChargedTo(s, q, held, c)
  }

  /** At rest every edge of an active producer is charged, and no other. */
  ghost predicate Charged(s: Rm)
    requires Wf(s)
  {
    ChargedExcept(s, |s.table|, {})
  }

  function Consumers(s: Rm, q: nat): set<int>
    requires Wf(s) && q < |s.table|
  {
    set c | 0 <= c < |s.table| && s.peers[c][q].Peer?
  }

  function Holds(s: Rm, q: nat): set<int>
    requires Wf(s) && q < |s.table|
  {
    if Active(s.table[q].state) then Consumers(s, q) else {}
  }

  /** Same charges in both states, for every consumer. */
  lemma ChargesMove(s: Rm, q: nat, held: set<int>, r: Rm, q': nat, held': set<int>)
    requires Wf(s) && Wf(r) && |r.table| == |s.table| && ChargedExcept(s, q, held)
    requires forall i :: 0 <= i < |s.table| ==> r.table[i].maxBw == s.table[i].maxBw
    requires forall c :: 0 <= c < |s.table| && IsCons(c) ==>
      && r.table[c].usage == s.table[c].usage
      && r.table[c].neededBw == s.table[c].neededBw
      && (s.table[c].usage > 0 ==> Active(r.table[c].state))
    requires forall p, c :: 0 <= p < |s.table| && 0 <= c < |s.table| && IsCons(c) ==>
      Held(r, q', held', p, c) == Held(s, q, held, p, c)
    ensures ChargedExcept(r, q', held')
  {
    forall c | 0 <= c < |s.table| && IsCons(c) ensures ChargedTo(r, q', held', c) {
      assert ChargedTo(s, q, held, c);
      assert Uses(r, q', held', c) == Uses(s, q, held, c);
      assert Demands(r, q', held', c) == Demands(s, q, held, c);
    }
  }

  /** Between operations, and when turning to or from one producer. */
  lemma Focus(s: Rm, q: nat)
    requires Wf(s) && q < |s.table|
    ensures Charged(s) <==> ChargedExcept(s, q, Holds(s, q))
  {
    if Charged(s) {
      ChargesMove(s, |s.table|, {}, s, q, Holds(s, q));
    }
    if ChargedExcept(s, q, Holds(s, q)) {
      ChargesMove(s, q, Holds(s, q), s, |s.table|, {});
    }
  }

  /** Nothing of the consumers or of the other producers' activity changes. */
  lemma ChargesFrame(s: Rm, r: Rm, q: nat, held: set<int>)
    requires Wf(s) && Symmetric(s) && Wf(r) && SameNodes(s, r) && ChargedExcept(s, q, held)
    requires forall c :: 0 <= c < |s.table| && IsCons(c) ==>
      && r.table[c].usage == s.table[c].usage
      && r.table[c].neededBw == s.table[c].neededBw
      && (s.table[c].usage > 0 ==> Active(r.table[c].state))
    requires forall p :: 0 <= p < |s.table| && IsProd(p) && p != q ==>
      Active(r.table[p].state) == Active(s.table[p].state)
    requires forall p, c :: 0 <= p < |s.table| && 0 <= c < |s.table| && IsCons(c) && p != q ==>
      r.peers[c][p].Peer? == s.peers[c][p].Peer?
    ensures ChargedExcept(r, q, held)
  {
    forall p, c | 0 <= p < |s.table| && 0 <= c < |s.table| && IsCons(c)
      ensures Held(r, q, held, p, c) == Held(s, q, held, p, c)
    {
      if s.peers[c][p].Peer? {
        assert Present(s, c, p);
      }
    }
    ChargesMove(s, q, held, r, q, held);
  }

  /** The charges of one consumer, when only the one by q may come or go. */
  lemma ChargeMoves(s: Rm, r: Rm, q: nat, held: set<int>, held': set<int>, c: nat)
    requires Wf(s) && Wf(r) && |r.table| == |s.table| && q < |s.table| && c < |s.table| && ChargedTo(s, q, held, c)
    requires forall i :: 0 <= i < |s.table| ==> r.table[i].maxBw == s.table[i].maxBw
    requires forall p :: 0 <= p < |s.table| && p != q ==> Held(r, q, held', p, c) == Held(s, q, held, p, c)
    requires r.table[c].usage > 0 ==> Active(r.table[c].state)
    requires r.table[c].usage - s.table[c].usage == Unit(c in held') - Unit(c in held)
    requires r.table[c].neededBw ==
      Wrap(s.table[c].neededBw + s.table[q].maxBw * (Unit(c in held') - Unit(c in held)))
    ensures ChargedTo(r, q, held', c)
  {
    var v := Unit(c in held');
    var m := s.table[q].maxBw as int;
    assert Uses(r, q, held', c) == Uses(s, q, held, c)[q := v];
    assert Demands(r, q, held', c) == Demands(s, q, held, c)[q := if c in held' then m else 0];
    SumUpdate(Uses(s, q, held, c), q, v);
    SumUpdate(Demands(s, q, held, c), q, if c in held' then m else 0);
    WrapAdd(Sum(Demands(s, q, held, c)), m * (v - Unit(c in held)));
  }

  function Unit(b: bool): int
  {
    if b then 1 else 0
  }

  /** One more edge of q is charged to consumer c. */
  lemma ChargeOne(s: Rm, r: Rm, q: nat, held: set<int>, c: nat)
    requires Wf(s) && Wf(r) && SameGraph(s, r) && Symmetric(s) && ChargedExcept(s, q, held)
    requires q < |s.table| && c < |s.table| && IsProd(q) && IsCons(c) && c !in held
    requires r.table == s.table[c := r.table[c]]
    requires r.table[c].usage == s.table[c].usage + 1 && Active(r.table[c].state)
    requires r.table[c].neededBw == Wrap(s.table[c].neededBw + s.table[q].maxBw)
    ensures ChargedExcept(r, q, held + {c})
  {
    HeldIsProducer(s, q, held);
    forall c' | 0 <= c' < |s.table| && IsCons(c') ensures ChargedTo(r, q, held + {c}, c') {
      assert ChargedTo(s, q, held, c');
      ChargeMoves(s, r, q, held, held + {c}, c');
    }
  }

  lemma HeldIsProducer(s: Rm, q: nat, held: set<int>)
    requires Wf(s) && Symmetric(s)
    ensures forall p, c :: 0 <= p < |s.table| && 0 <= c < |s.table| && IsCons(c) && p != q && Held(s, q, held, p, c)
              ==> IsProd(p)
  {
    forall p, c | 0 <= p < |s.table| && 0 <= c < |s.table| && IsCons(c) && p != q && Held(s, q, held, p, c)
      ensures IsProd(p)
    {
      assert Present(s, c, p);
    }
  }

  /** One edge of q is no longer charged to consumer c. */
  lemma UnchargeOne(s: Rm, r: Rm, q: nat, held: set<int>, c: nat)
    requires Wf(s) && Wf(r) && SameGraph(s, r) && Symmetric(s) && ChargedExcept(s, q, held)
    requires q < |s.table| && c < |s.table| && IsProd(q) && IsCons(c) && c in held
    requires r.table == s.table[c := r.table[c]]
    requires r.table[c].usage == s.table[c].usage - 1
    requires r.table[c].usage > 0 ==> Active(r.table[c].state)
    requires r.table[c].neededBw == Wrap(s.table[c].neededBw - s.table[q].maxBw as int)
    ensures ChargedExcept(r, q, held - {c})
  {
    HeldIsProducer(s, q, held);
    forall c' | 0 <= c' < |s.table| && IsCons(c') ensures ChargedTo(r, q, held - {c}, c') {
      assert ChargedTo(s, q, held, c');
      ChargeMoves(s, r, q, held, held - {c}, c');
    }
  }

  /** A charged edge keeps its consumer active. */
  lemma HeldIsActive(s: Rm, q: nat, held: set<int>, p: nat, c: nat)
    requires Wf(s) && ChargedExcept(s, q, held) && p < |s.table| && c < |s.table| && IsCons(c)
    requires Held(s, q, held, p, c)
    ensures s.table[c].usage > 0 && Active(s.table[c].state)
  {
    assert ChargedTo(s, q, held, c);
    SumBounds(Uses(s, q, held, c), p);
  }

  /** A used consumer has a charged edge. */
  lemma UsedIsHeld(s: Rm, q: nat, held: set<int>, c: nat) returns (p: nat)
    requires Wf(s) && ChargedExcept(s, q, held) && c < |s.table| && IsCons(c) && s.table[c].usage > 0
    ensures p < |s.table| && Held(s, q, held, p, c)
  {
    assert ChargedTo(s, q, held, c);
    p := SumPositive(Uses(s, q, held, c));
  }

  lemma UsageNonNegative(s: Rm, q: nat, held: set<int>, c: nat)
    requires Wf(s) && ChargedExcept(s, q, held) && c < |s.table| && IsCons(c)
    ensures s.table[c].usage >= 0
  {
    assert ChargedTo(s, q, held, c);
    SumNonNegative(Uses(s, q, held, c));
  }

  // ----- every operation keeps the charges

  ghost predicate GoodEnv(env: nat -> Reply)
  {
    forall k: nat :: Good(env(k).driver)
  }

  /** A request on behalf of q charges q's edge to the consumer. */
  lemma RequestCharges(s: Rm, q: nat, held: set<int>, c: nat, reply: Reply)
    requires Wf(s) && Integrity(s) && ChargedExcept(s, q, held)
    requires q < |s.table| && c < |s.table| && IsProd(q) && IsCons(c) && c !in held
    requires !Refuses(s.table[c].state, reply)
    ensures var o := ConsumerRequest(s, c, s.table[q].maxBw, true, false, reply);
            ChargedExcept(o.s, q, held + {c}) && Integrity(o.s) && o.s.table[q] == s.table[q] && Good(o.code)
  {
    var o := ConsumerRequest(s, c, s.table[q].maxBw, true, false, reply);
    RequestEffect(s, c, s.table[q].maxBw, true, false, reply);
    ChargeOne(s, o.s, q, held, c);
    IntegrityFrame(s, o.s);
  }

  lemma RequestOneCharged(s: Rm, p: nat, k: nat, reply: Reply, held: set<int>)
    requires Structured(s) && p < |s.table| && k < |s.table| && IsProd(p) && Present(s, p, k)
    requires !Refuses(s.table[k].state, reply) && ChargedExcept(s, p, held) && k !in held
    ensures var o := RequestOne(s, p, k, reply); Good(o.code) && ChargedExcept(o.s, p, held + {k})
  {
    var t := AddPending(s, p, 1);
    ProducerChanged(s, t, p, held);
    RequestCharges(t, p, held, k, reply);
    var o := ConsumerRequest(t, k, t.table[p].maxBw, true, false, reply);
    ProducerChanged(o.s, RequestOne(s, p, k, reply).s, p, held + {k});
  }

  /** The consumers of p in slots below k, or from k on. */
  function Between(s: Rm, p: nat, lo: int, hi: int): set<int>
    requires Wf(s) && p < |s.table| && 0 <= lo <= hi <= |s.table|
  {
    set c | lo <= c < hi && s.peers[c][p].Peer?
  }

  lemma BetweenStep(s: Rm, r: Rm, p: nat, k: nat)
    requires Wf(s) && Wf(r) && |r.table| == |s.table| && r.peers == s.peers && p < |s.table| && k < |s.table|
    ensures s.peers[k][p].Peer? ==>
      && Between(r, p, 0, k + 1) == Between(s, p, 0, k) + {k as int}
      && Between(r, p, k + 1, |s.table|) == Between(s, p, k, |s.table|) - {k as int}
    ensures !s.peers[k][p].Peer? ==>
      && Between(r, p, 0, k + 1) == Between(s, p, 0, k)
      && Between(r, p, k + 1, |s.table|) == Between(s, p, k, |s.table|)
  {
  }

  /** An edge of an active producer that is not charged to its consumer. */
  lemma ChargeMissing(s: Rm, p: nat, held: set<int>, c: nat)
    requires Wf(s) && ChargedExcept(s, p, held) && p < |s.table| && c < |s.table| && IsCons(c) && c !in held
    requires s.peers[c][p].Peer? && Active(s.table[p].state)
    ensures !Charged(s)
  {
    var n := |s.table|;
    assert ChargedTo(s, p, held, c);
    assert Uses(s, n, {}, c) == Uses(s, p, held, c)[p := 1];
    SumUpdate(Uses(s, p, held, c), p, 1);
    assert !ChargedTo(s, n, {}, c);
  }

  /** p depends on j, and the request of p would be refused there. */
  ghost predicate RefusedAt(s: Rm, p: nat, j: nat, env: nat -> Reply)
    requires Wf(s) && p < |s.table| && j < |s.table|
  {
    Present(s, p, j) && Refuses(s.table[j].state, env(j))
  }

  /** No consumer of p from slot k on refuses. */
  ghost predicate Willing(s: Rm, p: nat, k: nat, env: nat -> Reply)
    requires Wf(s) && p < |s.table|
  {
    forall j :: k <= j < |s.table| ==> !RefusedAt(s, p, j, env)
  }

  /** Before slot k of the request loop the consumers below are charged. */
  ghost predicate ChargedBelow(s: Rm, p: nat, k: nat)
  {
    && Structured(s) && p < |s.table| && k <= |s.table| && IsProd(p) && s.table[p].live
    && Active(s.table[p].state) && ChargedExcept(s, p, Between(s, p, 0, k))
  }

  lemma AskedCharged(s: Rm, p: nat, k: nat, reply: Reply)
    requires ChargedBelow(s, p, k) && k < |s.table| && Present(s, p, k) && !Refuses(s.table[k].state, reply)
    ensures var o := RequestOne(s, p, k, reply); Good(o.code) && ChargedBelow(o.s, p, k + 1)
  {
    assert Present(s, k, p);
    RequestOneKeeps(s, p, k, reply);
    RequestOneCharged(s, p, k, reply, Between(s, p, 0, k));
    BetweenStep(s, RequestOne(s, p, k, reply).s, p, k);
  }

  lemma AskedLeaves(s: Rm, p: nat, k: nat, reply: Reply)
    requires Wf(s) && Symmetric(s) && p < |s.table| && k < |s.table|
    ensures var r := RequestOne(s, p, k, reply).s;
            forall j :: 0 <= j < |s.table| && j != k && Present(s, p, j) ==> r.table[j] == s.table[j]
  {
    var t := AddPending(s, p, 1);
    RequestTouches(t, k, t.table[p].maxBw, true, false, reply);
    assert !Present(s, p, p);
  }

  /** The turn at slot k leaves the later consumers as willing as they were. */
  lemma WillingTurn(s: Rm, p: nat, k: nat, env: nat -> Reply)
    requires Wf(s) && Symmetric(s) && p < |s.table| && k < |s.table| && !RefusedAt(s, p, k, env)
    ensures var t := if Present(s, p, k) then RequestOne(s, p, k, env(k)).s else s;
            Willing(t, p, k + 1, env) <==> Willing(s, p, k, env)
  {
    var t := if Present(s, p, k) then RequestOne(s, p, k, env(k)).s else s;
    AskedLeaves(s, p, k, env(k));
    assert forall j :: k < j < |s.table| ==> RefusedAt(t, p, j, env) == RefusedAt(s, p, j, env);
  }

  /** A refusal ends the loop with the producer active and the edge not charged. */
  lemma RefusalUncharges(s: Rm, p: nat, k: nat, reply: Reply)
    requires ChargedBelow(s, p, k) && k < |s.table| && Present(s, p, k) && Refuses(s.table[k].state, reply)
    ensures var o := RequestOne(s, p, k, reply); !Good(o.code) && !Charged(o.s) && o.s.table == s.table
  {
    var t := AddPending(s, p, 1);
    var r := RequestOne(s, p, k, reply).s;
    RefusedEffect(t, k, t.table[p].maxBw, true, false, reply);
    assert r.table == s.table;
    ProducerChanged(s, r, p, Between(s, p, 0, k));
    assert Present(s, k, p);
    ChargeMissing(r, p, Between(s, p, 0, k), k);
  }

  lemma RequestDoneCharged(s: Rm, p: nat, code: int, env: nat -> Reply)
    requires ChargedBelow(s, p, |s.table|)
    ensures Charged(RequestFrom(s, p, |s.table|, code, env).s)
  {
    var r := RequestFrom(s, p, |s.table|, code, env).s;
    ChargesFrame(s, r, p, Between(s, p, 0, |s.table|));
    assert Holds(r, p) == Between(s, p, 0, |s.table|);
    Focus(r, p);
  }

  lemma SkippedCharged(s: Rm, p: nat, k: nat)
    requires ChargedBelow(s, p, k) && k < |s.table| && !Present(s, p, k)
    ensures ChargedBelow(s, p, k + 1)
  {
    assert !Present(s, k, p);
    BetweenStep(s, s, p, k);
  }

  /** A turn that is not refused charges its consumer and leaves the others as willing. */
  lemma ChargedTurn(s: Rm, p: nat, k: nat, env: nat -> Reply)
    requires ChargedBelow(s, p, k) && k < |s.table| && !RefusedAt(s, p, k, env)
    ensures Present(s, p, k) ==> Good(RequestOne(s, p, k, env(k)).code)
    ensures var t := if Present(s, p, k) then RequestOne(s, p, k, env(k)).s else s;
            ChargedBelow(t, p, k + 1) && (Willing(t, p, k + 1, env) <==> Willing(s, p, k, env))
  {
    WillingTurn(s, p, k, env);
    if Present(s, p, k) {
      AskedCharged(s, p, k, env(k));
    } else {
      SkippedCharged(s, p, k);
    }
  }

  lemma RefusedFromUncharges(s: Rm, p: nat, k: nat, code: int, env: nat -> Reply)
    requires ChargedBelow(s, p, k) && k < |s.table| && RefusedAt(s, p, k, env)
    ensures !Charged(RequestFrom(s, p, k, code, env).s)
  {
    RefusalUncharges(s, p, k, env(k));
  }

  lemma {:induction false} WillingFromCharged(s: Rm, p: nat, k: nat, code: int, env: nat -> Reply)
    requires ChargedBelow(s, p, k) && Willing(s, p, k, env)
    ensures Charged(RequestFrom(s, p, k, code, env).s)
    decreases |s.table| - k
  {
    if k == |s.table| {
      RequestDoneCharged(s, p, code, env);
    } else {
      assert !RefusedAt(s, p, k, env);
      ChargedTurn(s, p, k, env);
      if Present(s, p, k) {
        var o := RequestOne(s, p, k, env(k));
        WillingFromCharged(o.s, p, k + 1, if o.code == 0 then code else o.code, env);
      } else {
        WillingFromCharged(s, p, k + 1, code, env);
      }
    }
  }

  lemma {:induction false} UnwillingFromUncharged(s: Rm, p: nat, k: nat, code: int, env: nat -> Reply, r: Rm)
    requires ChargedBelow(s, p, k) && !Willing(s, p, k, env) && r == RequestFrom(s, p, k, code, env).s
    ensures !Charged(r)
    decreases |s.table| - k
  {
    if RefusedAt(s, p, k, env) {
      RefusedFromUncharges(s, p, k, code, env);
    } else {
      ChargedTurn(s, p, k, env);
      if Present(s, p, k) {
        var o := RequestOne(s, p, k, env(k));
        UnwillingFromUncharged(o.s, p, k + 1, if o.code == 0 then code else o.code, env, r);
      } else {
        UnwillingFromUncharged(s, p, k + 1, code, env, r);
      }
    }
  }

  /** A request keeps the sums exactly if it is not one that some consumer refuses. */
  lemma RequestCharged(s: Rm, p: nat, env: nat -> Reply)
    requires Structured(s) && Charged(s) && p < |s.table| && IsProd(p) && s.table[p].live
    ensures Charged(ProducerRequest(s, p, env).s) <==> s.table[p].state != Released || Willing(s, p, 0, env)
  {
    if s.table[p].state == Released {
      var t := Put(s, p, s.table[p].(state := RequestInProgress, pendingRequest := 0));
      StructuredFrame(s, t);
      Focus(s, p);
      ChargesFrame(s, t, p, {});
      assert Between(t, p, 0, 0) == {};
      assert !Present(s, p, p);
      assert forall j :: 0 <= j < |s.table| ==> RefusedAt(t, p, j, env) == RefusedAt(s, p, j, env);
      if Willing(t, p, 0, env) {
        WillingFromCharged(t, p, 0, 0, env);
      } else {
        UnwillingFromUncharged(t, p, 0, 0, env, ProducerRequest(s, p, env).s);
      }
    }
  }

  /** A release on behalf of q takes q's charge off the consumer. */
  lemma ReleaseUncharges(s: Rm, q: nat, held: set<int>, c: nat, reply: Reply)
    requires Wf(s) && Integrity(s) && ChargedExcept(s, q, held)
    requires q < |s.table| && c < |s.table| && IsProd(q) && IsCons(c) && c in held
    ensures var o := ConsumerRelease(s, c, s.table[q].maxBw, true, reply);
            ChargedExcept(o.s, q, held - {c}) && Integrity(o.s) && o.s.table[q] == s.table[q]
  {
    var o := ConsumerRelease(s, c, s.table[q].maxBw, true, reply);
    HeldIsActive(s, q, held, q, c);
    ReleaseEffect(s, c, s.table[q].maxBw, true, reply);
    UnchargeOne(s, o.s, q, held, c);
    IntegrityFrame(s, o.s);
  }

  lemma ReleaseOneCharged(s: Rm, p: nat, k: nat, reply: Reply, held: set<int>)
    requires Wf(s) && Integrity(s) && p < |s.table| && k < |s.table| && IsProd(p) && Present(s, p, k)
    requires ChargedExcept(s, p, held) && k in held
    ensures ChargedExcept(ReleaseOne(s, p, k, reply), p, held - {k})
  {
    var t := AddPendingRelease(s, p, 1);
    ProducerChanged(s, t, p, held);
    ReleaseUncharges(t, p, held, k, reply);
    var o := ConsumerRelease(t, k, t.table[p].maxBw, true, reply);
    ProducerChanged(o.s, ReleaseOne(s, p, k, reply), p, held - {k});
  }

  /** Before slot k of the release loop: the consumers from k on are still charged. */
  ghost predicate HeldFrom(s: Rm, p: nat, k: nat)
  {
    && Wf(s) && Integrity(s) && p < |s.table| && k <= |s.table| && IsProd(p)
    && ChargedExcept(s, p, Between(s, p, k, |s.table|))
  }

  lemma ReleaseTurnCharged(s: Rm, p: nat, k: nat, reply: Reply)
    requires HeldFrom(s, p, k) && k < |s.table|
    ensures HeldFrom(if Present(s, p, k) then ReleaseOne(s, p, k, reply) else s, p, k + 1)
  {
    assert Present(s, p, k) <==> Present(s, k, p);
    if Present(s, p, k) {
      var r := ReleaseOne(s, p, k, reply);
      ReleaseOneCharged(s, p, k, reply, Between(s, p, k, |s.table|));
      IntegrityFrame(s, r);
      BetweenStep(s, r, p, k);
    } else {
      BetweenStep(s, s, p, k);
    }
  }

  lemma ReleaseDoneCharged(s: Rm, p: nat, env: nat -> Reply)
    requires HeldFrom(s, p, |s.table|)
    ensures ChargedExcept(ReleaseFrom(s, p, |s.table|, env), p, {})
  {
    assert Between(s, p, |s.table|, |s.table|) == {};
    ChargesFrame(s, ReleaseFrom(s, p, |s.table|, env), p, {});
  }

  lemma {:induction false} ReleaseFromCharged(s: Rm, p: nat, k: nat, env: nat -> Reply)
    requires HeldFrom(s, p, k)
    ensures ChargedExcept(ReleaseFrom(s, p, k, env), p, {})
    decreases |s.table| - k
  {
    if k == |s.table| {
      ReleaseDoneCharged(s, p, env);
    } else {
      ReleaseTurnCharged(s, p, k, env(k));
      ReleaseFromCharged(if Present(s, p, k) then ReleaseOne(s, p, k, env(k)) else s, p, k + 1, env);
    }
  }

  lemma ReleaseCharged(s: Rm, p: nat, env: nat -> Reply)
    requires Structured(s) && Charged(s) && p < |s.table| && IsProd(p) && s.table[p].live
    ensures Charged(ProducerRelease(s, p, env).s)
  {
    if s.table[p].state != Released {
      var t := Put(s, p, s.table[p].(state := ReleaseInProgress, pendingRelease := 0));
      Focus(s, p);
      ChargesFrame(s, t, p, Holds(s, p));
      assert Between(t, p, 0, |s.table|) == Holds(s, p);
      IntegrityFrame(s, t);
      ReleaseFromCharged(t, p, 0, env);
      ReleaseStructured(s, p, env);
      Focus(ProducerRelease(s, p, env).s, p);
    }
  }

  lemma NewEdgeCharged(s: Rm, p: nat, c: nat, userspace: bool)
    requires Structured(s) && Charged(s) && BothExist(s, p, c) && CheckDependency(s, p, c).None?
    ensures ChargedExcept(NewEdge(s, p, c, userspace), p, Holds(s, p))
  {
    var t := NewEdge(s, p, c, userspace);
    Focus(s, p);
    assert t.table == s.table[p := t.table[p]];
    ChargesFrame(s, t, p, Holds(s, p));
  }

  /** The request made on behalf of a new edge; prev is restored unless it has to wait. */
  lemma NewRequestCharged(u: Rm, p: nat, c: nat, held: set<int>, prev: State, reply: Reply)
    requires Wf(u) && Integrity(u) && ChargedExcept(u, p, held)
    requires p < |u.table| && c < |u.table| && IsProd(p) && IsCons(c) && c !in held
    requires !Refuses(u.table[c].state, reply)
    ensures var o := ConsumerRequest(u, c, u.table[p].maxBw, true, false, reply);
            ChargedExcept(if o.code == -EINPROGRESS then o.s
                          else Perf(AddPending(SetState(o.s, p, prev), p, -1), p), p, held + {c as int})
  {
    var o := ConsumerRequest(u, c, u.table[p].maxBw, true, false, reply);
    RequestCharges(u, p, held, c, reply);
    ProducerChanged(o.s, Perf(AddPending(SetState(o.s, p, prev), p, -1), p), p, held + {c as int});
  }

  lemma ActiveAddCharged(s: Rm, p: nat, c: nat, userspace: bool, reply: Reply)
    requires Structured(s) && Charged(s) && BothExist(s, p, c)
    requires CheckDependency(s, p, c).None? && Active(s.table[p].state) && !Refuses(s.table[c].state, reply)
    ensures ChargedExcept(AddDependency(s, p, c, userspace, reply).s, p, Consumers(s, p) + {c as int})
  {
    NewEdgeCharged(s, p, c, userspace);
    NewEdgeStructured(s, p, c, userspace);
    var t := NewEdge(s, p, c, userspace);
    var u := AddPending(SetState(t, p, RequestInProgress), p, 1);
    ProducerChanged(t, u, p, Consumers(s, p));
    NewRequestCharged(u, p, c, Consumers(s, p), s.table[p].state, reply);
  }

  /** Only the record of q changes, and only in state and counts. */
  lemma ProducerChanged(s: Rm, r: Rm, q: nat, held: set<int>)
    requires Wf(s) && Integrity(s) && ChargedExcept(s, q, held) && q < |s.table| && IsProd(q)
    requires Wf(r) && SameGraph(s, r) && r.table == s.table[q := r.table[q]]
    ensures ChargedExcept(r, q, held) && Integrity(r)
  {
    ChargesMove(s, q, held, r, q, held);
    IntegrityFrame(s, r);
  }

  /** A refused new edge stays, uncharged, and the producer active. */
  lemma RefusedAddUncharges(s: Rm, p: nat, c: nat, userspace: bool, reply: Reply)
    requires Structured(s) && Charged(s) && BothExist(s, p, c)
    requires CheckDependency(s, p, c).None? && Active(s.table[p].state) && Refuses(s.table[c].state, reply)
    ensures !Charged(AddDependency(s, p, c, userspace, reply).s)
  {
    var t := NewEdge(s, p, c, userspace);
    var u := AddPending(SetState(t, p, RequestInProgress), p, 1);
    var r := AddDependency(s, p, c, userspace, reply).s;
    NewEdgeCharged(s, p, c, userspace);
    NewEdgeStructured(s, p, c, userspace);
    RefusedEffect(u, c, u.table[p].maxBw, true, false, reply);
    assert r.table == t.table[p := r.table[p]] && r.table[p].state == s.table[p].state;
    ProducerChanged(t, r, p, Consumers(s, p));
    ChargeMissing(r, p, Consumers(s, p), c);
  }

  lemma AddCharged(s: Rm, p: nat, c: nat, userspace: bool, reply: Reply)
    requires Structured(s) && Charged(s) && BothExist(s, p, c)
    ensures Charged(AddDependency(s, p, c, userspace, reply).s) <==>
              !(CheckDependency(s, p, c).None? && Active(s.table[p].state) && Refuses(s.table[c].state, reply))
  {
    if CheckDependency(s, p, c).None? {
      if Active(s.table[p].state) && Refuses(s.table[c].state, reply) {
        RefusedAddUncharges(s, p, c, userspace, reply);
      } else {
        WillingAddCharged(s, p, c, userspace, reply);
      }
    }
  }

  lemma WillingAddCharged(s: Rm, p: nat, c: nat, userspace: bool, reply: Reply)
    requires Structured(s) && Charged(s) && BothExist(s, p, c) && CheckDependency(s, p, c).None?
    requires Active(s.table[p].state) ==> !Refuses(s.table[c].state, reply)
    ensures Charged(AddDependency(s, p, c, userspace, reply).s)
  {
    var r := AddDependency(s, p, c, userspace, reply).s;
    var t := NewEdge(s, p, c, userspace);
    if Active(s.table[p].state) {
      ActiveAddCharged(s, p, c, userspace, reply);
      NewEdgeConsumers(s, p, c, userspace);
      AddTouches(s, p, c, userspace, reply);
      assert Consumers(r, p) == Consumers(t, p);
    } else {
      NewEdgeCharged(s, p, c, userspace);
    }
    Focus(r, p);
  }

  lemma NewEdgeConsumers(s: Rm, p: nat, c: nat, userspace: bool)
    requires Structured(s) && BothExist(s, p, c)
    ensures Consumers(NewEdge(s, p, c, userspace), p) == Consumers(s, p) + {c as int}
  {
    assert !Present(s, p, p);
  }

  lemma CutConsumers(s: Rm, p: nat, c: nat)
    requires Structured(s) && BothExist(s, p, c)
    ensures Consumers(Cut(s, p, c), p) == Consumers(s, p) - {c as int}
  {
    assert !Present(s, p, p);
  }

  lemma CutCharged(s: Rm, p: nat, c: nat)
    requires Structured(s) && BothExist(s, p, c) && ChargedExcept(s, p, Holds(s, p))
    ensures ChargedExcept(Cut(s, p, c), p, Holds(s, p))
  {
    var f := ForgetConsumer(s, p, c);
    ForgetTouches(s, p, c);
    ChargesFrame(s, f, p, Holds(s, p));
    IntegrityFrame(s, f);
    ChargesFrame(f, Cut(s, p, c), p, Holds(s, p));
  }

  lemma DeleteCharged(s: Rm, p: nat, c: nat, userspace: bool, reply: Reply)
    requires Structured(s) && Charged(s) && BothExist(s, p, c)
    ensures Charged(DeleteDependency(s, p, c, userspace, reply).s)
  {
    DeleteGraph(s, p, c, userspace, reply);
    if Present(s, p, c) && s.peers[p][c].userspace == userspace {
      assert Present(s, c, p);
      var r := DeleteDependency(s, p, c, userspace, reply).s;
      var t := Cut(s, p, c);
      Focus(s, p);
      CutCharged(s, p, c);
      CutStructured(s, p, c);
      CutConsumers(s, p, c);
      ForgetTouches(s, p, c);
      if Active(s.table[p].state) {
        ReleaseUncharges(t, p, Holds(s, p), c, reply);
        assert Holds(r, p) == Holds(s, p) - {c as int};
      }
      Focus(r, p);
    }
  }

  lemma DeleteOneCharged(s: Rm, i: nat, k: nat, reply: Reply)
    requires Structured(s) && Charged(s) && Lookup(s, i) && k < |s.table|
    ensures Charged(DeleteOne(s, i, k, reply))
  {
    if Present(s, i, k) {
      var p, c := if IsProd(i) then i else k, if IsProd(i) then k else i;
      DeleteCharged(s, p, c, s.peers[i][k].userspace, reply);
    }
  }

  lemma {:induction false} DeleteFromCharged(s: Rm, i: nat, k: nat, env: nat -> Reply)
    requires Structured(s) && Charged(s) && Lookup(s, i) && k <= |s.table|
    ensures Charged(DeleteFrom(s, i, k, env))
    decreases |s.table| - k
  {
    if k < |s.table| {
      DeleteOneStructured(s, i, k, env(k));
      DeleteOneCharged(s, i, k, env(k));
      DeleteFromCharged(DeleteOne(s, i, k, env(k)), i, k + 1, env);
    }
  }

  lemma ClearCharged(s: Rm, i: nat)
    requires Structured(s) && Charged(s) && i < |s.table|
    requires forall j :: 0 <= j < |s.table| ==> s.peers[i][j] == NoPeer
    requires IsProd(i) ==> s.table[i].state == Released
    ensures Charged(Clear(s, i))
  {
    var r := Clear(s, i);
    var n := |s.table|;
    assert r.peers[i] == s.peers[i];
    assert r.peers == s.peers;
    forall c | 0 <= c < n && IsCons(c) ensures ChargedTo(r, n, {}, c) {
      assert ChargedTo(s, n, {}, c);
      if c == i {
        SumZeros(Uses(r, n, {}, c));
        SumZeros(Demands(r, n, {}, c));
      } else {
        forall p | 0 <= p < n ensures Held(r, n, {}, p, c) == Held(s, n, {}, p, c)
                                && (Held(s, n, {}, p, c) ==> r.table[p].maxBw == s.table[p].maxBw)
        {
          if p == i {
            assert !Present(s, i, c);
            assert !Present(s, c, i);
          }
        }
        assert Uses(r, n, {}, c) == Uses(s, n, {}, c);
        assert Demands(r, n, {}, c) == Demands(s, n, {}, c);
      }
    }
  }

  lemma DeleteResourceCharged(s: Rm, i: nat, env: nat -> Reply)
    requires Structured(s) && Charged(s)
    ensures Charged(Delete(s, i, env).s)
  {
    if Lookup(s, i) {
      var t := DeleteFrom(s, i, 0, env);
      DeleteFromStructured(s, i, 0, env);
      DeleteFromCharged(s, i, 0, env);
      if IsProd(i) {
        ReleaseStructured(t, i, env);
        ReleaseCharged(t, i, env);
        t := ProducerRelease(t, i, env).s;
      }
      ClearCharged(t, i);
    }
  }

  lemma CreateCharged(s: Rm, i: nat, floor: int)
    requires Structured(s) && Charged(s)
    ensures Charged(Create(s, i, floor).s)
  {
    var r := Create(s, i, floor).s;
    if r != s {
      forall j | 0 <= j < |s.table| ensures s.peers[i][j] == NoPeer {
        assert !Present(s, i, j);
      }
      assert r.peers[i] == s.peers[i];
      assert r.peers == s.peers;
      ChargesMove(s, |s.table|, {}, r, |s.table|, {});
    }
  }

  /** A completion moves no consumer but c, and no producer in or out of activity. */
  lemma HandleCbView(s: Rm, c: nat, ev: Event)
    requires Wf(s) && Symmetric(s) && Settled(s) && c < |s.table| && IsCons(c)
    ensures var r := HandleCb(s, c, ev); var x := s.table[c];
            && r.table[c] == x.(state := r.table[c].state)
            && (Active(x.state) ==> Active(r.table[c].state))
            && (forall i :: 0 <= i < |s.table| && IsCons(i) && i != c ==> r.table[i] == s.table[i])
            && (forall i :: 0 <= i < |s.table| && IsProd(i) ==>
                  Active(r.table[i].state) == Active(s.table[i].state))
  {
    var t := if s.table[c].state == RequestInProgress then Perf(SetState(s, c, Granted), c)
             else SetState(s, c, Released);
    NotifyTouches(t, c, ev, 0);
    forall i | 0 <= i < |s.table| && IsCons(i) ensures !Present(s, c, i) {
    }
  }

  lemma HandleCbCharged(s: Rm, c: nat, ev: Event)
    requires Structured(s) && Charged(s) && c < |s.table| && IsCons(c) && s.table[c].live
    ensures Charged(HandleCb(s, c, ev))
  {
    HandleCbView(s, c, ev);
    forall i | 0 <= i < |s.table| && IsCons(i) ensures s.table[i].usage > 0 ==> Active(s.table[i].state) {
      assert ChargedTo(s, |s.table|, {}, i);
    }
    ChargesFrame(s, HandleCb(s, c, ev), |s.table|, {});
  }

  lemma TimerRequestCharged(s: Rm, c: nat, reply: Reply)
    requires Structured(s) && Charged(s)
    ensures Charged(TimerRequest(s, c, reply).s)
  {
    if c < |s.table| && IsCons(c) && Lookup(s, c) {
      TimedRequestEffect(s, c, reply);
      ChargesFrame(s, TimerRequest(s, c, reply).s, |s.table|, {});
    }
  }

  lemma OwnReleaseCharged(s: Rm, c: nat, reply: Reply)
    requires Wf(s) && Symmetric(s) && Charged(s) && c < |s.table| && IsCons(c)
    ensures Charged(ConsumerRelease(s, c, 0, false, reply).s)
  {
    ReleaseEffect(s, c, 0, false, reply);
    assert ChargedTo(s, |s.table|, {}, c);
    UsageNonNegative(s, |s.table|, {}, c);
    ChargesFrame(s, ConsumerRelease(s, c, 0, false, reply).s, |s.table|, {});
  }

  lemma DelayedReleaseCharged(s: Rm, c: nat, reply: Reply)
    requires Structured(s) && Charged(s)
    ensures Charged(DelayedRelease(s, c, reply))
  {
    if c < |s.table| && s.delayed[c] != 0 {
      var t := s.(delayed := s.delayed[c := s.delayed[c] - 1]);
      ChargedSame(s, t);
      IntegrityFrame(s, t);
      if IsCons(c) && Lookup(t, c) {
        OwnReleaseCharged(t, c, reply);
      }
    }
  }

  lemma ProfileDemand(s: Rm, r: Rm, i: nat, max: u32, c: nat)
    requires Wf(s) && Symmetric(s) && i < |s.table| && Wf(r) && ProfileShift(s, r, i, max)
    requires c < |s.table| && IsCons(c) && ChargedTo(s, |s.table|, {}, c)
    ensures ChargedTo(r, |s.table|, {}, c)
  {
    var n := |s.table|;
    assert forall p :: 0 <= p < n ==> Held(r, n, {}, p, c) == Held(s, n, {}, p, c);
    assert Uses(r, n, {}, c) == Uses(s, n, {}, c);
    assert Present(s, i, c) <==> Present(s, c, i);
    if Held(s, n, {}, i, c) {
      assert Present(s, c, i);
      assert Demands(r, n, {}, c) == Demands(s, n, {}, c)[i := max];
      SumUpdate(Demands(s, n, {}, c), i, max);
      WrapAdd(Sum(Demands(s, n, {}, c)), max as int - s.table[i].maxBw as int);
      assert r.table[c].neededBw == Wrap(s.table[c].neededBw + (max as int - s.table[i].maxBw as int));
    } else {
      assert Demands(r, n, {}, c) == Demands(s, n, {}, c);
      assert r.table[c].neededBw == s.table[c].neededBw;
    }
  }

  lemma ProfileCharged(s: Rm, i: nat, max: u32)
    requires Structured(s) && Charged(s) && Lookup(s, i)
    ensures Charged(SetProfile(s, i, max))
  {
    if max != s.table[i].maxBw {
      var r := SetProfile(s, i, max);
      ProfileTable(s, i, max);
      forall c | 0 <= c < |s.table| && IsCons(c) ensures ChargedTo(r, |s.table|, {}, c) {
        assert ChargedTo(s, |s.table|, {}, c);
        ProfileDemand(s, r, i, max, c);
      }
    }
  }

  lemma ResumeCharged(s: Rm, c: nat, prev: State, bw: u32, inc: bool, driver: int)
    requires Structured(s) && Charged(s) && IsCons(c) && Lookup(s, c) && Good(driver)
    ensures Charged(RequestWork(s, c, prev, bw, true, inc, driver).s)
  {
    if driver == 0 {
      HandleCbCharged(s, c, GrantedEvent);
    } else {
      ChargedSame(s, RequestWork(s, c, prev, bw, true, inc, driver).s);
    }
  }

  lemma SuspendCharged(s: Rm, c: nat, prev: State, driver: int)
    requires Structured(s) && Charged(s) && IsCons(c) && Lookup(s, c) && Good(driver)
    ensures Charged(ReleaseWork(s, c, prev, true, driver).s)
  {
    var t := HandleCb(s, c, ReleasedEvent);
    HandleCbCharged(s, c, ReleasedEvent);
    ChargesMove(t, |s.table|, {}, Perf(t, c), |s.table|, {});
  }

  /** A handler whose driver fails puts back the state its item remembers, and takes back what
      the item had charged. */
  ghost predicate PutBack(s: Rm, r: Rm, c: nat, prev: State, bw: u32, inc: bool)
  {
    && Wf(s) && Wf(r) && c < |s.table| && r.peers == s.peers
    && r.table == s.table[c := s.table[c].(state := prev, neededBw := Wrap(s.table[c].neededBw - bw as int),
                                           usage := s.table[c].usage - Unit(inc))]
  }

  lemma PutBackHeld(s: Rm, r: Rm, c: nat, prev: State, bw: u32, inc: bool, x: nat)
    requires PutBack(s, r, c, prev, bw, inc) && Symmetric(s) && IsCons(c) && x < |s.table| && IsCons(x)
    ensures Uses(r, |s.table|, {}, x) == Uses(s, |s.table|, {}, x)
    ensures Demands(r, |s.table|, {}, x) == Demands(s, |s.table|, {}, x)
  {
    assert !Present(s, x, c);
  }

  lemma TakenBack(needed: u32, bw: u32)
    ensures Wrap(needed - bw as int) == needed <==> bw == 0
  {
  }

  /** That keeps the sums exactly if there was nothing to take back and no user loses its state. */
  lemma PutBackCharged(s: Rm, r: Rm, c: nat, prev: State, bw: u32, inc: bool)
    requires PutBack(s, r, c, prev, bw, inc) && Symmetric(s) && Charged(s) && IsCons(c)
    ensures Charged(r) <==> !inc && bw == 0 && (s.table[c].usage > 0 ==> Active(prev))
  {
    var n := |s.table|;
    forall x | 0 <= x < n && IsCons(x) && x != c ensures ChargedTo(r, n, {}, x) {
      assert ChargedTo(s, n, {}, x);
      PutBackHeld(s, r, c, prev, bw, inc, x);
    }
    assert ChargedTo(s, n, {}, c);
    PutBackHeld(s, r, c, prev, bw, inc, c);
    TakenBack(s.table[c].neededBw, bw);
    assert ChargedTo(r, n, {}, c) <==> !inc && bw == 0 && (s.table[c].usage > 0 ==> Active(prev));
  }

  /** A work item whose handler, if its driver fails, takes back what is still in use. */
  predicate Botches(s: Rm, w: Work)
  {
    match w
    case Resume(c, prev, bw, inc) =>
      IsCons(c) && Lookup(s, c) && (inc || bw != 0 || (s.table[c].usage > 0 && !Active(prev)))
    case Suspend(c, prev, _) => IsCons(c) && Lookup(s, c) && s.table[c].usage > 0 && !Active(prev)
    case _ => false
  }

  lemma ChargedSame(s: Rm, r: Rm)
    requires Wf(s) && Wf(r) && Charged(s) && r.table == s.table && r.peers == s.peers
    ensures Charged(r)
  {
    ChargesMove(s, |s.table|, {}, r, |s.table|, {});
  }

  lemma ExecuteCharged(s: Rm, w: Work, driver: int)
    requires Structured(s) && Charged(s) && (w.ResourceCb? ==> IsCons(w.c))
    ensures Charged(Execute(s, w, driver)) <==> Good(driver) || !Botches(s, w)
  {
    match w
    case Resume(c, prev, bw, inc) =>
      if c < |s.table| && IsCons(c) {
        if !Lookup(s, c) {
          ChargedSame(s, Vote(s, c, -1));
        } else if Good(driver) {
          ResumeCharged(s, c, prev, bw, inc, driver);
        } else {
          PutBackCharged(s, RequestWork(s, c, prev, bw, true, inc, driver).s, c, prev, bw, inc);
        }
      }
    case Suspend(c, prev, bw) =>
      if c < |s.table| && IsCons(c) && Lookup(s, c) {
        if Good(driver) {
          SuspendCharged(s, c, prev, driver);
        } else {
          PutBackCharged(s, ReleaseWork(s, c, prev, true, driver).s, c, prev, 0, false);
        }
      }
    case ResourceCb(c, ev) =>
      if Lookup(s, c) { HandleCbCharged(s, c, ev); }
    case NotifyProd(_, _, _) =>
    case NotifyIpa(v, b) => ChargedSame(s, s.(profile := (v, b)));
  }

  lemma FinishCharged(s: Rm, driver: int)
    requires Structured(s) && Charged(s)
    ensures Charged(FinishWork(s, driver)) <==>
              Good(driver) || s.inflight.None? || !Botches(s, s.inflight.value)
  {
    if s.inflight.Some? {
      var t := Execute(s, s.inflight.value, driver);
      var r := FinishWork(s, driver);
      ExecuteCharged(s, s.inflight.value, driver);
      if Charged(t) { ChargedSame(t, r); }
      if Charged(r) { ChargedSame(r, t); }
    }
  }

  /** No driver fails during the operation. */
  ghost predicate GoodOp(op: Op)
  {
    match op
    case OpDelete(_, env) => GoodEnv(env)
    case OpAdd(_, _, _, reply) => Good(reply.driver)
    case OpDel(_, _, _, reply) => Good(reply.driver)
    case OpRequest(_, env) => GoodEnv(env)
    case OpRelease(_, env) => GoodEnv(env)
    case OpTimerRequest(_, reply) => Good(reply.driver)
    case OpDelayedRelease(_, reply) => Good(reply.driver)
    case OpFinishWork(driver) => Good(driver)
    case _ => true
  }

  /** A driver refuses what a producer asks for: at once, when the producer is requested or gets a
      new edge, or later, in the handler of a queued request. */
  ghost predicate Refused(s: Rm, op: Op)
    requires Wf(s)
  {
    match op
    case OpRequest(p, env) => IsProd(p) && Lookup(s, p) && s.table[p].state == Released && !Willing(s, p, 0, env)
    case OpAdd(p, c, _, reply) =>
      BothExist(s, p, c) && CheckDependency(s, p, c).None? && Active(s.table[p].state)
      && Refuses(s.table[c].state, reply)
    case OpFinishWork(driver) => !Good(driver) && s.inflight.Some? && Botches(s, s.inflight.value)
    case _ => false
  }

  lemma GoodIsWilling(s: Rm, op: Op)
    requires Wf(s) && GoodOp(op)
    ensures !Refused(s, op)
  {
  }

  /** Whatever the drivers answer, a step keeps the sums exactly if it is no such refusal. */
  lemma StepCharged(s: Rm, op: Op)
    requires Structured(s) && Charged(s)
    ensures Charged(Step(s, op)) <==> !Refused(s, op)
  {
    match op
    case OpCreate(i, floor) => CreateCharged(s, i, floor);
    case OpDelete(i, env) => DeleteResourceCharged(s, i, env);
    case OpAdd(p, c, u, reply) => if BothExist(s, p, c) { AddCharged(s, p, c, u, reply); }
    case OpDel(p, c, u, reply) => if BothExist(s, p, c) { DeleteCharged(s, p, c, u, reply); }
    case OpRequest(p, env) => if IsProd(p) && Lookup(s, p) { RequestCharged(s, p, env); }
    case OpRelease(p, env) => if IsProd(p) && Lookup(s, p) { ReleaseCharged(s, p, env); }
    case OpTimerRequest(c, reply) => TimerRequestCharged(s, c, reply);
    case OpDelayedRelease(c, reply) => DelayedReleaseCharged(s, c, reply);
    case OpProfile(i, max) => if Lookup(s, i) { ProfileCharged(s, i, max); }
    case OpComplete(c, ev) => ChargedSame(s, Step(s, op));
    case OpStartWork => ChargedSame(s, Step(s, op));
    case OpFinishWork(driver) => FinishCharged(s, driver);
  }

  lemma InitCharged(n: nat)
    ensures Charged(Init(n))
  {
    var s := Init(n);
    forall c | 0 <= c < n && IsCons(c) ensures ChargedTo(s, n, {}, c) {
      SumZeros(Uses(s, n, {}, c));
      SumZeros(Demands(s, n, {}, c));
    }
  }
}
