/**
 * What becomes of the votes of a consumer that is deleted or created anew, and
 * with it the account of every step: what the books gain or lose is known
 * exactly, whatever is deleted.
 */
module RmAccounts {
  import opened Basics
  import opened Totals
  import opened RmModel
  import opened RmStructure
  import opened RmCharges
  import opened RmLedger

  // ----- the clock votes of a deleted consumer

  /** p is active and depends on c. */
  predicate UserOf(s: Rm, p: nat, c: nat)
    requires Wf(s) && p < |s.table| && c < |s.table|
  {
    s.peers[c][p].Peer? && Active(s.table[p].state)
  }

  lemma WithoutUsers(s: Rm, c: nat)
    requires Wf(s) && Charged(s) && c < |s.table| && IsCons(c)
    requires forall p :: 0 <= p < |s.table| ==> !UserOf(s, p, c)
    ensures s.table[c].usage == 0 && s.table[c].neededBw == 0
  {
    assert ChargedTo(s, |s.table|, {}, c);
    forall p | 0 <= p < |s.table| ensures !Held(s, |s.table|, {}, p, c) {
      assert !UserOf(s, p, c);
    }
    SumZeros(Uses(s, |s.table|, {}, c));
    SumZeros(Demands(s, |s.table|, {}, c));
  }

  lemma ReleaseResumes(s: Rm, c: nat, bw: u32, dec: bool, reply: Reply, x: int)
    requires Wf(s) && c < |s.table|
    ensures Resumes(ConsumerRelease(s, c, bw, dec, reply).s.queue, x) == Resumes(s.queue, x)
  {
    var r := ConsumerRelease(s, c, bw, dec, reply).s;
    if r.queue == s.queue + [Suspend(c, s.table[c].state, bw)] {
      assert r.queue[..|s.queue|] == s.queue;
    } else {
      NotesCount(s.queue, r.queue, x);
    }
  }

  lemma DeleteResumes(s: Rm, p: nat, c: nat, userspace: bool, reply: Reply, x: int)
    requires Structured(s) && BothExist(s, p, c)
    ensures Resumes(DeleteDependency(s, p, c, userspace, reply).s.queue, x) == Resumes(s.queue, x)
  {
    var f := ForgetConsumer(s, p, c);
    assert Notes(s.queue, f.queue);
    NotesCount(s.queue, f.queue, x);
    var t := Cut(s, p, c);
    ReleaseResumes(t, c, t.table[p].maxBw, true, reply, x);
  }

  lemma DeleteOneUsage(s: Rm, c: nat, k: nat, reply: Reply)
    requires Structured(s) && Charged(s) && Lookup(s, c) && IsCons(c) && k < |s.table| && Good(reply.driver)
    ensures var r := DeleteOne(s, c, k, reply);
            Charged(r) && Resumes(r.queue, c) == Resumes(s.queue, c) && (Unused(r, c) <==> Unused(s, c))
  {
    if Present(s, c, k) {
      var u := s.peers[c][k].userspace;
      assert Present(s, k, c);
      DeleteResumes(s, k, c, u, reply, c);
      DeleteOneCharged(s, c, k, reply);
      var t := Cut(s, k, c);
      ForgetTouches(s, k, c);
      assert t.table[c] == s.table[c];
      UsageNonNegative(s, |s.table|, {}, c);
      if Active(s.table[k].state) {
        HeldIsActive(s, |s.table|, {}, k, c);
        ReleaseEffect(t, c, t.table[k].maxBw, true, reply);
      }
    }
  }

  /** When the deletion loop reaches slot k: the edges below are gone, and what remains pending
      for c is as in s. */
  ghost predicate CutBelow(s: Rm, t: Rm, c: nat, k: nat)
  {
    && Structured(t) && Charged(t) && Lookup(t, c) && IsCons(c) && k <= |t.table| && c < |s.table|
    && (forall j :: 0 <= j < k ==> t.peers[c][j] == NoPeer)
    && Resumes(t.queue, c) == Resumes(s.queue, c) && (Unused(t, c) <==> Unused(s, c))
  }

  lemma CutOne(s: Rm, t: Rm, c: nat, k: nat, reply: Reply)
    requires CutBelow(s, t, c, k) && k < |t.table| && Good(reply.driver)
    ensures CutBelow(s, DeleteOne(t, c, k, reply), c, k + 1)
  {
    DeleteOneStructured(t, c, k, reply);
    DeleteOneUsage(t, c, k, reply);
  }

  /** Cutting off its producers: an unused consumer stays as it is, a used one ends inactive. */
  lemma DeleteFromUsage(s: Rm, c: nat, env: nat -> Reply)
    requires Structured(s) && Charged(s) && Lookup(s, c) && IsCons(c) && GoodEnv(env)
    ensures var t := DeleteFrom(s, c, 0, env);
            && Resumes(t.queue, c) == Resumes(s.queue, c)
            && (Active(t.table[c].state) <==> Unused(s, c))
  {
    var inv := (j: nat, t: Rm) => CutBelow(s, t, c, j);
    forall j: nat, t: Rm ensures SlotKeeps(inv, t, c, j, env(j)) {
      if j < |t.table| && c < |t.table| && Wf(t) && inv(j, t) {
        CutOne(s, t, c, j, env(j));
      }
    }
    DeleteLoop(inv, s, c, 0, env);
    WithoutUsers(DeleteFrom(s, c, 0, env), c);
  }


  /** The clock votes that a step leaves unaccounted for. Deleting a consumer strands the vote
      of one that only a timer holds, and every resume still to run is one vote short: the
      suspend that undoes it will run, but it gives back itself. Creating the name again takes
      the resumes left over back into account. */
  function Strays(s: Rm, op: Op, c: nat): int
    requires Wf(s) && c < |s.table|
  {
    var coming := Resumes(s.queue, c) + Unit(Handling(s, c));
    match op
    case OpDelete(i, _) => if i == c && Lookup(s, c) then Unit(Unused(s, c)) - coming else 0
    case OpCreate(i, floor) => if i == c && Free(s, c) && 0 <= floor < VOLTAGE_MAX then coming else 0
    case _ => 0
  }

  /** The name can be given to a new resource. */
  predicate Free(s: Rm, i: nat)
    requires i < |s.table|
  {
    !Reserved(i) && !s.table[i].live
  }

  lemma DeleteConsumerClock(s: Rm, c: nat, env: nat -> Reply, x: nat)
    requires Structured(s) && Charged(s) && Lookup(s, c) && IsCons(c) && GoodEnv(env)
    requires x < |s.table| && IsCons(x)
    ensures Surplus(Delete(s, c, env).s, x) == Surplus(s, x) + Strays(s, OpDelete(c, env), x)
    ensures Vacant(s, x) ==> Vacant(Delete(s, c, env).s, x)
  {
    var t := DeleteFrom(s, c, 0, env);
    DeleteFromKeeps(s, c, 0, env, false, true);
    KeptClock(s, t, false, x);
    DeleteFromUsage(s, c, env);
  }

  lemma CreateClock(s: Rm, c: nat, floor: int, x: nat)
    requires Structured(s) && c < |s.table| && x < |s.table|
    ensures Surplus(Create(s, c, floor).s, x) == Surplus(s, x) + Strays(s, OpCreate(c, floor), x)
    ensures Vacant(s, x) && x != c ==> Vacant(Create(s, c, floor).s, x)
  {
  }

  // ----- the table votes of a deleted consumer

  /** The last active producer below n that depends on c. */
  function LastUser(s: Rm, c: nat, n: nat): (r: Option<nat>)
    requires Wf(s) && c < |s.table| && n <= |s.table|
    ensures r.Some? ==> r.value < n && UserOf(s, r.value, c)
    ensures forall p :: (if r.Some? then r.value + 1 else 0) <= p < n ==> !UserOf(s, p, c)
  {
    if n == 0 then None
    else if UserOf(s, n - 1, c) then Some(n - 1)
    else LastUser(s, c, n - 1)
  }

  /** The voltage and bandwidth votes that deleting c leaves in the table. Only the release of a
      granted consumer by its last user clears them, and only if its clock call does not block. */
  function LeftVotes(s: Rm, c: nat, env: nat -> Reply): (nat, u32)
    requires Wf(s) && c < |s.table|
  {
    var last := LastUser(s, c, |s.table|);
    if s.table[c].state != Granted || last.None? then (s.volt[c], s.bw[c])
    else if env(last.value).noBlock then (0, 0)
    else (s.table[c].floor, Min(s.table[c].maxBw, s.table[last.value].maxBw))
  }

  /** One user of c, whose maximum is bw, has let it go: the record of c and its votes. */
  ghost predicate LetGo(s: Rm, r: Rm, c: nat, bw: u32, reply: Reply)
    requires Wf(s) && Wf(r) && c < |s.table| == |r.table|
  {
    var x := s.table[c];
    && r.table[c] == x.(state := StateAfterRelease(x, true, reply), usage := UsageAfterRelease(x, true),
                        neededBw := Wrap(x.neededBw - bw as int))
    && (x.state != Granted || r.table[c].state == ReleaseInProgress ==>
          r.volt[c] == s.volt[c] && r.bw[c] == s.bw[c])
    && (x.state == Granted && r.table[c].state == Released ==> r.volt[c] == 0 && r.bw[c] == 0)
  }

  lemma ReleaseVotes(s: Rm, c: nat, bw: u32, reply: Reply)
    requires Wf(s) && c < |s.table| && s.table[c].live && Good(reply.driver)
    ensures LetGo(s, ConsumerRelease(s, c, bw, true, reply).s, c, bw, reply)
  {
    ReleaseEffect(s, c, bw, true, reply);
  }

  lemma CutVotes(s: Rm, p: nat, c: nat)
    requires Structured(s) && BothExist(s, p, c)
    ensures var t := Cut(s, p, c);
            && t.table == s.table[p := t.table[p]] && t.table[p].maxBw == s.table[p].maxBw
            && t.volt[c] == s.volt[c] && t.bw[c] == s.bw[c]
  {
    ForgetTouches(s, p, c);
  }

  /** Cutting one producer off: the records and the votes of c. */
  lemma CutOneView(s: Rm, c: nat, k: nat, reply: Reply)
    requires Structured(s) && Lookup(s, c) && IsCons(c) && k < |s.table| && Present(s, c, k) && Good(reply.driver)
    ensures var r := DeleteOne(s, c, k, reply);
            && (forall p :: 0 <= p < |s.table| && p != k && p != c ==> r.table[p] == s.table[p])
            && (if Active(s.table[k].state) then LetGo(s, r, c, s.table[k].maxBw, reply)
                else r.table[c] == s.table[c] && r.volt[c] == s.volt[c] && r.bw[c] == s.bw[c])
  {
    assert Present(s, k, c);
    var t := Cut(s, k, c);
    CutVotes(s, k, c);
    if Active(s.table[k].state) {
      ReleaseVotes(t, c, t.table[k].maxBw, reply);
      ReleaseTouches(t, c, t.table[k].maxBw, true, reply);
      assert DeleteOne(s, c, k, reply) == ConsumerRelease(t, c, t.table[k].maxBw, true, reply).s;
    } else {
      assert DeleteOne(s, c, k, reply) == t;
    }
  }

  /** The release by user k, be it the last or not. */
  lemma LastTurn(s: Rm, r: Rm, c: nat, k: nat, env: nat -> Reply)
    requires Wf(s) && Wf(r) && |r.table| == |s.table| && Charged(s) && Charged(r) && Coherent(s, false)
    requires c < |s.table| && IsCons(c) && k < |s.table| && UserOf(s, k, c) && k != c
    requires forall j :: 0 <= j < k ==> !UserOf(s, j, c)
    requires forall p :: 0 <= p < |s.table| ==> UserOf(r, p, c) == (p != k && UserOf(s, p, c))
    requires forall p :: 0 <= p < |s.table| && p != k ==> r.table[p].maxBw == s.table[p].maxBw
    requires LetGo(s, r, c, s.table[k].maxBw, env(k)) && Good(env(k).driver)
    ensures LeftVotes(r, c, env) == LeftVotes(s, c, env)
  {
    var n := |s.table|;
    var last := LastUser(s, c, n);
    assert last.Some?;
    HeldIsActive(s, n, {}, k, c);
    if last.value == k {
      WithoutUsers(r, c);
      assert s.table[c].neededBw == s.table[k].maxBw;
      assert VoteOk(s, c, false);
    } else {
      assert UserOf(r, last.value, c);
      HeldIsActive(r, n, {}, last.value, c);
      assert LastUser(r, c, n) == last;
    }
  }

  lemma CutUsers(s: Rm, c: nat, k: nat, reply: Reply)
    requires Structured(s) && Lookup(s, c) && IsCons(c) && k < |s.table| && Present(s, c, k) && Good(reply.driver)
    ensures var r := DeleteOne(s, c, k, reply);
            forall p :: 0 <= p < |s.table| ==> UserOf(r, p, c) == (p != k && UserOf(s, p, c))
  {
    assert !Present(s, c, c);
    CutOneView(s, c, k, reply);
    DeleteOneStructured(s, c, k, reply);
  }

  /** Nothing that the votes left depend on has changed. */
  lemma SameLeft(s: Rm, r: Rm, c: nat, env: nat -> Reply)
    requires Wf(s) && Wf(r) && c < |s.table| == |r.table|
    requires forall p :: 0 <= p < |s.table| ==> UserOf(r, p, c) == UserOf(s, p, c)
    requires forall p :: 0 <= p < |s.table| ==> r.table[p].maxBw == s.table[p].maxBw
    requires r.table[c] == s.table[c] && r.volt[c] == s.volt[c] && r.bw[c] == s.bw[c]
    ensures LeftVotes(r, c, env) == LeftVotes(s, c, env)
  {
    assert LastUser(r, c, |s.table|) == LastUser(s, c, |s.table|);
  }

  /** A turn of the deletion loop changes the votes of c as foreseen: what will be left stays the same. */
  lemma LeftTurn(s: Rm, c: nat, k: nat, env: nat -> Reply)
    requires Structured(s) && Charged(s) && Coherent(s, false) && Lookup(s, c) && IsCons(c)
    requires k < |s.table| && GoodEnv(env) && forall j :: 0 <= j < k ==> s.peers[c][j] == NoPeer
    ensures LeftVotes(DeleteOne(s, c, k, env(k)), c, env) == LeftVotes(s, c, env)
  {
    if Present(s, c, k) {
      var r := DeleteOne(s, c, k, env(k));
      CutOneView(s, c, k, env(k));
      CutUsers(s, c, k, env(k));
      if Active(s.table[k].state) {
        DeleteOneCharged(s, c, k, env(k));
        LastTurn(s, r, c, k, env);
      } else {
        SameLeft(s, r, c, env);
      }
    }
  }

  /** When the deletion loop reaches slot k: the edges below are gone, and the votes that will
      be left are known. */
  ghost predicate LeftBelow(s: Rm, c: nat, k: nat, env: nat -> Reply, left: (nat, u32))
  {
    && Structured(s) && Charged(s) && Coherent(s, false) && Promised(s)
    && Lookup(s, c) && IsCons(c) && k <= |s.table|
    && (forall j :: 0 <= j < k ==> s.peers[c][j] == NoPeer)
    && LeftVotes(s, c, env) == left
  }

  lemma LeftOne(s: Rm, c: nat, k: nat, env: nat -> Reply, left: (nat, u32))
    requires LeftBelow(s, c, k, env, left) && k < |s.table| && GoodEnv(env)
    ensures LeftBelow(DeleteOne(s, c, k, env(k)), c, k + 1, env, left)
  {
    var r := DeleteOne(s, c, k, env(k));
    DeleteOneStructured(s, c, k, env(k));
    DeleteOneCharged(s, c, k, env(k));
    DeleteOneKeeps(s, c, k, env(k), false);
    Kept(s, r, false, true);
    LeftTurn(s, c, k, env);
  }

  /** Exactly those votes remain in the table after the deletion. */
  lemma VotesLeft(s: Rm, c: nat, env: nat -> Reply)
    requires Structured(s) && Charged(s) && Coherent(s, false) && Promised(s)
    requires Lookup(s, c) && IsCons(c) && GoodEnv(env)
    ensures var r := Delete(s, c, env).s; (r.volt[c], r.bw[c]) == LeftVotes(s, c, env)
  {
    var left := LeftVotes(s, c, env);
    var inv := (j: nat, t: Rm) => LeftBelow(t, c, j, env, left);
    forall j: nat, t: Rm ensures SlotKeeps(inv, t, c, j, env(j)) {
      if j < |t.table| && c < |t.table| && Wf(t) && inv(j, t) {
        LeftOne(t, c, j, env, left);
      }
    }
    DeleteLoop(inv, s, c, 0, env);
  }

  /** Deleting a consumer whose votes are not taken back. */
  predicate Stale(s: Rm, op: Op)
    requires Wf(s)
  {
    match op
    case OpDelete(c, env) => Lookup(s, c) && IsCons(c) && LeftVotes(s, c, env) != (0, 0)
    case _ => false
  }

  /** Deleting a consumer: its slot is vacant afterwards, the other books are as before. */
  lemma DeleteConsumerBooks(s: Rm, c: nat, env: nat -> Reply, strict: bool, good: bool)
    requires Structured(s) && Lookup(s, c) && IsCons(c) && (good ==> GoodEnv(env))
    ensures var r := Delete(s, c, env).s;
            && (Announced(s) ==> Announced(r))
            && (good && Coherent(s, strict) && Promised(s) ==>
                  && Promised(r)
                  && forall j :: 0 <= j < |s.table| && j != c ==> VoteOk(r, j, strict))
  {
    var t := DeleteFrom(s, c, 0, env);
    DeleteFromKeeps(s, c, 0, env, strict, good);
    Kept(s, t, strict, good);
    SlotBooks(t, Clear(t, c), c, strict);
  }

  lemma DeleteConsumerCoherent(s: Rm, c: nat, env: nat -> Reply, strict: bool)
    requires Structured(s) && Charged(s) && Coherent(s, strict) && Promised(s)
    requires Lookup(s, c) && IsCons(c) && GoodEnv(env)
    ensures var r := Delete(s, c, env).s;
            Promised(r) && (Coherent(r, strict) <==> !(strict && Stale(s, OpDelete(c, env))))
  {
    var r := Delete(s, c, env).s;
    DeleteConsumerBooks(s, c, env, strict, true);
    assert r.table[c] == NO_RESOURCE;
    forall j | 0 <= j < |s.table| ensures VoteOk(s, j, strict) ==> VoteOk(s, j, false) {
    }
    VotesLeft(s, c, env);
    assert VoteOk(r, c, strict) <==> !(strict && Stale(s, OpDelete(c, env)));
  }

  lemma CreateBooks(s: Rm, i: nat, floor: int, strict: bool)
    requires Structured(s)
    ensures var r := Create(s, i, floor).s;
            && (Announced(s) ==> Announced(r))
            && (Coherent(s, strict) ==> Coherent(r, strict))
            && (Promised(s) ==> Promised(r))
  {
    var r := Create(s, i, floor).s;
    if r != s {
      SlotBooks(s, r, i, strict);
      assert VoteOk(s, i, strict) ==> VoteOk(r, i, strict);
    }
  }

  // ----- every step

  lemma CreateProducerKeeps(s: Rm, p: nat, floor: int, strict: bool)
    requires Structured(s) && IsProd(p)
    ensures Keeps(s, Create(s, p, floor).s, strict, true)
  {
    CreateBooks(s, p, floor, strict);
    forall x | 0 <= x < |s.table| && IsCons(x) ensures Surplus(Create(s, p, floor).s, x) == Surplus(s, x) {
      if p < |s.table| { CreateClock(s, p, floor, x); }
    }
  }

  lemma StepKeeps(s: Rm, op: Op, strict: bool)
    requires Structured(s)
    requires op.OpCreate? || op.OpDelete? ==> IsProd(op.i)
    ensures Keeps(s, Step(s, op), strict, GoodOp(op))
  {
    match op
    case OpCreate(i, floor) => CreateProducerKeeps(s, i, floor, strict);
    case OpDelete(i, env) => if Lookup(s, i) { DeleteProducerKeeps(s, i, env, strict, GoodEnv(env)); }
    case OpAdd(p, c, u, reply) => if BothExist(s, p, c) { AddKeeps(s, p, c, u, reply, strict); }
    case OpDel(p, c, u, reply) => if BothExist(s, p, c) { DeleteKeeps(s, p, c, u, reply, strict); }
    case OpRequest(p, env) =>
      if IsProd(p) && Lookup(s, p) { ProducerRequestKeeps(s, p, env, strict, GoodEnv(env)); }
    case OpRelease(p, env) =>
      if IsProd(p) && Lookup(s, p) { ProducerReleaseKeeps(s, p, env, strict, GoodEnv(env)); }
    case OpTimerRequest(c, reply) => TimerRequestKeeps(s, c, reply, strict);
    case OpDelayedRelease(c, reply) => DelayedReleaseKeeps(s, c, reply, strict);
    case OpProfile(i, max) => if Lookup(s, i) { ProfileKeeps(s, i, max, strict); }
    case OpComplete(c, ev) => CompleteKeeps(s, c, ev, strict);
    case OpStartWork => StartKeeps(s, strict);
    case OpFinishWork(driver) => FinishKeeps(s, driver, strict);
  }

  /** Whatever the drivers answer, the IPA driver will be told the current vote. */
  lemma StepAnnounced(s: Rm, op: Op)
    requires Structured(s) && Announced(s)
    ensures Announced(Step(s, op))
  {
    match op {
      case OpCreate(i, floor) => CreateBooks(s, i, floor, false);
      case OpDelete(i, env) =>
        if IsCons(i) && Lookup(s, i) {
          DeleteConsumerBooks(s, i, env, false, false);
        } else if Lookup(s, i) {
          DeleteProducerKeeps(s, i, env, false, false);
          Kept(s, Step(s, op), false, false);
        }
      case _ =>
        StepKeeps(s, op, false);
        Kept(s, Step(s, op), false, GoodOp(op));
    }
  }

  /** Every promise survives every step. So do the votes of granted resources and released
      producers, and those of released consumers exactly if the step is no stale deletion. */
  lemma StepCoherent(s: Rm, op: Op, strict: bool)
    requires Structured(s) && Charged(s) && GoodOp(op) && Coherent(s, strict) && Promised(s)
    ensures Promised(Step(s, op))
    ensures Coherent(Step(s, op), strict) <==> !(strict && Stale(s, op))
  {
    match op {
      case OpCreate(i, floor) => CreateBooks(s, i, floor, strict);
      case OpDelete(i, env) =>
        if IsCons(i) && Lookup(s, i) {
          DeleteConsumerCoherent(s, i, env, strict);
        } else if Lookup(s, i) {
          DeleteProducerKeeps(s, i, env, strict, true);
          Kept(s, Step(s, op), strict, true);
        }
      case _ =>
        StepKeeps(s, op, strict);
        Kept(s, Step(s, op), strict, true);
    }
  }

  /** The exact account of the clock votes of every consumer, step by step. */
  lemma StepClocks(s: Rm, op: Op, c: nat)
    requires Structured(s) && Charged(s) && GoodOp(op) && c < |s.table| && IsCons(c)
    ensures Surplus(Step(s, op), c) == Surplus(s, c) + Strays(s, op, c)
    ensures Vacant(s, c) && !Creates(op, c) ==> Vacant(Step(s, op), c)
  {
    match op {
      case OpCreate(i, floor) => if i < |s.table| { CreateClock(s, i, floor, c); }
      case OpDelete(i, env) =>
        if IsCons(i) && Lookup(s, i) {
          DeleteConsumerClock(s, i, env, c);
        } else if Lookup(s, i) {
          DeleteProducerKeeps(s, i, env, false, true);
          KeptClock(s, Step(s, op), false, c);
        }
      case _ =>
        StepKeeps(s, op, false);
        KeptClock(s, Step(s, op), false, c);
    }
  }

  predicate Creates(op: Op, c: nat)
  {
    op.OpCreate? && op.i == c
  }

  predicate Deletes(op: Op, c: nat)
  {
    op.OpDelete? && op.i == c
  }

  /** A name is taken and given up only by its own creation and deletion. */
  lemma NameStays(s: Rm, op: Op, c: nat)
    requires Structured(s) && c < |s.table| && !Creates(op, c) && !Deletes(op, c)
    ensures Step(s, op).table[c].live == s.table[c].live
  {
    match op
    case OpProfile(i, max) => if Lookup(s, i) && max != s.table[i].maxBw { ProfileTable(s, i, max); }
    case _ =>
  }

  lemma InitBooks(n: nat)
    ensures var s := Init(n); Announced(s) && Coherent(s, true) && Promised(s)
    ensures forall c :: 0 <= c < n ==> Surplus(Init(n), c) == 0
  {
    var s := Init(n);
    ZeroVotes(s.volt, s.bw);
  }

  lemma {:induction false} ZeroVotes(volt: seq<nat>, bw: seq<u32>)
    requires |volt| == |bw|
    requires forall i :: 0 <= i < |volt| ==> volt[i] == 0 && bw[i] == 0
    ensures MaxOf(volt) == 0 && SideTotal(bw, 0) == 0 && SideTotal(bw, 1) == 0
  {
    if |volt| > 0 {
      ZeroVotes(volt[..|volt| - 1], bw[..|bw| - 1]);
    }
  }
}
