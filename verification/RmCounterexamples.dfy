/**
 * Runs that show that each condition of the run theorems is needed. All of them
 * start from the empty manager and use only well-formed calls.
 */
module RmCounterexamples {
  import opened Basics
  import opened Totals
  import opened RmModel
  import opened RmStructure
  import opened RmCharges
  import opened RmGrants
  import opened RmLedger
  import opened RmAccounts
  import opened RmRuns

  const NOW := Reply(true, 0)
  const LATER := Reply(true, -EINPROGRESS)
  const FAILS := Reply(true, -EPERM)

  /** One resource, nothing else. */
  function Lonely(c: nat, floor: int): (r: Rm)
    requires c < 2
    ensures Wf(r)
  {
    Step(Init(2), OpCreate(c, floor))
  }

  lemma LonelyState()
    ensures var s := Lonely(1, 1);
            && s == Init(2).(table := [NO_RESOURCE, NO_RESOURCE.(live := true, floor := 1)], nextPtr := 1)
            && |s.peers[1]| == 2 && s.peers[1][0] == NoPeer && s.peers[1][1] == NoPeer
  {
    var s := Lonely(1, 1);
    assert s.table == [NO_RESOURCE, NO_RESOURCE.(live := true, floor := 1)];
    assert s.peers[1] == Init(2).peers[1];
    assert s.peers == Init(2).peers;
    assert s.count == Init(2).count;
  }

  /** A timer request that is answered at once. */
  lemma TimerGrant(s: Rm, c: nat)
    requires Wf(s) && Lookup(s, c) && IsCons(c) && s.table[c].state == Released
    ensures var r := TimerRequest(s, c, NOW).s;
            && r.peers == s.peers && Lookup(r, c) && r.table[c].state == Granted
            && r.clk[c] == s.clk[c] + 1 && r.volt[c] == s.table[c].floor && Notes(s.queue, r.queue)
  {
    var t := Vote(SetState(AddNeeded(s, c, 0), c, RequestInProgress), c, 1);
    var u := Perf(SetState(t, c, Granted), c);
    assert ConsumerRequest(s, c, 0, false, true, NOW).s == u;
  }

  lemma TimerHeld(s: Rm)
    requires s == Lonely(1, 1)
    ensures var r := Step(s, OpTimerRequest(1, NOW));
            && r.peers == s.peers && Lookup(r, 1)
            && r.table[1].state == Granted && r.clk[1] == 1 && r.volt[1] == 1
            && Resumes(r.queue, 1) == 0 && Suspends(r.queue, 1) == 0
  {
    LonelyState();
    TimerGrant(s, 1);
    NotesCount([], TimerRequest(s, 1, NOW).s.queue, 1);
  }

  /** A consumer without edges loses nothing but its record. */
  lemma {:induction false} LonelyDelete(s: Rm, c: nat, k: nat, env: nat -> Reply)
    requires Wf(s) && c < |s.table| && k <= |s.table| && forall j :: k <= j < |s.table| ==> s.peers[c][j] == NoPeer
    ensures DeleteFrom(s, c, k, env) == s
    decreases |s.table| - k
  {
    if k < |s.table| {
      LonelyDelete(s, c, k + 1, env);
    }
  }

  /** Deleting a consumer that only a timer holds: its clock vote and its voltage vote stay
      behind, and no work item that is queued will drop them. */
  lemma DeletionLeaksVotes()
    ensures var s := Run(Init(2), [OpCreate(1, 1), OpTimerRequest(1, NOW), OpDelete(1, _ => NOW)]);
            && !s.table[1].live
            && s.clk[1] == 1 && Resumes(s.queue, 1) == 0 && Suspends(s.queue, 1) == 0
            && s.volt[1] == 1
  {
    var s1 := Lonely(1, 1);
    LonelyState();
    TimerHeld(s1);
    var s2 := Step(s1, OpTimerRequest(1, NOW));
    LonelyDelete(s2, 1, 0, _ => NOW);
    var ops := [OpCreate(1, 1), OpTimerRequest(1, NOW), OpDelete(1, _ => NOW)];
    Run3(Init(2), ops);
  }

  lemma Run3(s: Rm, ops: seq<Op>)
    requires Wf(s) && |ops| == 3
    ensures Run(s, ops) == Step(Step(Step(s, ops[0]), ops[1]), ops[2])
  {
    assert ops[1..][1..] == ops[2..];
    assert Run(Step(Step(s, ops[0]), ops[1]), ops[2..]) == Step(Step(Step(s, ops[0]), ops[1]), ops[2]);
  }

  // ----- an unsafe grant

  const NAMES: seq<nat> := [0, 1, 3, 5]

  /** Creates resources 0, 1, 3 and 5, then makes producer 0 depend on the other three. */
  function SetupOp(k: nat): Op
    requires k < 7
  {
    if k < 4 then OpCreate(NAMES[k], 0) else OpAdd(0, NAMES[k - 3], false, NOW)
  }

  const SETUP: seq<Op> := seq(7, k requires 0 <= k < 7 => SetupOp(k))

  lemma AddToReleased(s: Rm, p: nat, c: nat)
    requires Structured(s) && BothExist(s, p, c) && s.table[p].state == Released && !Present(s, p, c)
    ensures var r := Step(s, OpAdd(p, c, false, NOW));
            && (forall i :: 0 <= i < |s.table| ==>
                  r.table[i].live == s.table[i].live && r.table[i].state == s.table[i].state)
            && r.peers[p] == s.peers[p][c := Peer(s.table[c].ptr, false)]
            && r.queue == s.queue && r.inflight == s.inflight
  {
    assert Present(s, p, c) <==> Present(s, c, p);
  }

  lemma CreateFresh(s: Rm, i: nat)
    requires Structured(s) && i < |s.table| && !Reserved(i) && !s.table[i].live
    ensures var r := Step(s, OpCreate(i, 0));
            && r.table == s.table[i := r.table[i]] && r.table[i].live && r.table[i].state == Released
            && (forall j :: 0 <= j < |s.table| ==> r.peers[j] == s.peers[j])
            && r.queue == s.queue && r.inflight == s.inflight
  {
    forall j | 0 <= j < |s.table| ensures s.peers[i][j] == NoPeer {
      assert !Present(s, i, j);
    }
    assert Step(s, OpCreate(i, 0)).peers[i] == s.peers[i];
  }

  /** After k steps of the setup: who exists, and on whom producer 0 depends. */
  ghost predicate Stage(s: Rm, k: nat)
    requires k <= 7
  {
    && Structured(s) && |s.table| == 6
    && (forall i :: 0 <= i < 6 ==>
          s.table[i].state == Released && (s.table[i].live <==> i in NAMES[..if k < 4 then k else 4]))
    && (forall c :: 0 <= c < 6 ==>
          && (s.peers[0][c].Peer? <==> c in NAMES[1..if k < 4 then 1 else k - 3])
          && (s.peers[0][c].Peer? ==> !s.peers[0][c].userspace))
  }

  lemma CreateStage(s: Rm, k: nat)
    requires k < 4 && Stage(s, k)
    ensures Stage(Step(s, SetupOp(k)), k + 1)
  {
    assert NAMES[..k + 1] == NAMES[..k] + [NAMES[k]];
    CreateFresh(s, NAMES[k]);
    StepStructured(s, SetupOp(k));
  }

  lemma LinkStage(s: Rm, k: nat)
    requires 4 <= k < 7 && Stage(s, k)
    ensures Stage(Step(s, SetupOp(k)), k + 1)
  {
    var c := NAMES[k - 3];
    assert NAMES[1..k - 2] == NAMES[1..k - 3] + [c];
    assert NAMES[..4][0] == 0 && NAMES[..4][k - 3] == c;
    AddToReleased(s, 0, c);
    StepStructured(s, SetupOp(k));
  }

  lemma {:induction false} StageRun(s: Rm, k: nat)
    requires k <= 7 && Stage(s, k)
    ensures Stage(Run(s, SETUP[k..]), 7)
    decreases 7 - k
  {
    if k < 7 {
      if k < 4 { CreateStage(s, k); } else { LinkStage(s, k); }
      StageRun(Step(s, SETUP[k]), k + 1);
      assert SETUP[k..][1..] == SETUP[k + 1..];
    }
  }

  /** Producer 0 depends on consumers 1, 3 and 5; all are released. */
  ghost predicate Star(s: Rm)
  {
    && Structured(s) && |s.table| == 6
    && (forall i :: 0 <= i < 6 ==> s.table[i].state == Released)
    && s.table[0].live && s.table[1].live && s.table[3].live && s.table[5].live
    && (forall c :: 0 <= c < 6 ==> s.peers[0][c].Peer? == (c == 1 || c == 3 || c == 5))
    && (forall c :: 0 <= c < 6 && s.peers[0][c].Peer? ==> !s.peers[0][c].userspace)
  }

  lemma FinalStage(s: Rm)
    requires Stage(s, 7)
    ensures Star(s)
  {
    assert NAMES[..4] == [0, 1, 3, 5] && NAMES[1..4] == [1, 3, 5];
    assert 0 in [0, 1, 3, 5] && 1 in [0, 1, 3, 5] && 3 in [0, 1, 3, 5] && 5 in [0, 1, 3, 5];
    assert 1 in [1, 3, 5] && 3 in [1, 3, 5] && 5 in [1, 3, 5];
  }

  lemma FirstStage()
    ensures Stage(Init(6), 0)
  {
    InitStructured(6);
  }

  lemma BuildStar()
    ensures Star(Run(Init(6), SETUP))
  {
    FirstStage();
    StageRun(Init(6), 0);
    assert SETUP[0..] == SETUP;
    FinalStage(Run(Init(6), SETUP));
  }

  /** Consumer 1 answers at once, 3 and 5 later. */
  function Answers(c: nat): Reply
  {
    if c == 1 then NOW else LATER
  }

  const REQUEST := OpRequest(0, Answers)
  const DELETE_1 := OpDel(0, 1, false, NOW)
  const DELETE_3 := OpDel(0, 3, false, NOW)

  lemma StarRequested(s: Rm)
    requires Star(s) && Charged(s) && Granting(s)
    ensures var r := Step(s, REQUEST);
            && r.peers == s.peers && Structured(r) && Charged(r)
            && r.table[0].state == RequestInProgress && r.table[0].pendingRequest == 2
            && r.table[1].state == Granted
            && r.table[3].state == RequestInProgress && r.table[5].state == RequestInProgress
            && forall i :: 0 <= i < 6 ==> r.table[i].live == s.table[i].live
  {
    var r := Step(s, REQUEST);
    assert Present(s, 0, 1) && Present(s, 0, 3) && Present(s, 0, 5);
    RequestOutcome(s, 0, Answers);
    StepStructured(s, REQUEST);
    StepCharged(s, REQUEST);
    var zeros := [0, 0, 0, 0, 0, 0];
    assert Blocked(r, 0) == zeros[3 := 1][5 := 1];
    SumZeros(zeros);
    SumUpdate(zeros, 3, 1);
    SumUpdate(zeros[3 := 1], 5, 1);
  }

  lemma StarFirstDeletion(a: Rm)
    requires Structured(a) && |a.table| == 6 && a.table[0].live && a.table[1].live
    requires a.table[0].state == RequestInProgress && a.table[0].pendingRequest > 0 && a.table[1].state == Granted
    requires Present(a, 0, 1) && !a.peers[0][1].userspace
    ensures var b := Step(a, DELETE_1);
            && Structured(b) && b.table[0].state == RequestInProgress && b.table[0].live
            && b.table[0].pendingRequest == a.table[0].pendingRequest - 1
            && b.peers[0] == a.peers[0][1 := NoPeer]
            && forall i :: 2 <= i < 6 ==> b.table[i] == a.table[i]
  {
    CutEffect(a, 0, 1);
    DeleteEffect(a, 0, 1, false, NOW);
    StepStructured(a, DELETE_1);
  }

  lemma StarSecondDeletion(b: Rm)
    requires Structured(b) && |b.table| == 6 && b.table[0].live && b.table[3].live
    requires b.table[0].state == RequestInProgress && b.table[0].pendingRequest == 1
    requires b.table[3].state == RequestInProgress && Present(b, 0, 3) && !b.peers[0][3].userspace
    ensures var r := Step(b, DELETE_3);
            r.table[0].state == Granted && r.peers[0] == b.peers[0][3 := NoPeer] && r.table[5] == b.table[5]
  {
    CutEffect(b, 0, 3);
    DeleteEffect(b, 0, 3, false, NOW);
  }

  /** Deleting the edge to granted consumer 1 and then the one to 3 grants producer 0,
      although consumer 5, which it still depends on, is not granted. */
  lemma StarMisgranted(s: Rm)
    requires Star(s) && Charged(s) && Granting(s)
    ensures var r := Step(Step(Step(s, REQUEST), DELETE_1), DELETE_3);
            r.table[0].state == Granted && Present(r, 0, 5) && r.table[5].state == RequestInProgress
  {
    StarRequested(s);
    StarFirstDeletion(Step(s, REQUEST));
    StarSecondDeletion(Step(Step(s, REQUEST), DELETE_1));
  }

  /** The unconditional form of grant safety is false: a run with well-behaved drivers. */
  lemma UnsafeGrant()
    ensures var s := Run(Init(6), SETUP + [REQUEST, DELETE_1, DELETE_3]);
            s.table[0].state == Granted && Present(s, 0, 5) && s.table[5].state == RequestInProgress
  {
    BuildStar();
    var s := Run(Init(6), SETUP);
    StarSound();
    StarMisgranted(s);
    RunAppend(Init(6), SETUP, [REQUEST, DELETE_1, DELETE_3]);
    Run3(s, [REQUEST, DELETE_1, DELETE_3]);
  }

  lemma StarSound()
    ensures var s := Run(Init(6), SETUP); Charged(s) && Granting(s)
  {
    InitStructured(6);
    InitCharged(6);
    InitGrants(6);
    HarmlessRun(Init(6), SETUP);
  }

  /** Creations and additions only. */
  lemma {:induction false} HarmlessRun(s: Rm, ops: seq<Op>)
    requires Structured(s) && Charged(s) && Granting(s)
    requires forall k :: 0 <= k < |ops| ==> ops[k].OpCreate? || (ops[k].OpAdd? && ops[k].reply == NOW)
    ensures Charged(Run(s, ops)) && Granting(Run(s, ops))
    decreases |ops|
  {
    if |ops| > 0 {
      assert ops[0].OpCreate? || (ops[0].OpAdd? && ops[0].reply == NOW);
      StepStructured(s, ops[0]);
      StepCharged(s, ops[0]);
      StepGrants(s, ops[0]);
      HarmlessRun(Step(s, ops[0]), ops[1..]);
    }
  }

  // ----- a producer left waiting

  /** Consumers 1 and 3 answer at once, 5 later. */
  function LastOneLate(c: nat): Reply
  {
    if c == 5 then LATER else NOW
  }

  const REQUEST_LATE := OpRequest(0, LastOneLate)

  lemma StarAllButOne(s: Rm)
    requires Star(s) && Charged(s) && Granting(s)
    ensures var r := Step(s, REQUEST_LATE);
            && r.peers == s.peers && Structured(r)
            && r.table[0].state == RequestInProgress && r.table[0].pendingRequest == 1
            && r.table[1].state == Granted && r.table[3].state == Granted && r.table[5].state == RequestInProgress
            && forall i :: 0 <= i < 6 ==> r.table[i].live == s.table[i].live
  {
    var r := Step(s, REQUEST_LATE);
    assert Present(s, 0, 1) && Present(s, 0, 3) && Present(s, 0, 5);
    RequestOutcome(s, 0, LastOneLate);
    StepStructured(s, REQUEST_LATE);
    var zeros := [0, 0, 0, 0, 0, 0];
    assert Blocked(r, 0) == zeros[5 := 1];
    SumZeros(zeros);
    SumUpdate(zeros, 5, 1);
  }

  /** p waits and counts nobody: no completion will grant it. */
  predicate Stuck(s: Rm, p: nat)
    requires p < |s.table|
  {
    s.table[p].state == RequestInProgress && s.table[p].pendingRequest == 0
  }

  lemma FinishStuck(s: Rm, p: nat)
    requires Structured(s) && p < |s.table| && IsProd(p) && Stuck(s, p)
    ensures var r := FinishWork(s, 0); Stuck(r, p) && r.peers == s.peers && KeepsGranted(s, r)
  {
    ExecuteKeepsGranted(s, 0);
    if s.inflight.Some? {
      match s.inflight.value
      case Resume(c, _, _, _) => if c < |s.table| && IsCons(c) { HandleStuck(s, c, GrantedEvent, p); }
      case Suspend(c, _, _) => if c < |s.table| && IsCons(c) { HandleStuck(s, c, ReleasedEvent, p); }
      case ResourceCb(c, ev) => if c < |s.table| { HandleStuck(s, c, ev, p); }
      case _ =>
    }
  }

  lemma HandleStuck(s: Rm, c: nat, ev: Event, p: nat)
    requires Wf(s) && c < |s.table| && p < |s.table| && c != p && Stuck(s, p)
    ensures Stuck(HandleCb(s, c, ev), p)
  {
    var t := if s.table[c].state == RequestInProgress then Perf(SetState(s, c, Granted), c)
             else SetState(s, c, Released);
    NotifyTouches(t, c, ev, 0);
  }

  lemma TurnStuck(s: Rm, p: nat)
    requires Structured(s) && p < |s.table| && IsProd(p) && Stuck(s, p)
    ensures var r := Turn(s, 0); Structured(r) && Stuck(r, p) && r.peers == s.peers && KeepsGranted(s, r)
  {
    StartStructured(s);
    FinishStructured(StartWork(s), 0);
    FinishStuck(StartWork(s), p);
  }

  lemma DrainStuck(s: Rm, answers: nat -> int, i: nat, p: nat)
    requires Structured(s) && s.inflight.None? && p < |s.table| && IsProd(p) && Stuck(s, p)
    requires forall k: nat :: answers(k) == 0
    ensures var r := Drain(s, answers, i); Stuck(r, p) && r.peers == s.peers && KeepsGranted(s, r)
  {
    var inv := (t: Rm) =>
      Structured(t) && p < |t.table| && Stuck(t, p) && t.peers == s.peers && KeepsGranted(s, t);
    forall t: Rm, k: nat ensures TurnKeeps(inv, t, answers(k)) {
      if Wf(t) && t.inflight.None? && inv(t) {
        TurnStuck(t, p);
      }
    }
    DrainLoop(inv, s, answers, i);
  }

  lemma SettleStuck(s: Rm, answers: nat -> int, p: nat)
    requires Structured(s) && p < |s.table| && IsProd(p) && Stuck(s, p)
    requires forall k: nat :: answers(k) == 0
    ensures var r := Settle(s, answers); Stuck(r, p) && r.peers == s.peers && KeepsGranted(s, r)
  {
    FinishStuck(s, p);
    FinishStructured(s, answers(0));
    DrainStuck(FinishWork(s, answers(0)), answers, 1, p);
  }

  lemma AllGood(s: Rm, ops: seq<Op>)
    requires Wf(s) && forall k :: 0 <= k < |ops| ==> GoodOp(ops[k])
    ensures AllowedRun(s, ops, ANY)
    decreases |ops|
  {
    if |ops| > 0 {
      AllGood(Step(s, ops[0]), ops[1..]);
    }
  }

  const RASH: seq<Op> := [REQUEST_LATE, DELETE_1, OpComplete(5, GrantedEvent)]
  const WAITING: seq<Op> := SETUP + RASH

  /** The other half of the harm: deleting the edge to granted consumer 1 while only consumer 5 is
      awaited. Consumer 5 is granted, the queue is empty, the producer has everything it depends
      on, and nothing is left that would grant it. */
  lemma StuckProducer()
    ensures var r := Settle(Run(Init(6), WAITING), _ => 0);
            && Stuck(r, 0) && Present(r, 0, 3) && Present(r, 0, 5)
            && forall c :: 0 <= c < 6 && Present(r, 0, c) ==> r.table[c].state == Granted
  {
    var s := Run(Init(6), SETUP);
    BuildStar();
    StarSound();
    WaitingState(s);
    RunAppend(Init(6), SETUP, RASH);
    AllGood(Init(6), WAITING);
    InitSound(6, ANY);
    RunSound(Init(6), WAITING, ANY);
    WaitingRests(Run(s, RASH), _ => 0);
  }

  lemma WaitingState(s: Rm)
    requires Star(s) && Charged(s) && Granting(s)
    ensures var w := Run(s, RASH);
            && Structured(w) && Stuck(w, 0) && !w.owed[5] && w.table[3].state == Granted
            && forall c :: 0 <= c < 6 ==> Present(w, 0, c) == (c == 3 || c == 5)
  {
    StarAllButOne(s);
    var a := Step(s, REQUEST_LATE);
    StarFirstDeletion(a);
    var b := Step(a, DELETE_1);
    StepStructured(b, OpComplete(5, GrantedEvent));
    Run3(s, RASH);
  }

  /** What a stuck producer depends on is granted all the same, if its driver owes nothing. */
  lemma SettleGrants(w: Rm, answers: nat -> int, p: nat, c: nat)
    requires Sound(w, ANY) && p < |w.table| && c < |w.table| && IsCons(c) && !w.owed[c]
    requires forall k: nat :: answers(k) == 0
    requires var r := Settle(w, answers); Stuck(r, p) && Present(r, p, c)
    ensures Settle(w, answers).table[c].state == Granted
  {
    var r := Settle(w, answers);
    PromptFinish(w, c);
    PromptDrain(FinishWork(w, 0), answers, 1, c);
    SettleSound(w, answers, ANY);
    assert InUse(r, c);
    UsedOrTimed(r, c, ANY);
    ConsumerRests(r, c, ANY);
  }

  /** The thread's part. */
  lemma WaitingRests(w: Rm, answers: nat -> int)
    requires Sound(w, ANY) && |w.table| == 6 && Stuck(w, 0) && !w.owed[5] && w.table[3].state == Granted
    requires forall c :: 0 <= c < 6 ==> Present(w, 0, c) == (c == 3 || c == 5)
    requires forall k: nat :: answers(k) == 0
    ensures var r := Settle(w, answers);
            && Stuck(r, 0) && Present(r, 0, 3) && Present(r, 0, 5)
            && forall c :: 0 <= c < 6 && Present(r, 0, c) ==> r.table[c].state == Granted
  {
    var r := Settle(w, answers);
    SettleStuck(w, answers, 0);
    assert forall c :: 0 <= c < 6 ==> Present(r, 0, c) == Present(w, 0, c);
    SettleGrants(w, answers, 0, 5);
  }

  // ----- a vote dropped that was never taken

  /** The clock call blocks. */
  function Blocks(c: nat): Reply
  {
    Reply(false, 0)
  }

  const BLOCKED_REQUEST := OpRequest(0, Blocks)

  /** Producer 0 depends on consumer 1 and asks for it; the resume is queued. */
  const OVERTAKEN: seq<Op> :=
    [OpCreate(0, 0), OpCreate(1, 0), OpAdd(0, 1, false, NOW), BLOCKED_REQUEST]

  lemma Run4(s: Rm, ops: seq<Op>)
    requires Wf(s) && |ops| == 4
    ensures Run(s, ops) == Step(Step(Step(Step(s, ops[0]), ops[1]), ops[2]), ops[3])
  {
    var t := Step(s, ops[0]);
    Run3(t, ops[1..]);
  }

  lemma QueuedRequest(s: Rm)
    requires Structured(s) && Charged(s) && |s.table| == 2 && BothExist(s, 0, 1) && Present(s, 0, 1)
    requires s.table[0].state == Released && s.table[1].state == Released && s.queue == [] && s.inflight.None?
    ensures var r := Step(s, BLOCKED_REQUEST);
            && Lookup(r, 1) && r.table[1].state == RequestInProgress && r.table[1].usage == 1
            && Resumes(r.queue, 1) == 1 && r.inflight.None?
  {
    var t := Put(s, 0, s.table[0].(state := RequestInProgress, pendingRequest := 0));
    assert !Present(s, 0, 0);
    assert ChargedTo(s, 2, {}, 1);
    SumZeros(Uses(s, 2, {}, 1));
    var o := RequestOne(t, 0, 1, Blocks(1));
    assert o.code == -EINPROGRESS && o.s.table[0].pendingRequest == 1;
    assert o.s.queue == [Resume(1, Released, t.table[0].maxBw, true)];
    assert o.s.queue[..0] == [];
    assert RequestFrom(o.s, 0, 2, -EINPROGRESS, Blocks) == Out(o.s, -EINPROGRESS);
    assert RequestFrom(t, 0, 1, 0, Blocks) == Out(o.s, -EINPROGRESS);
    assert RequestFrom(t, 0, 0, 0, Blocks) == Out(o.s, -EINPROGRESS);
  }

  /** A state in which nothing has happened but creations and additions. */
  ghost predicate Untouched(s: Rm)
  {
    && Structured(s) && Charged(s) && |s.table| == 2 && s.queue == [] && s.inflight.None?
    && forall i :: 0 <= i < 2 ==> s.table[i].state == Released
  }

  lemma UntouchedCreate(s: Rm, i: nat)
    requires Untouched(s) && i < 2 && !s.table[i].live
    ensures var r := Step(s, OpCreate(i, 0));
            && Untouched(r) && r.table == s.table[i := r.table[i]] && r.table[i].live
            && forall j :: 0 <= j < 2 ==> r.peers[j] == s.peers[j]
  {
    CreateFresh(s, i);
    StepStructured(s, OpCreate(i, 0));
    StepCharged(s, OpCreate(i, 0));
  }

  lemma UntouchedAdd(s: Rm)
    requires Untouched(s) && BothExist(s, 0, 1) && !Present(s, 0, 1)
    ensures var r := Step(s, OpAdd(0, 1, false, NOW)); Untouched(r) && BothExist(r, 0, 1) && Present(r, 0, 1)
  {
    AddToReleased(s, 0, 1);
    StepStructured(s, OpAdd(0, 1, false, NOW));
    StepCharged(s, OpAdd(0, 1, false, NOW));
  }

  lemma PairBuilt(s: Rm)
    requires Untouched(s) && !s.table[0].live && !s.table[1].live && s.peers[0][1] == NoPeer
    ensures var r := Step(Step(Step(s, OpCreate(0, 0)), OpCreate(1, 0)), OpAdd(0, 1, false, NOW));
            Untouched(r) && BothExist(r, 0, 1) && Present(r, 0, 1)
  {
    UntouchedCreate(s, 0);
    var t := Step(s, OpCreate(0, 0));
    UntouchedCreate(t, 1);
    UntouchedAdd(Step(t, OpCreate(1, 0)));
  }

  lemma UntouchedInit()
    ensures Untouched(Init(2))
  {
    InitStructured(2);
    InitCharged(2);
  }

  lemma OvertakenState()
    ensures var s := Run(Init(2), OVERTAKEN);
            && Lookup(s, 1) && !Unused(s, 1) && Resumes(s.queue, 1) == 1 && !Handling(s, 1)
  {
    UntouchedInit();
    PairBuilt(Init(2));
    QueuedRequest(Step(Step(Step(Init(2), OpCreate(0, 0)), OpCreate(1, 0)), OpAdd(0, 1, false, NOW)));
    Run4(Init(2), OVERTAKEN);
  }

  /** Deleting a consumer in use whose first resume is still queued: the suspend drops a vote, the
      resume takes one and gives it back, and the count of the clock votes ends below zero. */
  lemma VoteNeverTaken()
    ensures var s := Run(Init(2), OVERTAKEN);
            Settle(Step(s, OpDelete(1, _ => NOW)), _ => 0).clk[1] == -1
  {
    AllGood(Init(2), OVERTAKEN);
    OvertakenState();
    InitSound(2, ANY);
    UndeletedStraysNot(Init(2), OVERTAKEN, 1, ANY);
    DeletedClock(2, OVERTAKEN, 1, _ => NOW, [], _ => 0);
  }

  // ----- a failing driver

  /** A request that consumer 1's driver refuses: the producer is left waiting for nobody,
      active but holding nothing, so the usage count no longer counts it. */
  lemma StarRefused(s: Rm)
    requires Star(s) && Charged(s)
    ensures var r := Step(s, OpRequest(0, _ => FAILS));
            && r.table[0].state == RequestInProgress && r.table[0].pendingRequest == 0
            && Present(r, 0, 1) && r.table[1].usage == 0
  {
    var t := Put(s, 0, s.table[0].(state := RequestInProgress, pendingRequest := 0));
    var u := AddPending(t, 0, 1);
    assert ChargedTo(s, 6, {}, 1);
    NothingHeld(s, 1);
    RefusedRequest(u, 1, u.table[0].maxBw);
    var o := RequestOne(t, 0, 1, FAILS);
    assert RequestFrom(t, 0, 1, 0, _ => FAILS) == o;
    assert RequestFrom(t, 0, 0, 0, _ => FAILS) == o;
    assert Present(s, 0, 1);
  }

  lemma RefusedRequest(s: Rm, c: nat, bw: u32)
    requires Wf(s) && c < |s.table| && s.table[c].state == Released
    ensures var o := ConsumerRequest(s, c, bw, true, false, FAILS);
            && o.code == -EPERM && o.s.table == s.table[c := o.s.table[c]]
            && o.s.table[c].usage == s.table[c].usage
  {
  }

  lemma NothingHeld(s: Rm, c: nat)
    requires Star(s) && Charged(s) && c < 6 && IsCons(c)
    ensures s.table[c].usage == 0
  {
    assert ChargedTo(s, 6, {}, c);
    SumZeros(Uses(s, 6, {}, c));
  }

  /** A run from the start: one refusal, and the usage count is not the number of active users. */
  lemma RefusalUncharges()
    ensures var r := Run(Init(6), SETUP + [OpRequest(0, _ => FAILS)]);
            && r.table[0].state == RequestInProgress && r.table[0].pendingRequest == 0
            && Present(r, 0, 1) && r.table[1].usage == 0 && !Charged(r)
  {
    var s := Run(Init(6), SETUP);
    var op := OpRequest(0, _ => FAILS);
    BuildStar();
    StarSound();
    StarRefused(s);
    RunAppend(Init(6), SETUP, [op]);
    assert Run(s, [op]) == Step(s, op);
    var r := Step(s, op);
    StepStructured(s, op);
    assert Present(r, 1, 0);
    if Charged(r) {
      HeldIsActive(r, 6, {}, 0, 1);
    }
  }
}
