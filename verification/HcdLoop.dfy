/** hcd_loop: the fixed schedule of four control attempts, one bulk attempt and one done-list step,
    with other threads linking TDs at any moment. */
module HcdLoop {
  import opened UsbTypes
  import opened HcdModel
  import opened HcdRuns

  /** The values 0..3, -1 and -2 of the loop's `state`. */
  datatype Phase = Control0 | Control1 | Control2 | Control3 | BulkPhase | DonePhase

  datatype Attempt = Sending(kind: ListKind) | Finishing

  function AttemptOf(p: Phase): Attempt {
    match p
    case BulkPhase => Sending(Bulk)
    case DonePhase => Finishing
    case _ => Sending(Control)
  }

  function After(p: Phase): Phase {
    match p
    case Control0 => Control1
    case Control1 => Control2
    case Control2 => Control3
    case Control3 => BulkPhase
    case BulkPhase => DonePhase
    case DonePhase => Control0
  }

  /** Iterations before the next done-list step. */
  function ToDone(p: Phase): nat {
    match p
    case Control0 => 5
    case Control1 => 4
    case Control2 => 3
    case Control3 => 2
    case BulkPhase => 1
    case DonePhase => 0
  }

  // ---------- one iteration among other threads ----------

  /** What the rest of the world does around one iteration: TDs linked before it and between reading the list head and
      taking the lock, and the device's reply should a packet go out. */
  datatype Env = Env(before: seq<LinkReq>, during: seq<LinkReq>, reply: Reply)

  function Links(s: State, reqs: seq<LinkReq>): State
    decreases |reqs|
  {
    if reqs == [] then s else Links(Next(s, LinkStep(reqs[0])), reqs[1..])
  }

  function Capture(s: State, p: Phase, env: Env): State
    requires AttemptOf(p).Sending?
  {
    Links(Next(Links(s, env.before), CaptureStep(AttemptOf(p).kind)), env.during)
  }

  /** hcd_wait_for_event blocks. */
  predicate Asleep(s: State, env: Env) {
    Links(s, env.before).h.notify == 0
  }

  function Iteration(s: State, p: Phase, env: Env): State {
    var s1 := Links(s, env.before);
    if s1.h.notify == 0 then s1
    else match AttemptOf(p)
      case Sending(_) => Next(Capture(s, p, env), SendStep(env.reply))
      case Finishing => Links(Next(s1, DoneStep), env.during)
  }

  function PhaseAfter(s: State, p: Phase, env: Env): Phase {
    if Asleep(s, env) then p else After(p)
  }

  function Loop(s: State, p: Phase, envs: seq<Env>): State
    decreases |envs|
  {
    if envs == [] then s else Loop(Iteration(s, p, envs[0]), PhaseAfter(s, p, envs[0]), envs[1..])
  }

  /** The device answers each packet the loop sends, and the assertion on the SETUP path holds. */
  predicate DeviceAnswers(s: State, p: Phase, envs: seq<Env>)
    decreases |envs|
  {
    envs == [] ||
    (&& (!Asleep(s, envs[0]) && AttemptOf(p).Sending? ==> Enabled(Capture(s, p, envs[0]), SendStep(envs[0].reply)))
     && DeviceAnswers(Iteration(s, p, envs[0]), PhaseAfter(s, p, envs[0]), envs[1..]))
  }

  // ---------- the loop as a run of the controller ----------

  function LinkSteps(reqs: seq<LinkReq>): seq<Step> {
    if reqs == [] then [] else [LinkStep(reqs[0])] + LinkSteps(reqs[1..])
  }

  /** The steps of one iteration, those of the linking threads included. */
  function IterationSteps(s: State, p: Phase, env: Env): seq<Step> {
    LinkSteps(env.before) +
    if Asleep(s, env) then []
    else match AttemptOf(p)
      case Sending(kind) => [CaptureStep(kind)] + LinkSteps(env.during) + [SendStep(env.reply)]
      case Finishing => [DoneStep] + LinkSteps(env.during)
  }

  function LoopSteps(s: State, p: Phase, envs: seq<Env>): seq<Step>
    decreases |envs|
  {
    if envs == [] then []
    else IterationSteps(s, p, envs[0]) + LoopSteps(Iteration(s, p, envs[0]), PhaseAfter(s, p, envs[0]), envs[1..])
  }

  function RunFrom(s: State, steps: seq<Step>): State
    decreases |steps|
  {
    if steps == [] then s else RunFrom(Next(s, steps[0]), steps[1..])
  }

  lemma {:induction false} RunFromAppend(s: State, xs: seq<Step>, ys: seq<Step>)
    ensures RunFrom(s, xs + ys) == RunFrom(RunFrom(s, xs), ys)
    decreases |xs|
  {
    hide HcdRuns.Next;
    if xs == [] {
      assert [] + ys == ys;
    } else {
      assert (xs + ys)[1..] == xs[1..] + ys;
      RunFromAppend(Next(s, xs[0]), xs[1..], ys);
    }
  }

  lemma {:induction false} LinksAreRun(s: State, reqs: seq<LinkReq>)
    ensures RunFrom(s, LinkSteps(reqs)) == Links(s, reqs)
    decreases |reqs|
  {
    hide HcdRuns.Next;
    if reqs != [] {
      assert LinkSteps(reqs)[1..] == LinkSteps(reqs[1..]);
      LinksAreRun(Next(s, LinkStep(reqs[0])), reqs[1..]);
    }
  }

  lemma {:induction false} OneStep(s: State, step: Step)
    ensures RunFrom(s, [step]) == Next(s, step)
  {
    hide HcdRuns.Next;
    assert [step][1..] == [];
  }

  lemma {:induction false} IterationIsRun(s: State, p: Phase, env: Env)
    ensures RunFrom(s, IterationSteps(s, p, env)) == Iteration(s, p, env)
  {
    hide HcdRuns.Next, Links, LinkSteps, RunFrom;
    LinksAreRun(s, env.before);
    var s1 := Links(s, env.before);
    if Asleep(s, env) {
      assert LinkSteps(env.before) + [] == LinkSteps(env.before);
    } else {
      match AttemptOf(p)
      case Sending(kind) =>
        var steps := [CaptureStep(kind)] + LinkSteps(env.during) + [SendStep(env.reply)];
        RunFromAppend(s, LinkSteps(env.before), steps);
        RunFromAppend(s1, [CaptureStep(kind)] + LinkSteps(env.during), [SendStep(env.reply)]);
        RunFromAppend(s1, [CaptureStep(kind)], LinkSteps(env.during));
        OneStep(s1, CaptureStep(kind));
        LinksAreRun(Next(s1, CaptureStep(kind)), env.during);
        OneStep(Links(Next(s1, CaptureStep(kind)), env.during), SendStep(env.reply));
      case Finishing =>
        RunFromAppend(s, LinkSteps(env.before), [DoneStep] + LinkSteps(env.during));
        RunFromAppend(s1, [DoneStep], LinkSteps(env.during));
        OneStep(s1, DoneStep);
        LinksAreRun(Next(s1, DoneStep), env.during);
    }
  }

  /** The loop among linking threads is one of the interleavings of module HcdRuns, so every law of those holds of it. */
  lemma {:induction false} LoopIsRun(s: State, p: Phase, envs: seq<Env>)
    ensures RunFrom(s, LoopSteps(s, p, envs)) == Loop(s, p, envs)
    decreases |envs|
  {
    hide Iteration, IterationSteps, PhaseAfter, RunFrom;
    if envs == [] {
      assert RunFrom(s, []) == s by { EmptyRun(s); }
    } else {
      var s1, p1 := Iteration(s, p, envs[0]), PhaseAfter(s, p, envs[0]);
      IterationIsRun(s, p, envs[0]);
      RunFromAppend(s, IterationSteps(s, p, envs[0]), LoopSteps(s1, p1, envs[1..]));
      LoopIsRun(s1, p1, envs[1..]);
    }
  }

  lemma {:induction false} EmptyRun(s: State)
    ensures RunFrom(s, []) == s
  {
  }

  lemma {:induction false} RunFromInit(steps: seq<Step>)
    ensures RunFrom(Init(), steps) == HcdRuns.Run(steps)
  {
    hide HcdRuns.Next;
    if steps != [] {
      var steps0, step := steps[..|steps| - 1], steps[|steps| - 1];
      RunFromInit(steps0);
      RunFromAppend(Init(), steps0, [step]);
      OneStep(HcdRuns.Run(steps0), step);
      assert steps0 + [step] == steps;
    }
  }

  // ---------- the service ratio ----------

  /** The attempt a step of the controller thread begins. */
  predicate Begins(step: Step, a: Attempt) {
    match a
    case Sending(kind) => step == CaptureStep(kind)
    case Finishing => step.DoneStep?
  }

  function One(p: Phase, a: Attempt): nat {
    if AttemptOf(p) == a then 1 else 0
  }

  /** How many attempts of a kind the steps begin, counting only steps that are taken. */
  function Taken(s: State, steps: seq<Step>, a: Attempt): nat
    decreases |steps|
  {
    if steps == [] then 0
    else (if Begins(steps[0], a) && Enabled(s, steps[0]) then 1 else 0) + Taken(Next(s, steps[0]), steps[1..], a)
  }

  /** The iterations in which hcd_wait_for_event did not block. */
  function Unblocked(s: State, p: Phase, envs: seq<Env>): nat
    decreases |envs|
  {
    if envs == [] then 0
    else (if Asleep(s, envs[0]) then 0 else 1) + Unblocked(Iteration(s, p, envs[0]), PhaseAfter(s, p, envs[0]), envs[1..])
  }

  lemma {:induction false} TakenAppend(s: State, xs: seq<Step>, ys: seq<Step>, a: Attempt)
    ensures Taken(s, xs + ys, a) == Taken(s, xs, a) + Taken(RunFrom(s, xs), ys, a)
    decreases |xs|
  {
    hide HcdRuns.Next, Enabled;
    if xs == [] {
      assert [] + ys == ys;
    } else {
      assert (xs + ys)[1..] == xs[1..] + ys;
      TakenAppend(Next(s, xs[0]), xs[1..], ys, a);
    }
  }

  lemma {:induction false} LinksTakeNothing(s: State, reqs: seq<LinkReq>, a: Attempt)
    ensures Taken(s, LinkSteps(reqs), a) == 0
    ensures Links(s, reqs).thread == s.thread
    decreases |reqs|
  {
    if reqs != [] {
      assert LinkSteps(reqs)[1..] == LinkSteps(reqs[1..]);
      LinksTakeNothing(Next(s, LinkStep(reqs[0])), reqs[1..], a);
    }
  }

  lemma {:induction false} TakenOne(s: State, step: Step, a: Attempt)
    ensures Taken(s, [step], a) == if Begins(step, a) && Enabled(s, step) then 1 else 0
  {
    hide HcdRuns.Next, Enabled;
    assert [step][1..] == [];
  }

  /** An iteration that does not block begins the attempt of its phase, and no other. */
  lemma {:induction false} IterationTakes(s: State, p: Phase, env: Env, a: Attempt)
    requires s.thread.Ready? && DeviceAnswers(s, p, [env])
    ensures Iteration(s, p, env).thread.Ready?
    ensures Taken(s, IterationSteps(s, p, env), a) == if Asleep(s, env) then 0 else One(p, a)
  {
    hide Links, LinkSteps, Taken, RunFrom, Send, SendAllowed;
    LinksAreRun(s, env.before);
    LinksTakeNothing(s, env.before, a);
    var s1 := Links(s, env.before);
    if Asleep(s, env) {
      assert LinkSteps(env.before) + [] == LinkSteps(env.before);
    } else {
      match AttemptOf(p)
      case Sending(kind) =>
        var s2 := Next(s1, CaptureStep(kind));
        var steps := [CaptureStep(kind)] + LinkSteps(env.during) + [SendStep(env.reply)];
        TakenAppend(s, LinkSteps(env.before), steps, a);
        TakenAppend(s1, [CaptureStep(kind)] + LinkSteps(env.during), [SendStep(env.reply)], a);
        TakenAppend(s1, [CaptureStep(kind)], LinkSteps(env.during), a);
        TakenOne(s1, CaptureStep(kind), a);
        OneStep(s1, CaptureStep(kind));
        LinksTakeNothing(s2, env.during, a);
        LinksAreRun(s2, env.during);
        RunFromAppend(s1, [CaptureStep(kind)], LinkSteps(env.during));
        TakenOne(Links(s2, env.during), SendStep(env.reply), a);
      case Finishing =>
        var s2 := Next(s1, DoneStep);
        TakenAppend(s, LinkSteps(env.before), [DoneStep] + LinkSteps(env.during), a);
        TakenAppend(s1, [DoneStep], LinkSteps(env.during), a);
        TakenOne(s1, DoneStep, a);
        OneStep(s1, DoneStep);
        LinksTakeNothing(s2, env.during, a);
    }
  }

  /** How many of n unblocked iterations make the given attempt. */
  function Attempts(p: Phase, n: nat, a: Attempt): nat
    decreases n
  {
    if n == 0 then 0 else One(p, a) + Attempts(After(p), n - 1, a)
  }

  lemma {:induction false} LoopTakes(s: State, p: Phase, envs: seq<Env>, a: Attempt)
    requires s.thread.Ready? && DeviceAnswers(s, p, envs)
    ensures Taken(s, LoopSteps(s, p, envs), a) == Attempts(p, Unblocked(s, p, envs), a)
    decreases |envs|
  {
    hide Iteration, IterationSteps, Taken, Asleep, Capture, After, One;
    if envs == [] {
      assert Taken(s, [], a) == 0 by { NothingTaken(s, a); }
    } else {
      var s1, p1 := Iteration(s, p, envs[0]), PhaseAfter(s, p, envs[0]);
      assert DeviceAnswers(s, p, [envs[0]]) by { assert [envs[0]][1..] == []; }
      IterationTakes(s, p, envs[0], a);
      IterationIsRun(s, p, envs[0]);
      TakenAppend(s, IterationSteps(s, p, envs[0]), LoopSteps(s1, p1, envs[1..]), a);
      LoopTakes(s1, p1, envs[1..], a);
    }
  }

  lemma {:induction false} NothingTaken(s: State, a: Attempt)
    ensures Taken(s, [], a) == 0
  {
  }

  /** The 4:1 service ratio: wherever the loop stands and whatever is linked meanwhile, iterations of which 6k did not block
      begin exactly 4k control attempts, k bulk attempts and k done-list steps. */
  lemma {:induction false} ServiceRatio(s: State, p: Phase, envs: seq<Env>, k: nat)
    requires s.thread.Ready? && DeviceAnswers(s, p, envs) && Unblocked(s, p, envs) == 6 * k
    ensures
      var steps := LoopSteps(s, p, envs);
      && RunFrom(s, steps) == Loop(s, p, envs)
      && Taken(s, steps, Sending(Control)) == 4 * k
      && Taken(s, steps, Sending(Bulk)) == k
      && Taken(s, steps, Finishing) == k
  {
    hide LoopSteps, Loop, DeviceAnswers, Unblocked, Taken, RunFrom;
    LoopIsRun(s, p, envs);
    LoopTakes(s, p, envs, Sending(Control));
    LoopTakes(s, p, envs, Sending(Bulk));
    LoopTakes(s, p, envs, Finishing);
    Ratio(p, k);
  }

  lemma {:induction false} Ratio(p: Phase, k: nat)
    ensures Attempts(p, 6 * k, Sending(Control)) == 4 * k
    ensures Attempts(p, 6 * k, Sending(Bulk)) == k
    ensures Attempts(p, 6 * k, Finishing) == k
  {
    if k > 0 {
      Ratio(p, k - 1);
      SixAttempts(p, 6 * (k - 1), Sending(Control));
      SixAttempts(p, 6 * (k - 1), Sending(Bulk));
      SixAttempts(p, 6 * (k - 1), Finishing);
    }
  }

  lemma {:induction false} SixAttempts(p: Phase, n: nat, a: Attempt)
    ensures Attempts(p, n + 6, a) == Attempts(p, n, a) +
            (match a case Sending(k) => (if k.Control? then 4 else 1) case Finishing => 1)
  {
    hide Attempts;
    var p1 := After(p);
    var p2 := After(p1);
    var p3 := After(p2);
    var p4 := After(p3);
    var p5 := After(p4);
    NextAttempt(p, n + 5, a);
    NextAttempt(p1, n + 4, a);
    NextAttempt(p2, n + 3, a);
    NextAttempt(p3, n + 2, a);
    NextAttempt(p4, n + 1, a);
    NextAttempt(p5, n, a);
  }

  lemma {:induction false} NextAttempt(p: Phase, n: nat, a: Attempt)
    ensures Attempts(p, n + 1, a) == One(p, a) + Attempts(After(p), n, a)
  {
  }

  // ---------- bulk work is served ----------

  function BulkAnswers(log: seq<Event>): nat {
    if log == [] then 0
    else
      var ev := log[|log| - 1];
      BulkAnswers(log[..|log| - 1]) + (if ev.Answered? && ev.kind.Bulk? then 1 else 0)
  }

  predicate BulkPending(s: State) {
    HasEligible(s.h.bulk) && s.h.notify & NOTIFY_BULK != 0
  }

  lemma {:induction false} AnswersGrow(log: seq<Event>, ev: Event)
    ensures BulkAnswers(log + [ev]) == BulkAnswers(log) + (if ev.Answered? && ev.kind.Bulk? then 1 else 0)
  {
    assert (log + [ev])[..|log|] == log;
  }

  lemma {:induction false} LinkKeepsPending(s: State, req: LinkReq)
    requires BulkPending(s)
    ensures var s' := Next(s, LinkStep(req));
      BulkPending(s') && s'.thread == s.thread && BulkAnswers(s'.log) == BulkAnswers(s.log)
  {
    hide BulkAnswers, LinkInto, LinkAllowed;
    if LinkAllowed(s.h, req) {
      SetBit(s.h.notify, Mask(KindOf(req)));
      AnswersGrow(s.log, Linked(KindOf(req), req.addr, req.ep % 16, req.mps, NewTd(s.h.nextId, req)));
      LinkKeepsEligible(s.h.bulk, req.addr, req.ep % 16, req.mps, NewTd(s.h.nextId, req));
    }
  }

  lemma {:induction false} LinksKeepPending(s: State, reqs: seq<LinkReq>)
    requires BulkPending(s)
    ensures var s' := Links(s, reqs);
      BulkPending(s') && s'.thread == s.thread && BulkAnswers(s'.log) == BulkAnswers(s.log)
    decreases |reqs|
  {
    hide BulkPending, BulkAnswers, HcdRuns.Next;
    if reqs != [] {
      LinkKeepsPending(s, reqs[0]);
      LinksKeepPending(Next(s, LinkStep(reqs[0])), reqs[1..]);
    }
  }

  /** A control attempt or a done-list step leaves the pending bulk work pending; a bulk attempt sends a packet for it. */
  lemma {:induction false} PendingStep(s: State, r: Reply)
    requires BulkPending(s) && s.thread.Captured? && Enabled(s, SendStep(r))
    requires s.thread.kind.Bulk? ==> s.thread.headSeen
    ensures
      var s' := Next(s, SendStep(r));
      && s'.thread.Ready?
      && (s.thread.kind.Control? ==> BulkPending(s') && BulkAnswers(s'.log) == BulkAnswers(s.log))
      && (s.thread.kind.Bulk? ==> BulkAnswers(s'.log) == BulkAnswers(s.log) + 1)
  {
    hide Absorb, PacketOf, SetupAssertion, EpdOk, BulkAnswers;
    var kind, l := s.thread.kind, ListOf(s.h, s.thread.kind);
    var i := Selected(s.h, kind, s.thread.headSeen);
    ClearBit(s.h.notify, NOTIFY_CONTROL);
    SetBit(s.h.notify, NOTIFY_DONE);
    if i < |l| {
      AnswersGrow(s.log, HcdRuns.Answered(kind, l[i].addr, l[i].ep, r));
    } else {
      assert s.log + [] == s.log;
    }
  }

  lemma {:induction false} DoneKeepsPending(s: State)
    requires BulkPending(s)
    ensures var s' := Next(s, DoneStep);
      BulkPending(s') && s'.thread == s.thread && BulkAnswers(s'.log) == BulkAnswers(s.log)
  {
    ClearBit(s.h.notify, NOTIFY_DONE);
  }

  /** Iterations before the next bulk attempt. */
  function Distance(p: Phase): nat {
    match p
    case Control0 => 4
    case Control1 => 3
    case Control2 => 2
    case Control3 => 1
    case BulkPhase => 0
    case DonePhase => 5
  }

  lemma {:induction false} PendingIteration(s: State, p: Phase, env: Env)
    requires BulkPending(s) && s.thread.Ready? && DeviceAnswers(s, p, [env])
    ensures !Asleep(s, env)
    ensures
      var s' := Iteration(s, p, env);
      && s'.thread.Ready?
      && (p != BulkPhase ==> BulkPending(s') && BulkAnswers(s'.log) == BulkAnswers(s.log))
      && (p == BulkPhase ==> BulkAnswers(s'.log) == BulkAnswers(s.log) + 1)
  {
    hide BulkAnswers, Links, HasEligible;
    LinksKeepPending(s, env.before);
    var s1 := Links(s, env.before);
    assert s1.h.notify != 0;
    match AttemptOf(p)
    case Sending(kind) =>
      var s2 := Next(s1, CaptureStep(kind));
      assert BulkPending(s2);
      assert kind.Bulk? ==> s2.thread.headSeen by { BulkListExists(s1); }
      LinksKeepPending(s2, env.during);
      var s3 := Links(s2, env.during);
      assert s3 == Capture(s, p, env);
      assert Enabled(s3, SendStep(env.reply));
      PendingStep(s3, env.reply);
    case Finishing =>
      DoneKeepsPending(s1);
      LinksKeepPending(Next(s1, DoneStep), env.during);
  }

  lemma {:induction false} BulkListExists(s: State)
    requires HasEligible(s.h.bulk)
    ensures s.h.bulk != []
  {
  }

  /** Bulk work whose notification bit is set is sent a packet within six iterations of the loop, whatever control TDs
      are linked meanwhile and whatever the device answers; the loop does not block before. */
  lemma {:induction false} BulkServed(s: State, p: Phase, envs: seq<Env>)
    requires BulkPending(s) && s.thread.Ready? && DeviceAnswers(s, p, envs)
    requires |envs| == Distance(p) + 1
    ensures Distance(p) + 1 <= 6
    ensures BulkAnswers(Loop(s, p, envs).log) == BulkAnswers(s.log) + 1
    decreases |envs|
  {
    hide BulkPending, BulkAnswers, Iteration, Asleep, Capture;
    assert DeviceAnswers(s, p, [envs[0]]) by { assert [envs[0]][1..] == []; }
    PendingIteration(s, p, envs[0]);
    if p != BulkPhase {
      BulkServed(Iteration(s, p, envs[0]), After(p), envs[1..]);
    } else {
      assert envs[1..] == [];
    }
  }
}
