/** The stale NULL head in hcd_loop: the schedule that puts the loop to sleep on a linked bulk TD. */
module LostWakeUp {
  import opened UsbTypes
  import opened HcdModel
  import opened ControlStages
  import opened HcdRuns
  import opened HcdLoop

  /** Some list holds work the loop has to do. */
  predicate PendingWork(h: Hcd) {
    HasEligible(h.control) || HasEligible(h.bulk) || h.done != []
  }

  /** Without a stale send the loop never sleeps on pending work. */
  lemma {:induction false} NeverAsleepOnWork(steps: seq<Step>)
    requires NoStaleSend(steps) && PendingWork(Run(steps).h)
    ensures Run(steps).h.notify != 0
  {
    hide HasEligible, HcdRuns.Run, StaleSend;
    NoLostWakeUp(steps);
    NonZero(Run(steps).h.notify);
  }

  lemma {:induction false} NonZero(n: bv8)
    ensures n & NOTIFY_CONTROL != 0 || n & NOTIFY_BULK != 0 || n & NOTIFY_DONE != 0 ==> n != 0
  {
  }

  /** A sleeping loop stays asleep until a TD is linked. */
  lemma {:induction false} SleepsUntilLinked(s: State, p: Phase, envs: seq<Env>)
    requires s.h.notify == 0 && forall i :: 0 <= i < |envs| ==> envs[i].before == []
    ensures Loop(s, p, envs) == s
    decreases |envs|
  {
    if envs != [] {
      SleepsUntilLinked(s, p, envs[1..]);
    }
  }

  // ---------- the schedule ----------

  const IDLE: Env := Env([], [], Nak)

  /** A SET_CONFIGURATION transfer: a SETUP and a status stage. */
  const SETUP: seq<byte> := [0, 9, 1, 0, 0, 0, 0, 0]

  function Request(st: Stage): LinkReq {
    StageLinkOf(1, 0, 64, SETUP, [], 0, st)
  }

  function Answer(st: Stage): Reply {
    if st.SetupStage? then Ack(8, []) else Ack(0, [])
  }

  function BulkLink(): LinkReq {
    LinkReq(1, 2, false, false, 2, 64, [0], Outer(1), 1)
  }

  function Idle(n: nat): seq<Env>
    decreases n
  {
    if n == 0 then [] else [IDLE] + Idle(n - 1)
  }

  /** A stage is linked and acknowledged in the first of six iterations, and completed in the last. */
  function StageTurn(st: Stage): seq<Env> {
    [Env([Request(st)], [], Answer(st))] + Idle(5)
  }

  function Stale(): Env {
    Env([], [BulkLink()], Nak)
  }

  /** A whole control transfer, then a bulk TD that is linked after the loop has read the NULL head of the bulk list. */
  function Schedule(): seq<Env> {
    StageTurn(SetupStage) + (StageTurn(StatusStage) + (Idle(4) + ([Stale()] + [IDLE])))
  }

  predicate NoWork(s: State) {
    s.thread.Ready? && HcdOk(s.h) && !HasEligible(s.h.control) && s.h.bulk == []
  }

  lemma {:induction false} NoneFirst(l: seq<Epd>)
    requires !HasEligible(l)
    ensures FirstEligible(l, 0) == |l|
  {
    forall i | 0 <= i < |l| ensures !Eligible(l[i]) {
      assert !(0 <= i < |l| && Eligible(l[i]));
    }
  }

  /** With only the DONE bit set and nothing to send, a sending iteration changes nothing. */
  lemma {:induction false} IdleSend(s: State, p: Phase)
    requires NoWork(s) && s.h.notify == NOTIFY_DONE && AttemptOf(p).Sending?
    ensures Iteration(s, p, IDLE) == s && DeviceAnswers(s, p, [IDLE]) && PhaseAfter(s, p, IDLE) == After(p)
  {
    NoneFirst(s.h.control);
    assert s.log + [] == s.log;
    assert [IDLE][1..] == [];
  }

  lemma {:induction false} Unroll(s: State, p: Phase, env: Env, rest: seq<Env>)
    ensures Loop(s, p, [env] + rest) == Loop(Iteration(s, p, env), PhaseAfter(s, p, env), rest)
    ensures DeviceAnswers(s, p, [env] + rest) <==>
            DeviceAnswers(s, p, [env]) && DeviceAnswers(Iteration(s, p, env), PhaseAfter(s, p, env), rest)
  {
    hide Iteration, Asleep, Capture;
    assert ([env] + rest)[1..] == rest;
    assert [env][1..] == [];
  }

  function Ahead(p: Phase, n: nat): Phase
    decreases n
  {
    if n == 0 then p else Ahead(After(p), n - 1)
  }

  lemma {:induction false} IdleRun(s: State, p: Phase, n: nat, rest: seq<Env>)
    requires NoWork(s) && s.h.notify == NOTIFY_DONE && n <= ToDone(p)
    ensures Loop(s, p, Idle(n) + rest) == Loop(s, Ahead(p, n), rest)
    ensures DeviceAnswers(s, Ahead(p, n), rest) ==> DeviceAnswers(s, p, Idle(n) + rest)
    decreases n
  {
    hide Iteration, Loop, DeviceAnswers, PhaseAfter, NoWork;
    if n == 0 {
      assert Idle(0) + rest == rest;
    } else {
      IdleSend(s, p);
      assert Idle(n) + rest == [IDLE] + (Idle(n - 1) + rest);
      Unroll(s, p, IDLE, Idle(n - 1) + rest);
      IdleRun(s, After(p), n - 1, rest);
    }
  }

  // ---------- one stage ----------

  /** The control endpoint between two stages. */
  predicate Rested(e: Epd) {
    EpdOk(e) && e.addr == 1 && e.ep == 0 && e.mps == 64 && e.queue == [] && !e.skip && !e.halted
  }

  predicate Between(s: State) {
    && NoWork(s) && (s.h.notify == 0 || s.h.notify == NOTIFY_DONE) && s.h.done == []
    && (s.h.control == [] || (|s.h.control| == 1 && Rested(s.h.control[0])))
  }

  /** The packet of the stage is acknowledged whole: its TD retires. */
  lemma {:induction false} StageAcked(e0: Epd, id: nat, st: Stage)
    requires Rested(e0) && !st.DataStage?
    ensures
      var e := Enqueue(e0, NewTd(id, Request(st)));
      && EpdOk(e) && Eligible(e) && SetupAssertion(e) && ReplyFits(PacketOf(e), Answer(st))
      && var o := Absorb(e, Answer(st));
         o.retired.Some? && Rested(o.epd) && o.retired.value.td.urb == Inner(0, st)
  {
    var e := Enqueue(e0, NewTd(id, Request(st)));
    assert |SETUP| == 8 && e.queue == [NewTd(id, Request(st))] && e.queue[1..] == [];
    AbsorbKeepsOk(e, Answer(st));
  }

  lemma {:induction false} StageLinked(s: State, st: Stage)
    requires Between(s) && !st.DataStage?
    ensures
      var e0 := if s.h.control == [] then NewEpd(1, 0, 64) else s.h.control[0];
      var s1 := HcdRuns.Next(s, LinkStep(Request(st)));
      && Rested(e0) && s1.thread == s.thread && s1.completed == s.completed
      && s1.h == s.h.(control := [Enqueue(e0, NewTd(s.h.nextId, Request(st)))], notify := s.h.notify | NOTIFY_CONTROL,
                      nextId := s.h.nextId + 1)
  {
    hide EpdOk;
    if s.h.control != [] {
      assert FindFrom(s.h.control, 1, 0, 0) == 0;
    }
    assert EpdOk(NewEpd(1, 0, 64)) by { FreshOk(); }
  }

  lemma {:induction false} FreshOk()
    ensures EpdOk(NewEpd(1, 0, 64))
  {
  }

  /** The first iteration of a stage: its TD goes to the done list. */
  lemma {:induction false} StageSent(s: State, st: Stage) returns (td: Td)
    requires Between(s) && !st.DataStage?
    ensures
      var env := Env([Request(st)], [], Answer(st));
      var s' := Iteration(s, Control0, env);
      && DeviceAnswers(s, Control0, [env]) && PhaseAfter(s, Control0, env) == Control1
      && NoWork(s') && s'.h.done == [td] && td.urb == Inner(0, st) && s'.h.notify == NOTIFY_CONTROL | NOTIFY_DONE
      && s'.completed == s.completed && |s'.h.control| == 1 && Rested(s'.h.control[0])
  {
    hide Absorb, PacketOf, Link, EpdOk, SetupAssertion, Eligible, Request, Answer;
    var env := Env([Request(st)], [], Answer(st));
    assert [env][1..] == [];
    StageLinked(s, st);
    var e0 := if s.h.control == [] then NewEpd(1, 0, 64) else s.h.control[0];
    var e := Enqueue(e0, NewTd(s.h.nextId, Request(st)));
    StageAcked(e0, s.h.nextId, st);
    var s1 := HcdRuns.Next(s, LinkStep(Request(st)));
    LinkOnce(s, Request(st));
    var s2 := Capture(s, Control0, env);
    assert s2 == s1.(thread := Captured(Control, true));
    assert FirstEligible(s2.h.control, 0) == 0;
    var o := Absorb(e, Answer(st));
    td := o.retired.value.td;
    RestedIdle(o.epd);
    assert Iteration(s, Control0, env) == HcdRuns.Next(s2, SendStep(Answer(st)));
    assert s2.h.done == [] && [td] + [] == [td];
    Bits(s.h.notify);
    var s' := Iteration(s, Control0, env);
    assert s'.h.control == [o.epd];
    assert s'.h.done == [td];
    assert HcdOk(s'.h);
    assert NoWork(s');
  }

  lemma {:induction false} Bits(n: bv8)
    requires n == 0 || n == NOTIFY_DONE
    ensures (n | NOTIFY_CONTROL) != 0 && (n | NOTIFY_CONTROL) | NOTIFY_DONE == NOTIFY_CONTROL | NOTIFY_DONE
  {
  }

  lemma {:induction false} LinkOnce(s: State, req: LinkReq)
    ensures Links(s, [req]) == HcdRuns.Next(s, LinkStep(req))
  {
    hide HcdRuns.Next;
    assert [req][1..] == [];
    assert Links(HcdRuns.Next(s, LinkStep(req)), []) == HcdRuns.Next(s, LinkStep(req));
  }

  lemma {:induction false} RestedIdle(e: Epd)
    requires Rested(e)
    ensures !HasEligible([e]) && AllOk([e])
  {
  }

  /** The next control attempt finds nothing and clears the CONTROL bit. */
  lemma {:induction false} ClearsControl(s: State)
    requires NoWork(s) && s.h.notify == NOTIFY_CONTROL | NOTIFY_DONE
    ensures Iteration(s, Control1, IDLE) == s.(h := s.h.(notify := NOTIFY_DONE)) && DeviceAnswers(s, Control1, [IDLE])
    ensures PhaseAfter(s, Control1, IDLE) == Control2
  {
    NoneFirst(s.h.control);
    assert s.log + [] == s.log;
    assert [IDLE][1..] == [];
  }

  /** The done-list step completes the TD; the DONE bit stays. */
  lemma {:induction false} CompletesOne(s: State, td: Td)
    requires NoWork(s) && s.h.notify == NOTIFY_DONE && s.h.done == [td]
    ensures Iteration(s, DonePhase, IDLE) == s.(h := s.h.(done := []), completed := s.completed + [Complete(td)])
    ensures DeviceAnswers(s, DonePhase, [IDLE]) && PhaseAfter(s, DonePhase, IDLE) == Control0
  {
    assert [IDLE][1..] == [];
  }

  /** The bulk attempt with the link between reading the list head and taking the lock: the new bit is cleared. */
  lemma {:induction false} StaleIteration(s: State, env: Env)
    requires NoWork(s) && s.h.notify == NOTIFY_DONE && env == Env([], [BulkLink()], Nak)
    ensures
      var s' := Iteration(s, BulkPhase, env);
      HasEligible(s'.h.bulk) && s'.h.notify == NOTIFY_DONE && s'.h.done == s.h.done && s'.thread.Ready?
      && s'.completed == s.completed
    ensures DeviceAnswers(s, BulkPhase, [env]) && PhaseAfter(s, BulkPhase, env) == DonePhase
  {
    assert [env][1..] == [];
    assert [BulkLink()][1..] == [];
    var s1 := HcdRuns.Next(s, CaptureStep(Bulk));
    assert s1 == s.(thread := Captured(Bulk, false));
    var s2 := HcdRuns.Next(s1, LinkStep(BulkLink()));
    assert Capture(s, BulkPhase, env) == s2;
    LinkKeepsOk(s.h, BulkLink());
    LinkKeepsEligible(s.h.bulk, 1, 2, 64, NewTd(s.h.nextId, BulkLink()));
    assert (NOTIFY_DONE | NOTIFY_BULK) & !NOTIFY_BULK == NOTIFY_DONE;
  }

  lemma {:induction false} ClearsDone(s: State)
    requires s.thread.Ready? && s.h.notify == NOTIFY_DONE && s.h.done == []
    ensures Iteration(s, DonePhase, IDLE) == s.(h := s.h.(notify := 0)) && DeviceAnswers(s, DonePhase, [IDLE])
    ensures PhaseAfter(s, DonePhase, IDLE) == Control0
  {
    assert [IDLE][1..] == [];
    assert s.completed + [] == s.completed;
  }

  /** One stage, from its link to its completion. */
  lemma {:induction false} StageRound(s: State, st: Stage, rest: seq<Env>) returns (s': State, c: Completion)
    requires Between(s) && !st.DataStage?
    ensures Between(s') && s'.h.notify == NOTIFY_DONE && s'.completed == s.completed + [c] && c.td.urb == Inner(0, st)
    ensures Loop(s, Control0, StageTurn(st) + rest) == Loop(s', Control0, rest)
    ensures DeviceAnswers(s', Control0, rest) ==> DeviceAnswers(s, Control0, StageTurn(st) + rest)
  {
    hide Iteration, Loop, DeviceAnswers, PhaseAfter, NoWork, HasEligible, Idle, Request, Rested;
    var env := Env([Request(st)], [], Answer(st));
    var td := StageSent(s, st);
    var s1 := Iteration(s, Control0, env);
    ClearsControl(s1);
    var s2 := s1.(h := s1.h.(notify := NOTIFY_DONE));
    assert NoWork(s2) by { SameWork(s1, NOTIFY_DONE, s1.h.done, s1.completed); }
    CompletesOne(s2, td);
    c := Complete(td);
    s' := s2.(h := s2.h.(done := []), completed := s2.completed + [c]);
    assert NoWork(s') by { SameWork(s1, NOTIFY_DONE, [], s'.completed); }
    Unroll(s2, DonePhase, IDLE, rest);
    IdleRun(s2, Control2, 3, [IDLE] + rest);
    assert Ahead(Control2, 3) == DonePhase;
    Unroll(s1, Control1, IDLE, Idle(3) + ([IDLE] + rest));
    Unroll(s, Control0, env, [IDLE] + (Idle(3) + ([IDLE] + rest)));
    TurnShape(st, rest);
  }

  lemma {:induction false} TurnShape(st: Stage, rest: seq<Env>)
    ensures StageTurn(st) + rest ==
            [Env([Request(st)], [], Answer(st))] + ([IDLE] + (Idle(3) + ([IDLE] + rest)))
  {
    IdleSplit(1, 4);
    IdleSplit(3, 1);
    assert Idle(1) == [IDLE] by { assert Idle(0) == []; }
  }

  /** A whole control transfer is carried out and completed; then the loop goes to sleep with a bulk TD linked and not one
      packet sent for it: the NULL head was read before the list existed, so clearing the notification also cleared the
      bit the link had just set. */
  lemma {:induction false} SleepsOnWork()
    ensures DeviceAnswers(Init(), Control0, Schedule())
    ensures
      var s := Loop(Init(), Control0, Schedule());
      && HasEligible(s.h.bulk) && s.h.notify == 0
      && |s.completed| == 2 && s.completed[0].td.urb == Inner(0, SetupStage) && s.completed[1].td.urb == Inner(0, StatusStage)
      && forall envs: seq<Env> :: (forall i :: 0 <= i < |envs| ==> envs[i].before == []) ==> Loop(s, Control0, envs) == s
  {
    hide Iteration, Loop, DeviceAnswers, PhaseAfter, HasEligible, Idle, StageTurn, BulkLink, Rested;
    var tail := [Stale()] + [IDLE];
    assert Between(Init()) by { StartBetween(); }
    var s1, c1 := StageRound(Init(), SetupStage, StageTurn(StatusStage) + (Idle(4) + tail));
    var s3, c2 := StageRound(s1, StatusStage, Idle(4) + tail);
    assert s3.completed == [] + [c1] + [c2];
    StaleIteration(s3, Stale());
    var s4 := Iteration(s3, BulkPhase, Stale());
    ClearsDone(s4);
    var s5 := s4.(h := s4.h.(notify := 0));
    assert Loop(s5, Control0, []) == s5 && DeviceAnswers(s5, Control0, []) by { Ends(s5); }
    Unroll(s4, DonePhase, IDLE, []);
    assert [IDLE] + [] == [IDLE];
    Unroll(s3, BulkPhase, Stale(), [IDLE]);
    IdleRun(s3, Control0, 4, tail);
    assert Ahead(Control0, 4) == BulkPhase;
    forall envs: seq<Env> | forall i :: 0 <= i < |envs| ==> envs[i].before == [] ensures Loop(s5, Control0, envs) == s5 {
      SleepsUntilLinked(s5, Control0, envs);
    }
  }

  lemma {:induction false} StartBetween()
    ensures Between(Init())
  {
  }

  lemma {:induction false} SameWork(s: State, notify: bv8, done: seq<Td>, completed: seq<Completion>)
    requires NoWork(s)
    ensures NoWork(s.(h := s.h.(notify := notify, done := done), completed := completed))
  {
  }

  lemma {:induction false} Ends(s: State)
    ensures Loop(s, Control0, []) == s && DeviceAnswers(s, Control0, [])
  {
  }

  lemma {:induction false} IdleSplit(m: nat, n: nat)
    ensures Idle(m + n) == Idle(m) + Idle(n)
    decreases m
  {
    if m > 0 {
      IdleSplit(m - 1, n);
      assert Idle(m + n) == [IDLE] + Idle(m - 1 + n);
      assert Idle(m) == [IDLE] + Idle(m - 1);
      assert [IDLE] + (Idle(m - 1) + Idle(n)) == ([IDLE] + Idle(m - 1)) + Idle(n);
    } else {
      assert [] + Idle(n) == Idle(n);
    }
  }
}
