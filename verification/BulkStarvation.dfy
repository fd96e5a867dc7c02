/** An endpoint of the bulk list that keeps answering NAK starves the ones behind it. */
module BulkStarvation {
  import opened UsbTypes
  import opened HcdModel
  import opened HcdRuns
  import opened HcdLoop
  import opened BulkOrder

  // ---------- starvation ----------

  /** Endpoint i is served before endpoint j, which has work and is still e. */
  predicate Behind(s: State, i: nat, j: nat, e: Epd) {
    && i < j < |s.h.bulk| && Chosen(s.h.bulk, i) && s.h.bulk[j] == e && s.thread.Ready?
    && s.h.notify & NOTIFY_BULK != 0
  }

  lemma {:induction false} BehindPending(s: State, i: nat, j: nat, e: Epd)
    requires Behind(s, i, j, e)
    ensures BulkPending(s)
  {
  }

  /** A NAK leaves everything as it is, except that the first endpoint has been asked once more. */
  lemma {:induction false} NakIteration(s: State, p: Phase, env: Env, i: nat, j: nat, e: Epd)
    requires Behind(s, i, j, e) && DeviceAnswers(s, p, [env]) && env.reply.Nak? && BasicInv(s)
    requires AllElsewhere(s.h.bulk[..j + 1], env.before) && AllElsewhere(s.h.bulk[..j + 1], env.during)
    ensures
      var s' := Iteration(s, p, env);
      && Behind(s', i, j, e) && BasicInv(s') && SameKeys(s.h.bulk, s'.h.bulk) && !Asleep(s, env)
      && AnswersTo(s'.log, e.addr, e.ep) == AnswersTo(s.log, e.addr, e.ep)
  {
    hide BasicInv, Iteration, Asleep, Capture, AllElsewhere, AnswersTo, BulkPending;
    var l := s.h.bulk[..j + 1];
    BehindPending(s, i, j, e);
    IterationBasic(s, p, env);
    IterationKeys(s, p, env);
    if p == BulkPhase {
      NakAttempt(s, env, i, j, e);
    } else {
      OtherIteration(s, p, env, l, e.addr, e.ep);
      var b := Iteration(s, p, env).h.bulk;
      assert forall k :: 0 <= k <= j ==> b[k] == l[k] == s.h.bulk[k];
      PendingBit(Iteration(s, p, env));
    }
    PendingAwake(s, env);
  }

  lemma {:induction false} IterationKeys(s: State, p: Phase, env: Env)
    requires BasicInv(s)
    ensures SameKeys(s.h.bulk, Iteration(s, p, env).h.bulk)
  {
    hide BasicInv, Iteration, IterationSteps, RunFrom;
    IterationIsRun(s, p, env);
    RunFromKeys(s, IterationSteps(s, p, env));
  }

  lemma {:induction false} RunFromKeys(s: State, steps: seq<Step>)
    requires BasicInv(s)
    ensures SameKeys(s.h.bulk, RunFrom(s, steps).h.bulk)
    decreases |steps|
  {
    hide HcdRuns.Next;
    if steps != [] {
      NextKeepsBasic(s, steps[0]);
      ListsExtend(s, steps[0]);
      RunFromKeys(HcdRuns.Next(s, steps[0]), steps[1..]);
    }
  }

  lemma {:induction false} NakAttempt(s: State, env: Env, i: nat, j: nat, e: Epd)
    requires Behind(s, i, j, e) && DeviceAnswers(s, BulkPhase, [env]) && env.reply.Nak? && BasicInv(s)
    requires AllElsewhere(s.h.bulk[..j + 1], env.before) && AllElsewhere(s.h.bulk[..j + 1], env.during)
    ensures
      var s' := Iteration(s, BulkPhase, env);
      && Behind(s', i, j, e)
      && AnswersTo(s'.log, e.addr, e.ep) == AnswersTo(s.log, e.addr, e.ep)
  {
    hide BasicInv, Iteration, DeviceAnswers, Capture, AllElsewhere, AnswersTo, PacketOf, EpdOk;
    var l := s.h.bulk[..j + 1];
    AttemptServesFirst(s, env);
    CaptureBehind(s, env, l);
    var b := Capture(s, BulkPhase, env).h.bulk;
    assert forall k :: 0 <= k <= j ==> b[k] == l[k] == s.h.bulk[k];
    ChosenIsFirst(b, i);
    CaptureBasic(s, env);
    DistinctKeys(b, i, j);
    CaptureAnswersNothing(s, env, e.addr, e.ep);
    AnswersToGrow(Capture(s, BulkPhase, env).log, HcdRuns.Answered(Bulk, b[i].addr, b[i].ep, Nak), e.addr, e.ep);
    NakKeepsEligible(b[i]);
  }

  lemma {:induction false} NakKeepsEligible(e: Epd)
    requires EpdOk(e) && e.queue != []
    ensures
      var e' := Absorb(e, Nak).epd;
      && (Eligible(e') <==> Eligible(e)) && |e'.queue| == |e.queue| && e'.queue[0].pid == e.queue[0].pid
      && e'.queue[0].pos == e.queue[0].pos && |e'.queue[0].buffer| == |e.queue[0].buffer|
  {
  }

  /** While an earlier endpoint keeps answering NAK, endpoint j gets no packet, however long the loop runs and whatever is
      linked for other endpoints. */
  lemma {:induction false} NakStarves(s: State, p: Phase, envs: seq<Env>, i: nat, j: nat, e: Epd)
    requires Behind(s, i, j, e) && BasicInv(s) && DeviceAnswers(s, p, envs)
    requires EnvsElsewhere(s.h.bulk[..j + 1], envs) && forall k :: 0 <= k < |envs| ==> envs[k].reply.Nak?
    ensures
      var s' := Loop(s, p, envs);
      Behind(s', i, j, e) && AnswersTo(s'.log, e.addr, e.ep) == AnswersTo(s.log, e.addr, e.ep)
    decreases |envs|
  {
    hide Behind, BasicInv, Iteration, Asleep, Capture, AllElsewhere, AnswersTo;
    if envs != [] {
      assert DeviceAnswers(s, p, [envs[0]]) by { assert [envs[0]][1..] == []; }
      assert j < |s.h.bulk| by { BehindIndex(s, i, j, e); }
      NakIteration(s, p, envs[0], i, j, e);
      var s1 := Iteration(s, p, envs[0]);
      var l, l1 := s.h.bulk[..j + 1], s1.h.bulk[..j + 1];
      forall k | 0 <= k < |envs| - 1
        ensures AllElsewhere(l1, envs[1..][k].before) && AllElsewhere(l1, envs[1..][k].during)
      {
        ElsewhereByKeys(l, l1, envs[k + 1].before);
        ElsewhereByKeys(l, l1, envs[k + 1].during);
      }
      NakStarves(s1, PhaseAfter(s, p, envs[0]), envs[1..], i, j, e);
    }
  }

  lemma {:induction false} BehindIndex(s: State, i: nat, j: nat, e: Epd)
    requires Behind(s, i, j, e)
    ensures j < |s.h.bulk|
  {
  }

  // ---------- the starving run ----------

  const NAK: Env := Env([], [], Nak)

  /** The host reads the keys of endpoint 1 ... */
  function KeyLink(): LinkReq {
    LinkReq(1, 1, true, false, 2, 10, [0], Outer(0), 1)
  }

  /** ... and has a byte to send on endpoint 2. */
  function TextLink(): LinkReq {
    LinkReq(1, 2, false, false, 2, 10, [65], Outer(1), 1)
  }

  function Naks(n: nat): seq<Env>
    decreases n
  {
    if n == 0 then [] else [NAK] + Naks(n - 1)
  }

  /** Endpoint 1 waits for a key, endpoint 2 behind it; nothing else is there. */
  predicate TwoWaiting(s: State) {
    && BasicInv(s) && s.h.control == [] && |s.h.bulk| == 2 && s.h.bulk[0].queue != [] && s.h.bulk[0].queue[0].pid.In?
    && Behind(s, 0, 1, TextEpd())
  }

  function TextEpd(): Epd {
    Enqueue(NewEpd(1, 2, 10), NewTd(1, TextLink()))
  }

  lemma {:induction false} TwoLinked()
    ensures
      var s := Links(Init(), [KeyLink(), TextLink()]);
      TwoWaiting(s) && AnswersTo(s.log, 1, 2) == 0
  {
    var s1 := HcdRuns.Next(Init(), LinkStep(KeyLink()));
    var e1 := Enqueue(NewEpd(1, 1, 10), NewTd(0, KeyLink()));
    assert s1.h.bulk == [e1];
    var s2 := HcdRuns.Next(s1, LinkStep(TextLink()));
    assert FindFrom([e1], 1, 2, 0) == 1;
    assert s2.h.bulk == [e1, TextEpd()];
    LinkPair(Init(), KeyLink(), TextLink());
    assert Links(Init(), [KeyLink(), TextLink()]) == s2;
    NextKeepsBasic(Init(), LinkStep(KeyLink()));
    NextKeepsBasic(s1, LinkStep(TextLink()));
    LinksAnswerNothing(Init(), [KeyLink(), TextLink()], 1, 2);
    SetBit(0, NOTIFY_BULK);
    SetBit(s1.h.notify, NOTIFY_BULK);
  }

  lemma {:induction false} LinkPair(s: State, a: LinkReq, b: LinkReq)
    ensures Links(s, [a, b]) == HcdRuns.Next(HcdRuns.Next(s, LinkStep(a)), LinkStep(b))
  {
    hide HcdRuns.Next;
    assert [a, b][1..] == [b] && [b][1..] == [];
    var s1 := HcdRuns.Next(s, LinkStep(a));
    assert Links(s, [a, b]) == Links(s1, [b]);
    assert Links(s1, [b]) == Links(HcdRuns.Next(s1, LinkStep(b)), []);
  }

  lemma {:induction false} NakAllowed(s: State, p: Phase)
    requires TwoWaiting(s)
    ensures DeviceAnswers(s, p, [NAK])
    ensures TwoWaiting(Iteration(s, p, NAK)) && AnswersTo(Iteration(s, p, NAK).log, 1, 2) == AnswersTo(s.log, 1, 2)
  {
    NakEnabled(s, p);
    assert AllElsewhere(s.h.bulk[..2], []);
    NakIteration(s, p, NAK, 0, 1, TextEpd());
    NakShape(s, p);
  }

  lemma {:induction false} NakEnabled(s: State, p: Phase)
    requires TwoWaiting(s)
    ensures DeviceAnswers(s, p, [NAK])
  {
    hide PacketOf;
    assert [NAK][1..] == [];
    ChosenIsFirst(s.h.bulk, 0);
  }

  lemma {:induction false} NakShape(s: State, p: Phase)
    requires TwoWaiting(s)
    ensures
      var s' := Iteration(s, p, NAK);
      s'.h.control == [] && |s'.h.bulk| == 2 && s'.h.bulk[0].queue != [] && s'.h.bulk[0].queue[0].pid.In?
  {
    hide Absorb, PacketOf;
    NakKeepsEligible(s.h.bulk[0]);
    ChosenIsFirst(s.h.bulk, 0);
  }

  lemma {:induction false} KeepsWaiting(s: State, p: Phase, n: nat)
    requires TwoWaiting(s)
    ensures DeviceAnswers(s, p, Naks(n))
    ensures TwoWaiting(Loop(s, p, Naks(n))) && AnswersTo(Loop(s, p, Naks(n)).log, 1, 2) == AnswersTo(s.log, 1, 2)
    decreases n
  {
    hide TwoWaiting, Iteration, Asleep, Capture, AnswersTo;
    if n > 0 {
      assert Naks(n)[0] == NAK && Naks(n)[1..] == Naks(n - 1);
      assert [NAK][1..] == [];
      NakAllowed(s, p);
      KeepsWaiting(Iteration(s, p, NAK), PhaseAfter(s, p, NAK), n - 1);
    }
  }

  /** From the start: an IN TD on endpoint 1 that is answered NAK, as the firmware does until a key is pressed, and a byte
      for endpoint 2. However long the loop runs, endpoint 2 gets no packet; its TD stays eligible and untouched. */
  lemma {:induction false} StarvedForEver(n: nat)
    ensures
      var envs := [Env([KeyLink(), TextLink()], [], Nak)] + Naks(n);
      && DeviceAnswers(Init(), Control0, envs)
      && var s := Loop(Init(), Control0, envs);
         |s.h.bulk| == 2 && s.h.bulk[1] == TextEpd() && Eligible(s.h.bulk[1]) && AnswersTo(s.log, 1, 2) == 0
  {
    hide TwoWaiting, AnswersTo, Iteration, Asleep, Capture, DeviceAnswers;
    var first := Env([KeyLink(), TextLink()], [], Nak);
    var envs := [first] + Naks(n);
    assert envs[1..] == Naks(n) && envs[0] == first;
    TwoLinked();
    var s0 := Links(Init(), first.before);
    SameFirst(first);
    NakAllowed(s0, Control0);
    var s1 := Iteration(Init(), Control0, first);
    KeepsWaiting(s1, PhaseAfter(Init(), Control0, first), n);
    FirstThenRest(Init(), Control0, envs);
    WaitingShape(Loop(Init(), Control0, envs));
  }

  lemma {:induction false} WaitingShape(s: State)
    requires TwoWaiting(s)
    ensures |s.h.bulk| == 2 && s.h.bulk[1] == TextEpd() && Eligible(s.h.bulk[1])
  {
  }

  /** An iteration that begins with links is one that begins after them. */
  lemma {:induction false} SameFirst(env: Env)
    requires env.during == [] && env.reply.Nak?
    ensures Iteration(Links(Init(), env.before), Control0, NAK) == Iteration(Init(), Control0, env)
    ensures DeviceAnswers(Links(Init(), env.before), Control0, [NAK]) ==> DeviceAnswers(Init(), Control0, [env])
  {
    hide HcdRuns.Next;
    assert [NAK][1..] == [] && [env][1..] == [];
  }

  lemma {:induction false} FirstThenRest(s: State, p: Phase, envs: seq<Env>)
    requires envs != []
    ensures Loop(s, p, envs) == Loop(Iteration(s, p, envs[0]), PhaseAfter(s, p, envs[0]), envs[1..])
    ensures DeviceAnswers(s, p, [envs[0]]) && DeviceAnswers(Iteration(s, p, envs[0]), PhaseAfter(s, p, envs[0]), envs[1..]) ==>
      DeviceAnswers(s, p, envs)
  {
    hide Iteration, Asleep, Capture;
    assert [envs[0]][1..] == [];
  }
}
