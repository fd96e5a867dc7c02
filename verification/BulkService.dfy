/** An endpoint of the bulk list is served within a bound once the replies to the earlier ones make progress. */
module BulkService {
  import opened UsbTypes
  import opened HcdModel
  import opened EpdWork
  import opened HcdRuns
  import opened HcdLoop
  import opened BulkOrder

  function QueueWork(q: seq<Td>): nat {
    if q == [] then 0 else Budget(q[0]) + QueueWork(q[1..])
  }

  /** Packets an endpoint can still need: what the head TD has left, and the budgets of the others. */
  function WorkOf(e: Epd): nat {
    if e.queue == [] then 0
    else (if TdOk(e.queue[0]) then Measure(e.queue[0]) else Budget(e.queue[0])) + QueueWork(e.queue[1..])
  }

  function ListWork(l: seq<Epd>): nat {
    if l == [] then 0 else ListWork(l[..|l| - 1]) + WorkOf(l[|l| - 1])
  }

  lemma {:induction false} WorkUpdate(l: seq<Epd>, i: nat, e: Epd)
    requires i < |l|
    ensures ListWork(l[i := e]) == ListWork(l) - WorkOf(l[i]) + WorkOf(e)
  {
    if i == |l| - 1 {
      assert l[i := e][..|l| - 1] == l[..|l| - 1];
    } else {
      WorkUpdate(l[..|l| - 1], i, e);
      assert l[i := e][..|l| - 1] == l[..|l| - 1][i := e];
    }
  }

  /** A reply that counts takes work away. */
  lemma {:induction false} ReplyWorks(e: Epd, r: Reply)
    requires EpdOk(e) && e.queue != [] && ReplyFits(PacketOf(e), r) && e.mps >= 1 && Counts(Exchange(PacketOf(e), r))
    ensures WorkOf(Absorb(e, r).epd) < WorkOf(e)
  {
    hide Absorb, QueueWork;
    ReplyProgress(e, r);
    ReplyQueue(e, r);
    NotEmptyMove(e, r);
    var q := e.queue[1..];
    if q != [] {
      HeadBudget(q);
    }
  }

  lemma {:induction false} NotEmptyMove(e: Epd, r: Reply)
    requires EpdOk(e) && e.queue != [] && ReplyFits(PacketOf(e), r) && Counts(Exchange(PacketOf(e), r))
    ensures !r.Nak? && !r.Invalid? && !(r.Ack? && r.rlen == 0 && !e.queue[0].pid.In?)
  {
  }

  lemma {:induction false} HeadBudget(q: seq<Td>)
    requires q != []
    ensures QueueWork(q) == Budget(q[0]) + QueueWork(q[1..])
    ensures TdOk(q[0]) ==> Measure(q[0]) <= Budget(q[0])
  {
  }

  lemma {:induction false} ReplyQueue(e: Epd, r: Reply)
    requires EpdOk(e) && e.queue != [] && ReplyFits(PacketOf(e), r)
    ensures
      var o := Absorb(e, r);
      if o.retired.Some? then o.epd.queue == e.queue[1..]
      else o.epd.queue != [] && o.epd.queue[1..] == e.queue[1..] && TdOk(o.epd.queue[0])
  {
    AbsorbKeepsOk(e, r);
  }

  /** Each reply to a packet of an endpoint before j counts. */
  predicate Moving(s: State, p: Phase, envs: seq<Env>, j: nat)
    decreases |envs|
  {
    envs == [] ||
    (&& (p == BulkPhase && !Asleep(s, envs[0]) ==> MovesNow(Capture(s, p, envs[0]).h.bulk, envs[0].reply, j))
     && Moving(Iteration(s, p, envs[0]), PhaseAfter(s, p, envs[0]), envs[1..], j))
  }

  predicate MovesNow(l: seq<Epd>, r: Reply, j: nat) {
    var i := FirstEligible(l, 0);
    i < j && i < |l| && EpdOk(l[i]) ==> Counts(Exchange(PacketOf(l[i]), r))
  }

  /** Endpoint j has work, and the ones before it are l. */
  predicate WaitsAt(s: State, l: seq<Epd>, j: nat, addr: nat, ep: nat) {
    && j == |l| < |s.h.bulk| && StartsWith(s, l) && Eligible(s.h.bulk[j]) && s.h.bulk[j].addr == addr && s.h.bulk[j].ep == ep
    && s.thread.Ready? && s.h.notify & NOTIFY_BULK != 0 && BasicInv(s)
    && forall i :: 0 <= i < |l| ==> l[i].mps >= 1
  }

  lemma {:induction false} WaitingPends(s: State, l: seq<Epd>, j: nat, addr: nat, ep: nat)
    requires WaitsAt(s, l, j, addr, ep)
    ensures BulkPending(s) && BasicInv(s) && s.thread.Ready? && StartsWith(s, l)
  {
  }

  // links to j itself keep it eligible

  lemma {:induction false} LinkKeepsWaiting(s: State, j: nat, addr: nat, ep: nat, req: LinkReq)
    requires HasWork(s, j, addr, ep)
    ensures HasWork(HcdRuns.Next(s, LinkStep(req)), j, addr, ep)
  {
    var i := FindFrom(s.h.bulk, req.addr, req.ep % 16, 0);
  }

  predicate HasWork(s: State, j: nat, addr: nat, ep: nat) {
    j < |s.h.bulk| && Eligible(s.h.bulk[j]) && s.h.bulk[j].addr == addr && s.h.bulk[j].ep == ep
  }

  lemma {:induction false} LinksKeepWaiting(s: State, j: nat, addr: nat, ep: nat, reqs: seq<LinkReq>)
    requires HasWork(s, j, addr, ep)
    ensures HasWork(Links(s, reqs), j, addr, ep)
    decreases |reqs|
  {
    hide HasWork, HcdRuns.Next;
    if reqs != [] {
      LinkKeepsWaiting(s, j, addr, ep, reqs[0]);
      LinksKeepWaiting(HcdRuns.Next(s, LinkStep(reqs[0])), j, addr, ep, reqs[1..]);
    }
  }

  lemma {:induction false} OtherKeepsWork(s: State, p: Phase, env: Env, j: nat, addr: nat, ep: nat)
    requires HasWork(s, j, addr, ep) && p != BulkPhase && s.thread.Ready? && DeviceAnswers(s, p, [env])
    ensures HasWork(Iteration(s, p, env), j, addr, ep)
  {
    hide Links, HasWork, Send, SendAllowed;
    LinksKeepWaiting(s, j, addr, ep, env.before);
    var s1 := Links(s, env.before);
    if !Asleep(s, env) {
      match AttemptOf(p)
      case Sending(kind) =>
        var s2 := HcdRuns.Next(s1, CaptureStep(kind));
        SameWork(s1, s2, j, addr, ep);
        LinksKeepWaiting(s2, j, addr, ep, env.during);
        var s3 := Links(s2, env.during);
        LinksTakeNothing(s, env.before, Finishing);
        LinksTakeNothing(s2, env.during, Finishing);
        ControlSendBulk(s3, env.reply);
        SameWork(s3, HcdRuns.Next(s3, SendStep(env.reply)), j, addr, ep);
      case Finishing =>
        var s2 := HcdRuns.Next(s1, DoneStep);
        SameWork(s1, s2, j, addr, ep);
        LinksKeepWaiting(s2, j, addr, ep, env.during);
    }
  }

  lemma {:induction false} SameWork(s: State, s': State, j: nat, addr: nat, ep: nat)
    requires HasWork(s, j, addr, ep) && s'.h.bulk == s.h.bulk
    ensures HasWork(s', j, addr, ep)
  {
  }

  lemma {:induction false} ControlSendBulk(s: State, r: Reply)
    requires s.thread.Captured? && s.thread.kind.Control?
    ensures HcdRuns.Next(s, SendStep(r)).h.bulk == s.h.bulk
  {
    hide Absorb, PacketOf, SetupAssertion, EpdOk;
  }

  /** An iteration with another attempt: endpoint j still waits, behind the same work. */
  lemma {:induction false} WaitOther(s: State, p: Phase, env: Env, l: seq<Epd>, j: nat, addr: nat, ep: nat)
    requires WaitsAt(s, l, j, addr, ep) && p != BulkPhase && DeviceAnswers(s, p, [env])
    requires AllElsewhere(l, env.before) && AllElsewhere(l, env.during)
    ensures WaitsAt(Iteration(s, p, env), l, j, addr, ep) && !Asleep(s, env)
    ensures AnswersTo(Iteration(s, p, env).log, addr, ep) == AnswersTo(s.log, addr, ep)
  {
    hide BasicInv, Iteration, Asleep, AnswersTo, AllElsewhere, Eligible, DeviceAnswers;
    WaitingPends(s, l, j, addr, ep);
    OtherIteration(s, p, env, l, addr, ep);
    OtherKeepsWork(s, p, env, j, addr, ep);
    IterationBasic(s, p, env);
    PendingBit(Iteration(s, p, env));
  }

  /** A bulk attempt: endpoint j is served, or an earlier one is and there is less work before j. */
  lemma {:induction false} WaitBulk(s: State, env: Env, l: seq<Epd>, j: nat, addr: nat, ep: nat) returns (l': seq<Epd>)
    requires WaitsAt(s, l, j, addr, ep) && DeviceAnswers(s, BulkPhase, [env])
    requires AllElsewhere(l, env.before) && AllElsewhere(l, env.during)
    requires MovesNow(Capture(s, BulkPhase, env).h.bulk, env.reply, j)
    ensures !Asleep(s, env)
    ensures
      var s' := Iteration(s, BulkPhase, env);
      || AnswersTo(s'.log, addr, ep) == AnswersTo(s.log, addr, ep) + 1
      || (WaitsAt(s', l', j, addr, ep) && ListWork(l') < ListWork(l) && SameKeys(l, l') && |l'| == |l|
          && AnswersTo(s'.log, addr, ep) == AnswersTo(s.log, addr, ep))
  {
    hide BasicInv, Iteration, Asleep, AnswersTo, AllElsewhere, DeviceAnswers, Capture, Absorb, PacketOf, EpdOk,
      ListWork, BulkPending;
    WaitingPends(s, l, j, addr, ep);
    PendingAwake(s, env);
    AttemptServesFirst(s, env);
    CaptureBehind(s, env, l);
    CaptureWork(s, env, j, addr, ep);
    CaptureBasic(s, env);
    CaptureAnswersNothing(s, env, addr, ep);
    IterationBasic(s, BulkPhase, env);
    var b := Capture(s, BulkPhase, env).h.bulk;
    var i := FirstEligible(b, 0);
    AnswersToGrow(Capture(s, BulkPhase, env).log, HcdRuns.Answered(Bulk, b[i].addr, b[i].ep, env.reply), addr, ep);
    DistinctKeys(b, i, j);
    l' := l;
    if i < j {
      var e := Absorb(b[i], env.reply).epd;
      l' := l[i := e];
      assert l[i] == b[i];
      ReplyWorks(b[i], env.reply);
      WorkUpdate(l, i, e);
      AbsorbKey(b[i], env.reply);
    }
  }

  lemma {:induction false} AbsorbKey(e: Epd, r: Reply)
    requires EpdOk(e) && e.queue != [] && ReplyFits(PacketOf(e), r)
    ensures var e' := Absorb(e, r).epd; e'.addr == e.addr && e'.ep == e.ep && e'.mps == e.mps
  {
  }

  lemma {:induction false} CaptureWork(s: State, env: Env, j: nat, addr: nat, ep: nat)
    requires HasWork(s, j, addr, ep)
    ensures HasWork(Capture(s, BulkPhase, env), j, addr, ep)
  {
    hide HasWork, Links;
    LinksKeepWaiting(s, j, addr, ep, env.before);
    var s1 := Links(s, env.before);
    var s2 := HcdRuns.Next(s1, CaptureStep(Bulk));
    SameWork(s1, s2, j, addr, ep);
    LinksKeepWaiting(s2, j, addr, ep, env.during);
  }

  // answers are never taken back

  lemma {:induction false} AnswersKept(s: State, steps: seq<Step>, addr: nat, ep: nat)
    ensures AnswersTo(RunFrom(s, steps).log, addr, ep) >= AnswersTo(s.log, addr, ep)
    decreases |steps|
  {
    hide HcdRuns.Next, AnswersTo;
    if steps != [] {
      StepKeepsAnswers(s, steps[0], addr, ep);
      AnswersKept(HcdRuns.Next(s, steps[0]), steps[1..], addr, ep);
    }
  }

  lemma {:induction false} StepKeepsAnswers(s: State, step: Step, addr: nat, ep: nat)
    ensures AnswersTo(HcdRuns.Next(s, step).log, addr, ep) >= AnswersTo(s.log, addr, ep)
  {
    hide AnswersTo, Send, SendAllowed, Link, LinkAllowed;
    var s' := HcdRuns.Next(s, step);
    if s'.log != s.log {
      StepLog(s, step);
      AnswersToGrow(s.log, s'.log[|s.log|], addr, ep);
    }
  }

  lemma {:induction false} StepLog(s: State, step: Step)
    requires HcdRuns.Next(s, step).log != s.log
    ensures var log' := HcdRuns.Next(s, step).log; |log'| == |s.log| + 1 && log' == s.log + [log'[|s.log|]]
  {
    hide Send, SendAllowed, Link, LinkAllowed;
    assert s.log + [] == s.log;
  }

  /** Endpoint j is served within 6 * (W + 1) iterations, W being the work the endpoints before it have left, as long as
      their replies make progress and nothing more is linked to them. */
  lemma {:induction false} ServedWithin(s: State, p: Phase, envs: seq<Env>, l: seq<Epd>, j: nat, addr: nat, ep: nat)
    requires WaitsAt(s, l, j, addr, ep) && DeviceAnswers(s, p, envs) && Moving(s, p, envs, j) && EnvsElsewhere(l, envs)
    requires |envs| >= 6 * ListWork(l) + Distance(p) + 1
    ensures Distance(p) <= 5
    ensures AnswersTo(Loop(s, p, envs).log, addr, ep) > AnswersTo(s.log, addr, ep)
    decreases |envs|
  {
    hide WaitsAt, Iteration, Asleep, AnswersTo, AllElsewhere, Capture, ListWork, MovesNow;
    var env := envs[0];
    assert DeviceAnswers(s, p, [env]) by { assert [env][1..] == []; }
    var s1, p1 := Iteration(s, p, env), PhaseAfter(s, p, env);
    if p == BulkPhase {
      WaitingPends(s, l, j, addr, ep);
      PendingAwake(s, env);
      var l1 := WaitBulk(s, env, l, j, addr, ep);
      if AnswersTo(s1.log, addr, ep) == AnswersTo(s.log, addr, ep) + 1 {
        LoopIsRun(s1, p1, envs[1..]);
        AnswersKept(s1, LoopSteps(s1, p1, envs[1..]), addr, ep);
      } else {
        forall k | 0 <= k < |envs| - 1
          ensures AllElsewhere(l1, envs[1..][k].before) && AllElsewhere(l1, envs[1..][k].during)
        {
          ElsewhereByKeys(l, l1, envs[k + 1].before);
          ElsewhereByKeys(l, l1, envs[k + 1].during);
        }
        ServedWithin(s1, p1, envs[1..], l1, j, addr, ep);
      }
    } else {
      WaitOther(s, p, env, l, j, addr, ep);
      ServedWithin(s1, p1, envs[1..], l, j, addr, ep);
    }
  }
}
