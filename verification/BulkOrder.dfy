/** Which bulk endpoint the loop serves: hcd_gtd_send starts at the list head every time, so an endpoint gets a packet
    exactly when it can be served and no earlier one can. */
module BulkOrder {
  import opened UsbTypes
  import opened HcdModel
  import opened HcdRuns
  import opened HcdLoop

  /** The packets answered for one bulk endpoint. */
  function AnswersTo(log: seq<Event>, addr: nat, ep: nat): nat {
    if log == [] then 0
    else AnswersTo(log[..|log| - 1], addr, ep) + (if IsAnswerTo(log[|log| - 1], addr, ep) then 1 else 0)
  }

  predicate IsAnswerTo(ev: Event, addr: nat, ep: nat) {
    ev.Answered? && ev.kind.Bulk? && ev.addr == addr && ev.ep == ep
  }

  lemma {:induction false} AnswersToGrow(log: seq<Event>, ev: Event, addr: nat, ep: nat)
    ensures AnswersTo(log + [ev], addr, ep) == AnswersTo(log, addr, ep) + (if IsAnswerTo(ev, addr, ep) then 1 else 0)
  {
    assert (log + [ev])[..|log|] == log;
  }

  /** Endpoint descriptor j is the one hcd_gtd_send picks. */
  predicate Chosen(l: seq<Epd>, j: nat) {
    j < |l| && Eligible(l[j]) && forall i :: 0 <= i < j ==> !Eligible(l[i])
  }

  lemma {:induction false} ChosenIsFirst(l: seq<Epd>, j: nat)
    requires j < |l|
    ensures Chosen(l, j) <==> FirstEligible(l, 0) == j
  {
  }

  // ---------- what leaves the endpoints up to j alone ----------

  /** A link that is not for one of these endpoint descriptors. */
  predicate LinksElsewhere(l: seq<Epd>, req: LinkReq) {
    KindOf(req).Control? || forall i :: 0 <= i < |l| ==> !(l[i].addr == req.addr && l[i].ep == req.ep % 16)
  }

  predicate AllElsewhere(l: seq<Epd>, reqs: seq<LinkReq>) {
    forall i :: 0 <= i < |reqs| ==> LinksElsewhere(l, reqs[i])
  }

  predicate EnvsElsewhere(l: seq<Epd>, envs: seq<Env>) {
    forall i :: 0 <= i < |envs| ==> AllElsewhere(l, envs[i].before) && AllElsewhere(l, envs[i].during)
  }

  /** The bulk list begins with these endpoint descriptors. */
  predicate StartsWith(s: State, l: seq<Epd>) {
    l <= s.h.bulk
  }

  lemma {:induction false} LinkBehind(s: State, l: seq<Epd>, req: LinkReq)
    requires StartsWith(s, l) && LinksElsewhere(l, req)
    ensures StartsWith(HcdRuns.Next(s, LinkStep(req)), l)
  {
    if KindOf(req).Bulk? {
      forall i | 0 <= i < |l| ensures !(s.h.bulk[i].addr == req.addr && s.h.bulk[i].ep == req.ep % 16) {
        assert s.h.bulk[i] == l[i];
      }
    }
  }

  lemma {:induction false} LinksBehind(s: State, l: seq<Epd>, reqs: seq<LinkReq>)
    requires StartsWith(s, l) && AllElsewhere(l, reqs)
    ensures StartsWith(Links(s, reqs), l)
    decreases |reqs|
  {
    hide StartsWith, HcdRuns.Next, LinksElsewhere;
    if reqs != [] {
      LinkBehind(s, l, reqs[0]);
      LinksBehind(HcdRuns.Next(s, LinkStep(reqs[0])), l, reqs[1..]);
    }
  }

  /** Links answer nothing. */
  lemma {:induction false} LinksAnswerNothing(s: State, reqs: seq<LinkReq>, addr: nat, ep: nat)
    ensures AnswersTo(Links(s, reqs).log, addr, ep) == AnswersTo(s.log, addr, ep)
    decreases |reqs|
  {
    hide AnswersTo, Link, LinkAllowed;
    if reqs != [] {
      if LinkAllowed(s.h, reqs[0]) {
        AnswersToGrow(s.log, DoLink(s, reqs[0]).log[|s.log|], addr, ep);
        assert DoLink(s, reqs[0]).log == s.log + [DoLink(s, reqs[0]).log[|s.log|]];
      }
      LinksAnswerNothing(HcdRuns.Next(s, LinkStep(reqs[0])), reqs[1..], addr, ep);
    }
  }

  // ---------- one iteration ----------

  /** The loop before the attempt of an iteration takes the lock. */
  lemma {:induction false} BulkAttempt(s: State, env: Env)
    requires BulkPending(s) && s.thread.Ready? && DeviceAnswers(s, BulkPhase, [env])
    ensures
      var s3 := Capture(s, BulkPhase, env);
      && Enabled(s3, SendStep(env.reply)) && s3.thread == Captured(Bulk, true)
      && FirstEligible(s3.h.bulk, 0) < |s3.h.bulk| && HcdOk(s3.h) && s3.h.notify & NOTIFY_BULK != 0
      && Iteration(s, BulkPhase, env) == DoSend(s3, env.reply)
  {
    hide Links, HasEligible, Send;
    LinksKeepPending(s, env.before);
    var s1 := Links(s, env.before);
    NotAsleep(s1);
    var s2 := HcdRuns.Next(s1, CaptureStep(Bulk));
    assert s2.thread == Captured(Bulk, true) by { BulkListExists(s1); }
    LinksKeepPending(s2, env.during);
    SomeEligible(Links(s2, env.during).h.bulk);
  }

  lemma {:induction false} NotAsleep(s: State)
    requires BulkPending(s)
    ensures s.h.notify != 0
  {
  }

  lemma {:induction false} SomeEligible(l: seq<Epd>)
    requires HasEligible(l)
    ensures FirstEligible(l, 0) < |l|
  {
  }

  /** The packet of a bulk attempt goes to the first endpoint that can be served, and its reply changes that one only. */
  lemma {:induction false} AttemptServesFirst(s: State, env: Env)
    requires BulkPending(s) && s.thread.Ready? && DeviceAnswers(s, BulkPhase, [env])
    ensures
      var l := Capture(s, BulkPhase, env).h.bulk;
      var i := FirstEligible(l, 0);
      && i < |l| && EpdOk(l[i]) && SetupAssertion(l[i]) && ReplyFits(PacketOf(l[i]), env.reply)
      && var s' := Iteration(s, BulkPhase, env);
         && s'.h.bulk == l[i := Absorb(l[i], env.reply).epd] && s'.thread.Ready?
         && s'.log == Capture(s, BulkPhase, env).log + [HcdRuns.Answered(Bulk, l[i].addr, l[i].ep, env.reply)]
         && s'.h.notify & NOTIFY_BULK != 0
  {
    hide Absorb, PacketOf, Capture, EpdOk, Iteration;
    BulkAttempt(s, env);
    SetBit(Capture(s, BulkPhase, env).h.notify, NOTIFY_DONE);
    DoneBit(Capture(s, BulkPhase, env).h.notify);
  }

  lemma {:induction false} DoneBit(n: bv8)
    ensures (n | NOTIFY_DONE) & NOTIFY_BULK == n & NOTIFY_BULK
  {
  }

  /** An iteration with another attempt changes nothing at the head of the bulk list and answers no bulk packet. */
  lemma {:induction false} OtherIteration(s: State, p: Phase, env: Env, l: seq<Epd>, addr: nat, ep: nat)
    requires BulkPending(s) && s.thread.Ready? && DeviceAnswers(s, p, [env]) && p != BulkPhase
    requires StartsWith(s, l) && AllElsewhere(l, env.before) && AllElsewhere(l, env.during)
    ensures
      var s' := Iteration(s, p, env);
      && !Asleep(s, env) && s'.thread.Ready? && BulkPending(s') && StartsWith(s', l)
      && AnswersTo(s'.log, addr, ep) == AnswersTo(s.log, addr, ep)
  {
    hide AnswersTo, Links, HasEligible, Send, StartsWith, AllElsewhere, BulkPending;
    PendingIteration(s, p, env);
    LinksKeepPending(s, env.before);
    LinksBehind(s, l, env.before);
    LinksAnswerNothing(s, env.before, addr, ep);
    var s1 := Links(s, env.before);
    match AttemptOf(p)
    case Sending(kind) =>
      var s2 := HcdRuns.Next(s1, CaptureStep(kind));
      assert StartsWith(s2, l) by { SameBulk(s1, s2, l); }
      CapturedReady(s1, kind);
      LinksBehind(s2, l, env.during);
      LinksAnswerNothing(s2, env.during, addr, ep);
      LinksTakeNothing(s2, env.during, Finishing);
      ControlSend(Links(s2, env.during), env.reply, l, addr, ep);
    case Finishing =>
      var s2 := HcdRuns.Next(s1, DoneStep);
      assert StartsWith(s2, l) by { SameBulk(s1, s2, l); }
      LinksBehind(s2, l, env.during);
      LinksAnswerNothing(s2, env.during, addr, ep);
  }

  lemma {:induction false} SameBulk(s: State, s': State, l: seq<Epd>)
    requires StartsWith(s, l) && s'.h.bulk == s.h.bulk
    ensures StartsWith(s', l)
  {
  }

  lemma {:induction false} CapturedReady(s: State, kind: ListKind)
    requires s.thread.Ready? && s.h.notify != 0
    ensures HcdRuns.Next(s, CaptureStep(kind)) == s.(thread := Captured(kind, ListOf(s.h, kind) != []))
  {
  }

  lemma {:induction false} ControlSend(s: State, r: Reply, l: seq<Epd>, addr: nat, ep: nat)
    requires s.thread.Captured? && s.thread.kind.Control? && Enabled(s, SendStep(r)) && StartsWith(s, l)
    ensures var s' := HcdRuns.Next(s, SendStep(r));
      StartsWith(s', l) && AnswersTo(s'.log, addr, ep) == AnswersTo(s.log, addr, ep)
  {
    hide Absorb, PacketOf, SetupAssertion, EpdOk, AnswersTo;
    var c := s.h.control;
    var i := Selected(s.h, Control, s.thread.headSeen);
    if i < |c| {
      AnswersToGrow(s.log, HcdRuns.Answered(Control, c[i].addr, c[i].ep, r), addr, ep);
    } else {
      assert s.log + [] == s.log;
    }
  }

  // ---------- which endpoint the next bulk attempt serves ----------

  lemma {:induction false} RunFromBasic(s: State, steps: seq<Step>)
    requires BasicInv(s)
    ensures BasicInv(RunFrom(s, steps))
    decreases |steps|
  {
    hide BasicInv, HcdRuns.Next;
    if steps != [] {
      NextKeepsBasic(s, steps[0]);
      RunFromBasic(HcdRuns.Next(s, steps[0]), steps[1..]);
    }
  }

  lemma {:induction false} IterationBasic(s: State, p: Phase, env: Env)
    requires BasicInv(s)
    ensures BasicInv(Iteration(s, p, env))
  {
    hide BasicInv, Iteration, IterationSteps, RunFrom;
    IterationIsRun(s, p, env);
    RunFromBasic(s, IterationSteps(s, p, env));
  }

  /** The iterations up to the next bulk attempt, without it. */
  function AtAttempt(s: State, p: Phase, envs: seq<Env>): State
    requires |envs| == Distance(p) + 1
  {
    Loop(s, p, envs[..Distance(p)])
  }

  lemma {:induction false} ReachAttempt(s: State, p: Phase, envs: seq<Env>, l: seq<Epd>)
    requires BulkPending(s) && s.thread.Ready? && BasicInv(s) && |envs| == Distance(p) + 1 && DeviceAnswers(s, p, envs)
    requires StartsWith(s, l) && EnvsElsewhere(l, envs)
    ensures
      var s0 := AtAttempt(s, p, envs);
      && BulkPending(s0) && s0.thread.Ready? && BasicInv(s0) && StartsWith(s0, l)
      && DeviceAnswers(s0, BulkPhase, [envs[Distance(p)]])
      && Loop(s, p, envs) == Iteration(s0, BulkPhase, envs[Distance(p)])
    decreases |envs|
  {
    hide BulkPending, BasicInv, StartsWith, Iteration, Asleep, Capture, AllElsewhere;
    if p == BulkPhase {
      assert envs[..0] == [] && envs[1..] == [] && envs == [envs[0]];
      LoopOne(s, p, envs[0]);
    } else {
      assert DeviceAnswers(s, p, [envs[0]]) by { assert [envs[0]][1..] == []; }
      OtherIteration(s, p, envs[0], l, 0, 0);
      IterationBasic(s, p, envs[0]);
      var s1 := Iteration(s, p, envs[0]);
      assert envs[..Distance(p)][1..] == envs[1..][..Distance(p) - 1];
      assert envs[..Distance(p)][0] == envs[0];
      ReachAttempt(s1, After(p), envs[1..], l);
    }
  }

  lemma {:induction false} LoopOne(s: State, p: Phase, env: Env)
    ensures Loop(s, p, [env]) == Iteration(s, p, env) && Loop(s, p, []) == s
  {
    assert [env][1..] == [];
  }

  /** Whether the last thing that happened is a packet of this endpoint descriptor. */
  predicate LastServed(s: State, e: Epd) {
    s.log != [] && IsAnswerTo(s.log[|s.log| - 1], e.addr, e.ep)
  }

  /** The next bulk attempt, at most six iterations away, sends a packet of endpoint j if and only if j can be served and
      no earlier endpoint of the list can, at the moment the attempt takes the lock. */
  lemma {:induction false} ServedIff(s: State, p: Phase, envs: seq<Env>, j: nat)
    requires BulkPending(s) && s.thread.Ready? && BasicInv(s) && |envs| == Distance(p) + 1 && DeviceAnswers(s, p, envs)
    ensures BasicInv(Capture(AtAttempt(s, p, envs), BulkPhase, envs[Distance(p)]))
    ensures
      var l := Capture(AtAttempt(s, p, envs), BulkPhase, envs[Distance(p)]).h.bulk;
      j < |l| ==> (LastServed(Loop(s, p, envs), l[j]) <==> Chosen(l, j))
  {
    hide BasicInv, AtAttempt, Loop, Iteration, Capture, BulkPending, Absorb, PacketOf, Chosen;
    assert EnvsElsewhere([], envs) && StartsWith(s, []);
    ReachAttempt(s, p, envs, []);
    var s0, env := AtAttempt(s, p, envs), envs[Distance(p)];
    AttemptServesFirst(s0, env);
    CaptureBasic(s0, env);
    var l := Capture(s0, BulkPhase, env).h.bulk;
    if j < |l| {
      ChosenIsFirst(l, j);
      DistinctKeys(l, j, FirstEligible(l, 0));
    }
  }

  lemma {:induction false} CaptureBasic(s: State, env: Env)
    requires BasicInv(s)
    ensures BasicInv(Capture(s, BulkPhase, env)) && UniqueKeys(Capture(s, BulkPhase, env).h.bulk)
  {
    hide HcdRuns.Next, Links, LinkSteps, RunFrom;
    LinksAreRun(s, env.before);
    RunFromBasic(s, LinkSteps(env.before));
    var s2 := HcdRuns.Next(Links(s, env.before), CaptureStep(Bulk));
    NextKeepsBasic(Links(s, env.before), CaptureStep(Bulk));
    LinksAreRun(s2, env.during);
    RunFromBasic(s2, LinkSteps(env.during));
  }

  lemma {:induction false} DistinctKeys(l: seq<Epd>, i: nat, j: nat)
    requires UniqueKeys(l) && i < |l| && j < |l|
    ensures l[i].addr == l[j].addr && l[i].ep == l[j].ep <==> i == j
  {
  }

  /** If nothing is linked to the endpoints of the list meanwhile, what can be served now decides. */
  lemma {:induction false} ServedIffNow(s: State, p: Phase, envs: seq<Env>, j: nat)
    requires BulkPending(s) && s.thread.Ready? && BasicInv(s) && |envs| == Distance(p) + 1 && DeviceAnswers(s, p, envs)
    requires EnvsElsewhere(s.h.bulk, envs) && j < |s.h.bulk|
    ensures LastServed(Loop(s, p, envs), s.h.bulk[j]) <==> Chosen(s.h.bulk, j)
  {
    hide BasicInv, AtAttempt, Loop, Iteration, Capture, BulkPending, LastServed, DeviceAnswers;
    ReachAttempt(s, p, envs, s.h.bulk);
    var s0, env := AtAttempt(s, p, envs), envs[Distance(p)];
    CaptureBehind(s0, env, s.h.bulk);
    ServedIff(s, p, envs, j);
    var l := Capture(s0, BulkPhase, env).h.bulk;
    assert forall i :: 0 <= i <= j ==> l[i] == s.h.bulk[i];
  }

  lemma {:induction false} CaptureBehind(s: State, env: Env, l: seq<Epd>)
    requires StartsWith(s, l) && AllElsewhere(l, env.before) && AllElsewhere(l, env.during)
    ensures StartsWith(Capture(s, BulkPhase, env), l)
  {
    hide StartsWith, AllElsewhere, Links;
    LinksBehind(s, l, env.before);
    var s1 := Links(s, env.before);
    var s2 := HcdRuns.Next(s1, CaptureStep(Bulk));
    assert StartsWith(s2, l) by { SameBulk(s1, s2, l); }
    LinksBehind(s2, l, env.during);
  }

  predicate SameKeys(l: seq<Epd>, l': seq<Epd>) {
    |l| <= |l'| && forall i :: 0 <= i < |l| ==> l'[i].addr == l[i].addr && l'[i].ep == l[i].ep
  }

  lemma {:induction false} ElsewhereByKeys(l: seq<Epd>, l': seq<Epd>, reqs: seq<LinkReq>)
    requires SameKeys(l, l') && |l'| == |l| && AllElsewhere(l, reqs)
    ensures AllElsewhere(l', reqs)
  {
    forall i | 0 <= i < |reqs| ensures LinksElsewhere(l', reqs[i]) {
      assert LinksElsewhere(l, reqs[i]);
    }
  }

  lemma {:induction false} PendingBit(s: State)
    requires BulkPending(s)
    ensures s.h.notify & NOTIFY_BULK != 0
  {
  }

  lemma {:induction false} PendingAwake(s: State, env: Env)
    requires BulkPending(s)
    ensures !Asleep(s, env)
  {
    LinksKeepPending(s, env.before);
    NotAsleep(Links(s, env.before));
  }

  lemma {:induction false} CaptureAnswersNothing(s: State, env: Env, addr: nat, ep: nat)
    ensures AnswersTo(Capture(s, BulkPhase, env).log, addr, ep) == AnswersTo(s.log, addr, ep)
  {
    hide Links, AnswersTo;
    LinksAnswerNothing(s, env.before, addr, ep);
    LinksAnswerNothing(HcdRuns.Next(Links(s, env.before), CaptureStep(Bulk)), env.during, addr, ep);
  }
}
