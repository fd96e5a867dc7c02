/** Every interleaving of the host controller: threads link TDs while the controller thread captures a list head,
    sends under the lock, and processes the done list. */
module HcdRuns {
  import opened UsbTypes
  import opened HcdModel
  import opened EpdTrack

  /** hcd_loop reads the list head before hcd_gtd_send takes the lock; `headSeen` is whether it was non-NULL. */
  datatype Thread = Ready | Captured(kind: ListKind, headSeen: bool)

  datatype Event =
    | Linked(kind: ListKind, addr: nat, ep: nat, mps: nat, td: Td)
    | Answered(kind: ListKind, addr: nat, ep: nat, reply: Reply)

  datatype State = State(h: Hcd, thread: Thread, completed: seq<Completion>, log: seq<Event>)

  datatype Step = LinkStep(req: LinkReq) | CaptureStep(kind: ListKind) | SendStep(reply: Reply) | DoneStep

  function Init(): State {
    State(Hcd([], [], [], 0, 0), Ready, [], [])
  }

  predicate Enabled(s: State, step: Step) {
    match step
    case LinkStep(req) => LinkAllowed(s.h, req)
    case CaptureStep(kind) => s.thread.Ready? && s.h.notify != 0
    case SendStep(r) => s.thread.Captured? && SendAllowed(s.h, s.thread.kind, s.thread.headSeen, r)
    case DoneStep => s.thread.Ready? && s.h.notify != 0
  }

  function DoLink(s: State, req: LinkReq): State {
    s.(h := Link(s.h, req),
       log := s.log + [Linked(KindOf(req), req.addr, req.ep % 16, req.mps, NewTd(s.h.nextId, req))])
  }

  function DoSend(s: State, r: Reply): State
    requires s.thread.Captured? && SendAllowed(s.h, s.thread.kind, s.thread.headSeen, r)
  {
    var kind, l := s.thread.kind, ListOf(s.h, s.thread.kind);
    var i := Selected(s.h, kind, s.thread.headSeen);
    s.(h := Send(s.h, kind, s.thread.headSeen, r), thread := Ready,
       log := s.log + (if i < |l| then [Answered(kind, l[i].addr, l[i].ep, r)] else []))
  }

  function DoDone(s: State): State {
    var (h, c) := ProcessDone(s.h);
    s.(h := h, completed := s.completed + (if c.Some? then [c.value] else []))
  }

  /** One step; a step that is not enabled does nothing. */
  function Next(s: State, step: Step): State {
    if !Enabled(s, step) then s
    else match step
      case LinkStep(req) => DoLink(s, req)
      case CaptureStep(kind) => s.(thread := Captured(kind, ListOf(s.h, kind) != []))
      case SendStep(r) => DoSend(s, r)
      case DoneStep => DoDone(s)
  }

  function Run(steps: seq<Step>): State {
    if steps == [] then Init() else Next(Run(steps[..|steps| - 1]), steps[|steps| - 1])
  }

  // ---------- basic invariant: well-formed, unique keys, a captured non-NULL head stays ----------

  predicate BasicInv(s: State) {
    && HcdOk(s.h) && UniqueKeys(s.h.control) && UniqueKeys(s.h.bulk)
    && (s.thread.Captured? && s.thread.headSeen ==> ListOf(s.h, s.thread.kind) != [])
  }

  /** Endpoint descriptors are never removed, moved or re-keyed, and keep the packet size of their first link. */
  predicate Extends(l: seq<Epd>, l': seq<Epd>) {
    && |l| <= |l'|
    && forall i :: 0 <= i < |l| ==> l'[i].addr == l[i].addr && l'[i].ep == l[i].ep && l'[i].mps == l[i].mps
  }

  lemma {:induction false} LinkExtends(l: seq<Epd>, addr: nat, ep: nat, mps: nat, td: Td)
    ensures Extends(l, LinkInto(l, addr, ep, mps, td))
    ensures UniqueKeys(l) ==> UniqueKeys(LinkInto(l, addr, ep, mps, td))
  {
  }

  lemma {:induction false} SendExtends(h: Hcd, kind: ListKind, headSeen: bool, r: Reply)
    requires SendAllowed(h, kind, headSeen, r)
    ensures var h' := Send(h, kind, headSeen, r); Extends(h.control, h'.control) && Extends(h.bulk, h'.bulk)
  {
    hide PacketOf, SetupAssertion;
    var l := ListOf(h, kind);
    var i := Selected(h, kind, headSeen);
    if i < |l| {
      var e := Absorb(l[i], r).epd;
      assert e.addr == l[i].addr && e.ep == l[i].ep && e.mps == l[i].mps;
    }
  }

  lemma {:induction false} ListsExtend(s: State, step: Step)
    requires HcdOk(s.h)
    ensures var s' := Next(s, step); Extends(s.h.control, s'.h.control) && Extends(s.h.bulk, s'.h.bulk)
  {
    hide Send, Link, SendAllowed;
    if Enabled(s, step) {
      match step
      case LinkStep(req) => LinkListsExtend(s.h, req);
      case CaptureStep(kind) =>
      case SendStep(r) => SendExtends(s.h, s.thread.kind, s.thread.headSeen, r);
      case DoneStep =>
    }
  }

  lemma {:induction false} LinkListsExtend(h: Hcd, req: LinkReq)
    ensures var h' := Link(h, req); Extends(h.control, h'.control) && Extends(h.bulk, h'.bulk)
  {
    LinkExtends(ListOf(h, KindOf(req)), req.addr, req.ep % 16, req.mps, NewTd(h.nextId, req));
  }

  lemma {:induction false} NextKeepsBasic(s: State, step: Step)
    requires BasicInv(s)
    ensures BasicInv(Next(s, step))
  {
    hide Send, SendAllowed;
    ListsExtend(s, step);
    if Enabled(s, step) {
      match step
      case LinkStep(req) =>
        LinkKeepsOk(s.h, req);
        LinkExtends(ListOf(s.h, KindOf(req)), req.addr, req.ep % 16, req.mps, NewTd(s.h.nextId, req));
      case CaptureStep(kind) =>
      case SendStep(r) =>
        SendKeepsOk(s.h, s.thread.kind, s.thread.headSeen, r);
        SendKeepsLength(s.h, s.thread.kind, s.thread.headSeen, r);
      case DoneStep =>
    }
  }

  lemma {:induction false} SendKeepsLength(h: Hcd, kind: ListKind, headSeen: bool, r: Reply)
    requires SendAllowed(h, kind, headSeen, r)
    ensures var h' := Send(h, kind, headSeen, r); |h'.control| == |h.control| && |h'.bulk| == |h.bulk|
  {
    hide Absorb, PacketOf, SetupAssertion;
  }

  lemma {:induction false} RunBasic(steps: seq<Step>)
    ensures BasicInv(Run(steps))
  {
    if steps != [] {
      RunBasic(steps[..|steps| - 1]);
      NextKeepsBasic(Run(steps[..|steps| - 1]), steps[|steps| - 1]);
    }
  }

  // ---------- no lost wake-up ----------

  predicate HasEligible(l: seq<Epd>) {
    exists i :: 0 <= i < |l| && Eligible(l[i])
  }

  /** Pending work keeps its notification bit, so hcd_wait_for_event does not block on it. */
  predicate Awake(h: Hcd) {
    && (HasEligible(h.control) ==> h.notify & NOTIFY_CONTROL != 0)
    && (HasEligible(h.bulk) ==> h.notify & NOTIFY_BULK != 0)
    && (h.done != [] ==> h.notify & NOTIFY_DONE != 0)
  }

  /** A send still holding the NULL head it read before another thread created the list and queued work there. */
  predicate StaleSend(s: State, step: Step) {
    && step.SendStep? && Enabled(s, step)
    && !s.thread.headSeen && HasEligible(ListOf(s.h, s.thread.kind))
  }

  lemma {:induction false} SetBit(n: bv8, m: bv8)
    requires m == NOTIFY_CONTROL || m == NOTIFY_BULK || m == NOTIFY_DONE
    ensures (n | m) & m != 0
    ensures n & NOTIFY_CONTROL != 0 ==> (n | m) & NOTIFY_CONTROL != 0
    ensures n & NOTIFY_BULK != 0 ==> (n | m) & NOTIFY_BULK != 0
    ensures n & NOTIFY_DONE != 0 ==> (n | m) & NOTIFY_DONE != 0
  {
  }

  lemma {:induction false} ClearBit(n: bv8, m: bv8)
    requires m == NOTIFY_CONTROL || m == NOTIFY_BULK || m == NOTIFY_DONE
    ensures (n & !m) & m == 0
    ensures m != NOTIFY_CONTROL ==> (n & !m) & NOTIFY_CONTROL == n & NOTIFY_CONTROL
    ensures m != NOTIFY_BULK ==> (n & !m) & NOTIFY_BULK == n & NOTIFY_BULK
    ensures m != NOTIFY_DONE ==> (n & !m) & NOTIFY_DONE == n & NOTIFY_DONE
  {
  }

  lemma {:induction false} LinkKeepsEligible(l: seq<Epd>, addr: nat, ep: nat, mps: nat, td: Td)
    ensures HasEligible(LinkInto(l, addr, ep, mps, td))
  {
    var i := FindFrom(l, addr, ep, 0);
    assert Eligible(LinkInto(l, addr, ep, mps, td)[i]);
  }

  /** A step keeps every pending endpoint's notification bit if and only if it is not a stale send. */
  lemma {:induction false} WakeUpKeptIff(s: State, step: Step)
    requires BasicInv(s) && Awake(s.h)
    ensures Awake(Next(s, step).h) <==> !StaleSend(s, step)
  {
    hide BasicInv, Awake, Link, Send, ProcessDone, HasEligible, LinkAllowed, SendAllowed;
    if Enabled(s, step) {
      match step
      case LinkStep(req) => LinkWakeUp(s.h, req);
      case CaptureStep(kind) =>
      case SendStep(r) => SendWakeUp(s, r);
      case DoneStep => DoneWakeUp(s.h);
    }
  }

  lemma {:induction false} LinkWakeUp(h: Hcd, req: LinkReq)
    requires Awake(h)
    ensures Awake(Link(h, req))
  {
    hide HasEligible, LinkInto;
    SetBit(h.notify, Mask(KindOf(req)));
  }

  lemma {:induction false} DoneWakeUp(h: Hcd)
    requires Awake(h)
    ensures Awake(ProcessDone(h).0)
  {
    hide HasEligible;
    ClearBit(h.notify, NOTIFY_DONE);
  }

  lemma {:induction false} SendWakeUp(s: State, r: Reply)
    requires BasicInv(s) && Awake(s.h) && Enabled(s, SendStep(r))
    ensures Awake(DoSend(s, r).h) <==> !StaleSend(s, SendStep(r))
  {
    hide Absorb, PacketOf, SetupAssertion, EpdOk;
    var kind := s.thread.kind;
    var l := ListOf(s.h, kind);
    var i := Selected(s.h, kind, s.thread.headSeen);
    if i == |l| {
      ClearBit(s.h.notify, Mask(kind));
    } else {
      SetBit(s.h.notify, NOTIFY_DONE);
      assert Eligible(l[i]) && HasEligible(l);
    }
  }

  /** No stale send happens along the run. */
  predicate NoStaleSend(steps: seq<Step>) {
    forall k :: 0 <= k < |steps| ==> !StaleSend(Run(steps[..k]), steps[k])
  }

  lemma {:induction false} NoLostWakeUp(steps: seq<Step>)
    requires NoStaleSend(steps)
    ensures Awake(Run(steps).h)
  {
    if steps != [] {
      var steps0 := steps[..|steps| - 1];
      forall k | 0 <= k < |steps0| ensures !StaleSend(Run(steps0[..k]), steps0[k]) {
        assert steps0[..k] == steps[..k];
      }
      NoLostWakeUp(steps0);
      RunBasic(steps0);
      WakeUpKeptIff(Run(steps0), steps[|steps| - 1]);
    }
  }
}
