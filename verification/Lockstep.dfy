/** Host controller, device library and firmware together, in lockstep: the device drains its event queue
    between two packets. One stage of a control transfer, from the link of its TD to its completion. */
module Lockstep {
  import opened UsbTypes
  import opened HcdModel
  import opened HcdLoop
  import opened EventRing
  import opened DeviceModel
  import opened FirmwareModel
  import opened ControlDevice
  import HcdRuns

  /** A packet on the bus, its reply, and the device's address register at that moment. */
  datatype Sent = Sent(packet: Packet, reply: Reply, deviceAddr: int)

  datatype World = World(h: Hcd, phase: Phase, d: Dev, f: Fw, completed: seq<Completion>, wire: seq<Sent>)

  // ---------- one iteration of hcd_loop against the device ----------

  /** No assertion fails and the endpoint number is within the buffer descriptor table. */
  predicate CanSend(w: World, kind: ListKind) {
    && HcdOk(w.h) && BoardOk(w.d)
    && var l := ListOf(w.h, kind);
       var i := FirstEligible(l, 0);
       i < |l| ==> SetupAssertion(l[i]) && l[i].ep < 3
  }

  lemma {:induction false} PacketShape(e: Epd)
    requires EpdOk(e) && e.queue != []
    ensures var p := PacketOf(e); p.ep == e.ep && p.addr == e.addr && (!p.dirIn ==> p.size == |p.data|)
  {
  }

  function SendPacket(w: World, kind: ListKind, key: byte): World
    requires CanSend(w, kind)
  {
    var l := ListOf(w.h, kind);
    var i := FirstEligible(l, 0);
    if i == |l| then w.(h := Send(w.h, kind, l != [], Nak))
    else
      PacketShape(l[i]);
      var p := PacketOf(l[i]);
      TransferBoard(w.d, p);
      var r := Transfer(w.d, p).1;
      var (f, d) := Serve(w.f, w.d, p, key);
      w.(h := Send(w.h, kind, l != [], r), f := f, d := d, wire := w.wire + [Sent(p, r, w.d.u1addr)])
  }

  function LoopStep(w: World, key: byte): World {
    if w.h.notify == 0 then w
    else match AttemptOf(w.phase)
      case Sending(kind) => if CanSend(w, kind) then SendPacket(w, kind, key).(phase := After(w.phase)) else w
      case Finishing =>
        var (h, c) := ProcessDone(w.h);
        w.(h := h, phase := After(w.phase), completed := w.completed + (if c.Some? then [c.value] else []))
  }

  /** The loop runs n iterations while the submitting thread does something else. */
  function Elapse(w: World, n: nat, key: byte): World
    decreases n
  {
    if n == 0 then w else Elapse(LoopStep(w, key), n - 1, key)
  }

  /** urb_wait: the loop runs until one more completion than n0 has been made, or the fuel is used up. */
  function Await(w: World, n0: nat, fuel: nat, key: byte): World
    decreases fuel
  {
    if |w.completed| > n0 || fuel == 0 then w else Await(LoopStep(w, key), n0, fuel - 1, key)
  }

  function LinkInWorld(w: World, req: LinkReq): World {
    if LinkAllowed(w.h, req) then w.(h := Link(w.h, req)) else w
  }

  // ---------- quiet worlds ----------

  predicate NoQueues(l: seq<Epd>) {
    forall i :: 0 <= i < |l| ==> l[i].queue == []
  }

  /** No TD anywhere, and the device has nothing to do. */
  predicate Quiet(w: World) {
    && NoQueues(w.h.control) && NoQueues(w.h.bulk) && w.h.done == []
    && HcdOk(w.h) && UniqueKeys(w.h.control) && Drained(w.d)
  }

  lemma {:induction false} NothingEligible(l: seq<Epd>)
    requires NoQueues(l)
    ensures FirstEligible(l, 0) == |l|
  {
    forall i | 0 <= i < |l| ensures !Eligible(l[i]) {
      assert l[i].queue == [];
    }
  }

  /** What an iteration of the loop with nothing to do leaves: everything but notification bits and phase. */
  predicate SameButTurn(w': World, w: World) {
    w' == w.(h := w.h.(notify := w'.h.notify), phase := w'.phase)
  }

  lemma {:induction false} QuietStep(w: World, key: byte)
    requires Quiet(w)
    ensures Quiet(LoopStep(w, key)) && SameButTurn(LoopStep(w, key), w)
  {
    hide BoardOk, AllOk, UniqueKeys, Transfer, Serve;
    NothingEligible(w.h.control);
    NothingEligible(w.h.bulk);
    assert w.completed + [] == w.completed;
  }

  lemma {:induction false} QuietElapse(w: World, n: nat, key: byte)
    requires Quiet(w)
    ensures Quiet(Elapse(w, n, key)) && SameButTurn(Elapse(w, n, key), w)
    decreases n
  {
    hide Quiet, LoopStep;
    if n > 0 {
      QuietStep(w, key);
      QuietElapse(LoopStep(w, key), n - 1, key);
    }
  }

  /** The notification bit an attempt clears when it finds nothing. */
  function BitAt(p: Phase): bv8 {
    match AttemptOf(p)
    case Sending(kind) => if kind.Control? then 2 else 4
    case Finishing => 16
  }

  function BitsWithin(p: Phase, n: nat): bv8
    decreases n
  {
    if n == 0 then 0 else BitAt(p) | BitsWithin(After(p), n - 1)
  }

  lemma {:induction false} QuietBits(w: World, key: byte)
    requires Quiet(w)
    ensures
      var w' := LoopStep(w, key);
      if w.h.notify == 0 then w' == w else w'.phase == After(w.phase) && w'.h.notify == w.h.notify & !BitAt(w.phase)
  {
    hide SendPacket, CanSend, Quiet;
    QuietSend(w, Control, key);
    QuietSend(w, Bulk, key);
    assert w.h.done == [] by { QuietDone(w); }
  }

  lemma {:induction false} QuietDone(w: World)
    requires Quiet(w)
    ensures w.h.done == []
  {
  }

  lemma {:induction false} QuietCanSend(w: World, kind: ListKind)
    requires Quiet(w)
    ensures CanSend(w, kind) && FirstEligible(ListOf(w.h, kind), 0) == |ListOf(w.h, kind)|
  {
    hide BoardOk, AllOk, UniqueKeys, SetupAssertion;
    assert NoQueues(ListOf(w.h, kind));
    NothingEligible(ListOf(w.h, kind));
    QuietBoard(w);
  }

  lemma {:induction false} NothingToSend(w: World, kind: ListKind, key: byte)
    requires CanSend(w, kind) && FirstEligible(ListOf(w.h, kind), 0) == |ListOf(w.h, kind)|
    ensures SendAllowed(w.h, kind, ListOf(w.h, kind) != [], Nak)
    ensures SendPacket(w, kind, key) == w.(h := Send(w.h, kind, ListOf(w.h, kind) != [], Nak))
  {
    hide Transfer, Serve, PacketOf, BoardOk, AllOk, Send;
  }

  lemma {:induction false} QuietSend(w: World, kind: ListKind, key: byte)
    requires Quiet(w)
    ensures CanSend(w, kind) && SendPacket(w, kind, key).phase == w.phase
    ensures SendPacket(w, kind, key).h.notify == w.h.notify & !Mask(kind)
  {
    hide CanSend, Quiet, SendPacket, SendAllowed, Send, HcdOk, Mask;
    QuietCanSend(w, kind);
    NothingToSend(w, kind, key);
    QuietBoard(w);
    NothingSent(w.h, kind);
  }

  lemma {:induction false} QuietBoard(w: World)
    requires Quiet(w)
    ensures BoardOk(w.d) && HcdOk(w.h) && NoQueues(w.h.control) && NoQueues(w.h.bulk)
  {
  }

  lemma {:induction false} NothingSent(h: Hcd, kind: ListKind)
    requires HcdOk(h) && NoQueues(ListOf(h, kind))
    ensures SendAllowed(h, kind, ListOf(h, kind) != [], Nak)
    ensures Send(h, kind, ListOf(h, kind) != [], Nak) == ClearNotification(h, Mask(kind))
  {
    hide PacketOf, Absorb, AllOk;
    NothingEligible(ListOf(h, kind));
  }

  lemma {:induction false} QuietClears(w: World, n: nat, key: byte)
    requires Quiet(w)
    ensures Elapse(w, n, key).h.notify & BitsWithin(w.phase, n) == 0
    ensures Elapse(w, n, key).h.notify & !w.h.notify == 0
    decreases n
  {
    hide Quiet, LoopStep, BitAt;
    if n > 0 {
      QuietStep(w, key);
      QuietBits(w, key);
      QuietClears(LoopStep(w, key), n - 1, key);
      ClearedStay(Elapse(w, n, key).h.notify, w.h.notify, BitAt(w.phase), BitsWithin(After(w.phase), n - 1));
    } else {
      NothingNew(w.h.notify);
    }
  }

  lemma {:induction false} NothingNew(n: bv8)
    ensures n & 0 == 0 && n & !n == 0
  {
  }

  lemma {:induction false} ClearedStay(n': bv8, n: bv8, bit: bv8, rest: bv8)
    ensures n == 0 && n' & !n == 0 ==> n' & (bit | rest) == 0
    ensures n' & !(n & !bit) == 0 && n' & rest == 0 ==> n' & (bit | rest) == 0 && n' & !n == 0
  {
  }

  /** With nothing to do the loop goes to sleep: after six iterations the bits of both lists and of the done list are clear. */
  lemma {:induction false} QuietSleeps(w: World, key: byte)
    requires Quiet(w)
    ensures Elapse(w, 6, key).h.notify & 0x16 == 0
  {
    hide Quiet, Elapse;
    QuietClears(w, 6, key);
    SixPhases(w.phase);
  }

  lemma {:induction false} SixPhases(p: Phase)
    ensures BitsWithin(p, 6) == 0x16
  {
    assert BitsWithin(p, 6) ==
      BitAt(p) | (BitAt(After(p)) | (BitAt(After(After(p))) | BitsWithin(After(After(After(p))), 3)));
  }

  // ---------- from the retired TD to its completion ----------

  /** The stage's TD is on the done list, no other TD is anywhere. */
  predicate Retired(w: World, td: Td) {
    && NoQueues(w.h.control) && NoQueues(w.h.bulk) && w.h.done == [td] && w.h.notify & NOTIFY_DONE != 0
    && HcdOk(w.h) && UniqueKeys(w.h.control) && Drained(w.d)
  }

  lemma {:induction false} RetiredStep(w: World, td: Td, key: byte)
    requires Retired(w, td)
    ensures
      var w' := LoopStep(w, key);
      && w'.phase == After(w.phase)
      && (w.phase != DonePhase ==> Retired(w', td) && SameButTurn(w', w))
      && (w.phase == DonePhase ==>
            Quiet(w') && w' == w.(h := w.h.(done := []), phase := Control0, completed := w.completed + [Complete(td)]))
  {
    hide BoardOk, AllOk, UniqueKeys, SendPacket, CanSend;
    RetiredSend(w, td, Control, key);
    RetiredSend(w, td, Bulk, key);
    NotifyStays(w, td);
  }

  lemma {:induction false} NotifyStays(w: World, td: Td)
    requires Retired(w, td)
    ensures w.h.notify != 0
  {
  }

  lemma {:induction false} RetiredSend(w: World, td: Td, kind: ListKind, key: byte)
    requires Retired(w, td)
    ensures CanSend(w, kind)
    ensures var w' := SendPacket(w, kind, key); Retired(w', td) && SameButTurn(w', w) && w'.phase == w.phase
  {
    hide BoardOk, AllOk, UniqueKeys, Transfer, Serve;
    NothingEligible(ListOf(w.h, kind));
    HcdRuns.ClearBit(w.h.notify, Mask(kind));
  }

  /** The world in which the stage's completion has been made. */
  ghost predicate Finished(w': World, w: World, td: Td) {
    && Quiet(w') && w'.completed == w.completed + [Complete(td)]
    && w'.d == w.d && w'.f == w.f && w'.wire == w.wire
    && w'.h.control == w.h.control && w'.h.bulk == w.h.bulk && w'.h.nextId == w.h.nextId
  }

  lemma {:induction false} RetiredFinishes(w: World, td: Td, n0: nat, fuel: nat, key: byte)
    requires Retired(w, td) && |w.completed| == n0 && fuel > ToDone(w.phase)
    ensures Finished(Await(w, n0, fuel, key), w, td)
    decreases fuel
  {
    hide Quiet, LoopStep, Retired;
    var w1 := LoopStep(w, key);
    assert Await(w, n0, fuel, key) == Await(w1, n0, fuel - 1, key);
    RetiredStep(w, td, key);
    if w.phase != DonePhase {
      RetiredFinishes(w1, td, n0, fuel - 1, key);
      assert Finished(Await(w1, n0, fuel - 1, key), w1, td);
    } else {
      assert w1.h.control == w.h.control;
    }
  }

  // ---------- from the linked TD to its packet ----------

  /** Endpoint i of the control list holds the only TD. */
  predicate Pending(w: World, i: nat) {
    && i < |w.h.control| && |w.h.control[i].queue| == 1 && Eligible(w.h.control[i])
    && (forall j :: 0 <= j < |w.h.control| && j != i ==> w.h.control[j].queue == [])
    && NoQueues(w.h.bulk) && w.h.done == [] && w.h.notify & NOTIFY_CONTROL != 0
    && HcdOk(w.h) && UniqueKeys(w.h.control) && Drained(w.d)
    && w.h.control[i].ep == 0 && SetupAssertion(w.h.control[i])
  }

  lemma {:induction false} PendingSelected(w: World, i: nat)
    requires Pending(w, i)
    ensures FirstEligible(w.h.control, 0) == i
  {
    var l := w.h.control;
    forall j | 0 <= j < i ensures !Eligible(l[j]) {
      assert l[j].queue == [];
    }
  }

  lemma {:induction false} PendingBoard(w: World, i: nat)
    requires Pending(w, i)
    ensures BoardOk(w.d) && w.h.notify != 0
  {
  }

  /** Before the next control attempt nothing happens to the pending TD. */
  lemma {:induction false} PendingWaits(w: World, i: nat, key: byte)
    requires Pending(w, i) && AttemptOf(w.phase) != Sending(Control)
    ensures var w' := LoopStep(w, key); Pending(w', i) && SameButTurn(w', w) && w'.phase == After(w.phase)
  {
    hide BoardOk, Drained, Eligible, EpdOk, SetupAssertion, Transfer, Serve, UniqueKeys;
    assert BoardOk(w.d) by { PendingBoard(w, i); }
    assert w.h.notify != 0 by { PendingBoard(w, i); }
    NothingEligible(w.h.bulk);
    HcdRuns.ClearBit(w.h.notify, NOTIFY_BULK);
    HcdRuns.ClearBit(w.h.notify, NOTIFY_DONE);
    assert w.completed + [] == w.completed;
  }

  function PendingPacket(w: World, i: nat): (p: Packet)
    requires Pending(w, i)
    ensures p.ep == 0 && p.addr == w.h.control[i].addr && (!p.dirIn ==> p.size == |p.data|)
  {
    PacketShape(w.h.control[i]);
    PacketOf(w.h.control[i])
  }

  function PendingReply(w: World, i: nat): (r: Reply)
    requires Pending(w, i)
    ensures ReplyFits(PacketOf(w.h.control[i]), r)
  {
    TransferBoard(w.d, PendingPacket(w, i));
    Transfer(w.d, PendingPacket(w, i)).1
  }

  function PendingOutcome(w: World, i: nat): Outcome
    requires Pending(w, i)
  {
    Absorb(w.h.control[i], PendingReply(w, i))
  }

  /** The world after the control attempt that sends the packet of endpoint i. */
  function AfterPacket(w: World, i: nat, key: byte): World
    requires Pending(w, i)
  {
    var (f, d) := Serve(w.f, w.d, PendingPacket(w, i), key);
    PendingSelected(w, i);
    w.(h := Send(w.h, Control, true, PendingReply(w, i)), f := f, d := d, phase := After(w.phase),
       wire := w.wire + [Sent(PendingPacket(w, i), PendingReply(w, i), w.d.u1addr)])
  }

  lemma {:induction false} PendingSends(w: World, i: nat, key: byte)
    requires Pending(w, i) && AttemptOf(w.phase) == Sending(Control)
    ensures LoopStep(w, key) == AfterPacket(w, i, key)
  {
    PendingSelected(w, i);
    PacketShape(w.h.control[i]);
    TransferBoard(w.d, PacketOf(w.h.control[i]));
  }

  /** How long the loop takes to the next control attempt. */
  function ToControl(p: Phase): nat {
    if p == BulkPhase then 2 else if p == DonePhase then 1 else 0
  }

  /** The loop comes to the packet within two iterations. */
  lemma {:induction false} PendingReaches(w: World, i: nat, n0: nat, fuel: nat, key: byte) returns (w1: World)
    requires Pending(w, i) && |w.completed| == n0 && fuel >= ToControl(w.phase)
    ensures Pending(w1, i) && SameButTurn(w1, w) && AttemptOf(w1.phase) == Sending(Control)
    ensures Await(w, n0, fuel, key) == Await(w1, n0, fuel - ToControl(w.phase), key)
    decreases ToControl(w.phase)
  {
    hide Pending, LoopStep;
    if AttemptOf(w.phase) == Sending(Control) {
      w1 := w;
    } else {
      PendingWaits(w, i, key);
      w1 := PendingReaches(LoopStep(w, key), i, n0, fuel - 1, key);
    }
  }

  /** Sending the only TD, if that retires it. */
  lemma {:induction false} PacketRetires(w: World, i: nat, key: byte)
    requires Pending(w, i) && PendingOutcome(w, i).retired.Some?
    ensures
      var o, w' := PendingOutcome(w, i), AfterPacket(w, i, key);
      && Retired(w', o.retired.value.td)
      && w'.h.control == w.h.control[i := o.epd] && w'.h.bulk == w.h.bulk && w'.h.nextId == w.h.nextId
  {
    hide Transfer, PacketOf, TdOk, Absorb, Serve, BoardOk;
    assert BoardOk(w.d);
    var e, r := w.h.control[i], PendingReply(w, i);
    PendingSelected(w, i);
    AbsorbKeepsOk(e, r);
    HcdRuns.SetBit(w.h.notify, NOTIFY_DONE);
    RetiredQueue(e, r);
    ServeDrains(w.f, w.d, PendingPacket(w, i), key);
  }

  lemma {:induction false} RetiredQueue(e: Epd, r: Reply)
    requires EpdOk(e) && e.queue != [] && ReplyFits(PacketOf(e), r) && Absorb(e, r).retired.Some?
    ensures var e' := Absorb(e, r).epd;
      e'.queue == e.queue[1..] && e'.addr == e.addr && e'.ep == e.ep && e'.mps == e.mps
  {
  }

  // ---------- a whole stage ----------

  /** The endpoint descriptor of a request as it is before the link. */
  function EpdFor(l: seq<Epd>, addr: nat, mps: nat): Epd {
    var i := FindFrom(l, addr, 0, 0);
    if i < |l| then l[i] else NewEpd(addr, 0, mps)
  }

  /** The packet size of (addr, 0), fixed by its first link. */
  function KnownMps(l: seq<Epd>, addr: nat): Option<nat> {
    var i := FindFrom(l, addr, 0, 0);
    if i < |l| then Some(l[i].mps) else None
  }

  function StageEpd(w: World, req: LinkReq): Epd {
    Enqueue(EpdFor(w.h.control, req.addr, req.mps), NewTd(w.h.nextId, req))
  }

  /** A request on endpoint 0 that passes the assertions. */
  predicate StageReq(w: World, req: LinkReq) {
    && req.ep == 0 && req.addr <= 127 && req.mps <= 1024 && (req.setup ==> !req.dirIn && |req.data| == SETUP_SIZE)
    && req.toggle <= 3
  }

  lemma {:induction false} StagePending(w: World, req: LinkReq) returns (i: nat)
    requires Quiet(w) && StageReq(w, req)
    ensures i == FindFrom(w.h.control, req.addr, 0, 0)
    ensures var w' := LinkInWorld(w, req);
      && Pending(w', i) && w' == w.(h := Link(w.h, req)) && w'.h.control[i] == StageEpd(w, req)
      && w'.h.bulk == w.h.bulk && w'.h.nextId == w.h.nextId + 1
      && w'.h.control == (if i < |w.h.control| then w.h.control[i := StageEpd(w, req)] else w.h.control + [StageEpd(w, req)])
  {
    i := FindFrom(w.h.control, req.addr, 0, 0);
    LinkKeepsOk(w.h, req);
    HcdRuns.SetBit(w.h.notify, NOTIFY_CONTROL);
    HcdRuns.LinkExtends(w.h.control, req.addr, 0, req.mps, NewTd(w.h.nextId, req));
  }

  lemma {:induction false} StageEpdOk(w: World, req: LinkReq)
    requires Quiet(w) && StageReq(w, req)
    ensures
      var e := StageEpd(w, req);
      && EpdOk(e) && e.queue == [NewTd(w.h.nextId, req)] && e.addr == req.addr && e.ep == 0 && SetupAssertion(e)
      && e.mps == KnownMps(w.h.control, req.addr).GetOr(req.mps)
  {
  }

  function StagePacket(w: World, req: LinkReq): (p: Packet)
    requires Quiet(w) && StageReq(w, req)
    ensures p.ep == 0 && p.addr == req.addr && (!p.dirIn ==> p.size == |p.data|)
  {
    StageEpdOk(w, req);
    PacketShape(StageEpd(w, req));
    PacketOf(StageEpd(w, req))
  }

  function StageReply(w: World, req: LinkReq): (r: Reply)
    requires Quiet(w) && StageReq(w, req)
    ensures ReplyFits(StagePacket(w, req), r)
  {
    TransferBoard(w.d, StagePacket(w, req));
    Transfer(w.d, StagePacket(w, req)).1
  }

  function StageOutcome(w: World, req: LinkReq): Outcome
    requires Quiet(w) && StageReq(w, req)
  {
    StageEpdOk(w, req);
    Absorb(StageEpd(w, req), StageReply(w, req))
  }

  /** The world after a stage whose single packet retires its TD. */
  ghost predicate StageDone(w': World, w: World, req: LinkReq, td: Td, key: byte)
    requires Quiet(w) && StageReq(w, req)
  {
    && Quiet(w') && w'.completed == w.completed + [Complete(td)]
    && (w'.f, w'.d) == Serve(w.f, w.d, StagePacket(w, req), key)
    && w'.wire == w.wire + [Sent(StagePacket(w, req), StageReply(w, req), w.d.u1addr)]
    && (forall a: nat :: KnownMps(w'.h.control, a) ==
                         if a == req.addr then Some(KnownMps(w.h.control, a).GetOr(req.mps)) else KnownMps(w.h.control, a))
    && w'.h.bulk == w.h.bulk
  }

  /** A pending TD whose packet retires it: the loop sends it, and completes it. */
  lemma {:induction false} PendingCompletes(w: World, i: nat, n0: nat, fuel: nat, key: byte)
    requires Pending(w, i) && AttemptOf(w.phase) == Sending(Control) && PendingOutcome(w, i).retired.Some?
    requires |w.completed| == n0 && fuel >= 6
    ensures
      var w', o := Await(w, n0, fuel, key), PendingOutcome(w, i);
      && Quiet(w') && w'.completed == w.completed + [Complete(o.retired.value.td)]
      && (w'.f, w'.d) == Serve(w.f, w.d, PendingPacket(w, i), key)
      && w'.wire == w.wire + [Sent(PendingPacket(w, i), PendingReply(w, i), w.d.u1addr)]
      && w'.h.control == w.h.control[i := o.epd] && w'.h.bulk == w.h.bulk
  {
    hide Quiet, Absorb, PacketOf, Serve, Transfer, Pending, Send, Retired, LoopStep;
    PendingSends(w, i, key);
    PacketRetires(w, i, key);
    var w2 := AfterPacket(w, i, key);
    assert Await(w, n0, fuel, key) == Await(w2, n0, fuel - 1, key);
    RetiredFinishes(w2, PendingOutcome(w, i).retired.value.td, n0, fuel - 1, key);
  }

  /** If the packet of a stage retires its TD, urb_wait returns within eight iterations of the loop, wherever it stands,
      with the TD completed and the system quiet again. */
  lemma {:induction false} StageCompletes(w: World, req: LinkReq, fuel: nat, key: byte)
    requires Quiet(w) && StageReq(w, req) && fuel >= 8 && StageOutcome(w, req).retired.Some?
    ensures StageDone(Await(LinkInWorld(w, req), |w.completed|, fuel, key), w, req,
                      StageOutcome(w, req).retired.value.td, key)
  {
    hide Quiet, Absorb, PacketOf, Serve, Transfer, Pending, LinkInWorld, EpdFor, LoopStep, KnownMps, Link, Enqueue, Await;
    var w0 := LinkInWorld(w, req);
    var i := StagePending(w, req);
    StageEpdOk(w, req);
    var n0 := |w.completed|;
    var w1 := PendingReaches(w0, i, n0, fuel, key);
    assert w1.h.control[i] == StageEpd(w, req) && w1.d == w.d && w1.f == w.f && w1.wire == w.wire;
    assert PendingPacket(w1, i) == StagePacket(w, req);
    assert PendingReply(w1, i) == StageReply(w, req);
    assert PendingOutcome(w1, i) == StageOutcome(w, req);
    PendingCompletes(w1, i, n0, fuel - ToControl(w0.phase), key);
    RetiredQueue(StageEpd(w, req), StageReply(w, req));
    StageKnown(w, req, w1.h.control[i := StageOutcome(w, req).epd], i, StageOutcome(w, req).epd);
  }

  lemma {:induction false} StageKnown(w: World, req: LinkReq, l': seq<Epd>, i: nat, e: Epd)
    requires Quiet(w) && StageReq(w, req) && i == FindFrom(w.h.control, req.addr, 0, 0)
    requires e.addr == req.addr && e.ep == 0 && e.mps == StageEpd(w, req).mps
    requires l' == (if i < |w.h.control| then w.h.control[i := e] else w.h.control + [e])
    ensures forall a: nat :: KnownMps(l', a) ==
              if a == req.addr then Some(KnownMps(w.h.control, a).GetOr(req.mps)) else KnownMps(w.h.control, a)
  {
    var l := w.h.control;
    forall a: nat ensures KnownMps(l', a) ==
      if a == req.addr then Some(KnownMps(l, a).GetOr(req.mps)) else KnownMps(l, a)
    {
      SameFind(l, l', a, i);
    }
  }

  lemma {:induction false} SameFind(l: seq<Epd>, l': seq<Epd>, a: nat, i: nat)
    requires i < |l'| && |l| <= |l'| <= |l| + 1 && (|l'| == |l| + 1 ==> i == |l|) && l'[i].ep == 0
    requires forall j :: 0 <= j < |l| && j != i ==> l'[j] == l[j]
    requires i < |l| ==> l[i].addr == l'[i].addr && l[i].ep == 0
    requires FindFrom(l, l'[i].addr, 0, 0) == i
    ensures FindFrom(l', a, 0, 0) ==
            if a == l'[i].addr then i else if FindFrom(l, a, 0, 0) == |l| then |l'| else FindFrom(l, a, 0, 0)
  {
    var k, k' := FindFrom(l, a, 0, 0), FindFrom(l', a, 0, 0);
    if k' < |l'| && k' != i {
      assert l[k'] == l'[k'];
    }
    if k < |l| && k != i {
      assert l[k] == l'[k];
    }
  }
}
