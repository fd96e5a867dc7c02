/** The whole simulator updated in place: the linked lists of hcd.c, the registers and buffers of usb_lib_usbip.c and the
    variables of main.c, driven by hcd_loop and sys_urb_submit in lockstep. The methods are proved to compute the functions of
    modules Lockstep and ControlTransfers, so what is proved of those holds of these. */
module Simulator {
  import opened UsbTypes
  import opened HcdModel
  import opened HcdLoop
  import opened DeviceModel
  import opened FirmwareModel
  import opened ControlDevice
  import opened Lockstep
  import opened ControlTransfers
  import opened TdCount
  import opened HcdHeap
  import Firmware

  /** urb->submit.setup.as_int == 0. */
  const NO_SETUP: seq<byte> := [0, 0, 0, 0, 0, 0, 0, 0]

  class System {
    const hcd: Controller
    const board: Firmware.Board
    var phase: Phase
    ghost var completed: seq<Completion>
    ghost var wire: seq<Sent>

    ghost predicate Valid()
      reads this, hcd, hcd.control, hcd.bulk, hcd.Footprint(), board.Footprint()
      ensures Valid() ==> board.usb.events.Valid()
    {
      hcd.Valid() && board.Valid() && hcd.Footprint() !! board.Footprint()
      && this !in hcd.Footprint() && this !in board.Footprint()
    }

    ghost function State(): World
      reads this, hcd, hcd.control, hcd.bulk, board.usb.events, board.usb.events.queue, board.Footprint()
      requires board.usb.events.Valid()
    {
      World(hcd.Model(), phase, board.Usb(), board.Vars(), completed, wire)
    }

    constructor (board: Firmware.Board)
      requires board.Valid()
      ensures Valid() && this.board == board && fresh(hcd) && fresh(hcd.Footprint()) && hcd.Urbs() == {}
      ensures State() == World(Hcd([], [], [], 0, 0), Control0, board.Usb(), board.Vars(), [], [])
    {
      hide EpdList.Valid, BoardOk;
      this.board := board;
      hcd := new Controller();
      phase, completed, wire := Control0, [], [];
    }

    lemma {:induction false} Parts()
      requires Valid()
      ensures hcd.Valid() && hcd.control.Valid() && hcd.bulk.Valid() && HcdOk(hcd.Model())
      ensures hcd.control.head == null <==> hcd.control.model == []
      ensures hcd.bulk.head == null <==> hcd.bulk.model == []
      ensures {hcd, hcd.control, hcd.bulk} <= hcd.Footprint()
      ensures {board, board.usb.events, board.usb.events.queue} <= board.Footprint()
      ensures board.Valid() && BoardOk(board.Usb())
    {
    }

    lemma {:induction false} StateOk()
      requires Valid()
      ensures BoardOk(State().d) && HcdOk(State().h)
    {
    }

    lemma {:induction false} StateFields()
      requires Valid()
      ensures State().wire == wire && State().completed == completed && State().phase == phase
      ensures State().h.notify == hcd.notify && (State().h.done == [] <==> hcd.done == []) && hcd in hcd.Footprint()
    {
    }

    /** Whether a send would pass the assertion on SETUP packets; the device has three endpoints. */
    method Passes(kind: ListKind) returns (ok: bool)
      requires Valid()
      ensures Valid() && State() == old(State()) && ok == CanSend(State(), kind)
      ensures hcd.Footprint() == old(hcd.Footprint()) && hcd.Urbs() == old(hcd.Urbs())
    {
      hide Controller.Valid, Firmware.Board.Valid, HcdModel.FirstEligible, BoardOk, EpdList.Valid;
      Parts();
      var list := hcd.ListAt(kind);
      ok := list.Passes(list.head, 3);
    }

    /** The packet of a send that passes, its reply, and the world after it. */
    lemma {:induction false} SendFacts(w: World, kind: ListKind, key: byte)
      requires CanSend(w, kind)
      ensures
        var l := ListOf(w.h, kind);
        var out := Outgoing(l, l != []);
        && SendAllowed(w.h, kind, l != [], Nak)
        && (out.None? ==> SendPacket(w, kind, key) == w.(h := Send(w.h, kind, l != [], Nak)))
        && (out.Some? ==>
              var p := out.value;
              && l != [] && p.ep < 3 && (!p.dirIn ==> p.size == |p.data|) && BoardOk(w.d)
              && SendAllowed(w.h, kind, true, Transfer(w.d, p).1)
              && var r, (f, d) := Transfer(w.d, p).1, ControlDevice.Serve(w.f, w.d, p, key);
                 SendPacket(w, kind, key) ==
                   w.(h := Send(w.h, kind, true, r), f := f, d := d, wire := w.wire + [Sent(p, r, w.d.u1addr)]))
    {
      hide Transfer, PacketOf, DevOk, ControlDevice.Serve;
      var l := ListOf(w.h, kind);
      var i := FirstEligible(l, 0);
      if i < |l| {
        PacketShape(l[i]);
        TransferBoard(w.d, PacketOf(l[i]));
      }
    }

    /** The control or bulk attempt of hcd_loop. */
    method SendTurn(kind: ListKind, key: byte) returns (ok: bool)
      requires Valid()
      modifies `wire, hcd.Footprint(), board.Footprint()
      ensures Valid() && hcd.Footprint() == old(hcd.Footprint()) && hcd.Urbs() == old(hcd.Urbs())
      ensures ok == CanSend(old(State()), kind)
      ensures State() == if ok then SendPacket(old(State()), kind, key) else old(State())
    {
      hide Valid, State, Controller.Footprint, Controller.Urbs, SendPacket, CanSend;
      ghost var w := State();
      ok := Passes(kind);
      if ok {
        SendNext(kind, key, w);
      }
    }

    method SendNext(kind: ListKind, key: byte, ghost w: World)
      requires Valid() && w == State() && CanSend(w, kind)
      modifies `wire, hcd.Footprint(), board.Footprint()
      ensures Valid() && hcd.Footprint() == old(hcd.Footprint()) && hcd.Urbs() == old(hcd.Urbs())
      ensures State() == SendPacket(w, kind, key)
    {
      hide Controller.Valid, Firmware.Board.Valid, FirstEligible, Send, Transfer, PacketOf, ControlDevice.Serve,
        Outgoing, SendPacket, CanSend, SendAllowed, BoardOk, Controller.Awaiting, HcdOk, EpdList.Valid;
      Parts();
      SendFacts(w, kind, key);
      var p, packet := PrepareNext(kind, w);
      if packet.Some? {
        AnswerNext(kind, p, packet.value, key, w);
      }
    }

    /** The part of the send before __usb_transfer. */
    method PrepareNext(kind: ListKind, ghost w: World) returns (p: EpdNode?, packet: Option<Packet>)
      requires Valid() && w == State() && SendAllowed(w.h, kind, ListOf(w.h, kind) != [], Nak) && HcdOk(w.h)
      modifies hcd.Footprint()
      ensures Valid() && hcd.Footprint() == old(hcd.Footprint()) && hcd.Urbs() == old(hcd.Urbs())
      ensures packet == Outgoing(ListOf(w.h, kind), ListOf(w.h, kind) != [])
      ensures State() == w.(h := State().h)
      ensures packet.None? ==> State().h == Send(w.h, kind, ListOf(w.h, kind) != [], Nak)
      ensures packet.Some? ==> p != null && hcd.Awaiting(kind, p, w.h)
    {
      hide Controller.Valid, Firmware.Board.Valid, FirstEligible, Send, Transfer, PacketOf,
        Outgoing, SendAllowed, BoardOk, Controller.Awaiting, HcdOk, EpdList.Valid;
      Parts();
      p, packet := hcd.BeginSend(kind, hcd.ListAt(kind).head);
    }

    /** __usb_transfer and the part of the send after it. */
    method AnswerNext(kind: ListKind, p: EpdNode, packet: Packet, key: byte, ghost w: World)
      requires Valid() && State() == w.(h := State().h) && hcd.Awaiting(kind, p, w.h) && BoardOk(w.d)
      requires packet.ep < 3 && (!packet.dirIn ==> packet.size == |packet.data|)
      requires SendAllowed(w.h, kind, true, Transfer(w.d, packet).1)
      modifies `wire, hcd.Footprint(), board.Footprint()
      ensures Valid() && hcd.Footprint() == old(hcd.Footprint()) && hcd.Urbs() == old(hcd.Urbs())
      ensures
        var r, (f, d) := Transfer(w.d, packet).1, ControlDevice.Serve(w.f, w.d, packet, key);
        State() == w.(h := Send(w.h, kind, true, r), f := f, d := d, wire := w.wire + [Sent(packet, r, w.d.u1addr)])
    {
      hide Controller.Valid, Firmware.Board.Valid, FirstEligible, Send, Transfer, PacketOf, ControlDevice.Serve,
        SendAllowed, BoardOk, Controller.Awaiting, HcdOk, EpdList.Valid;
      Parts();
      var r := board.Deliver(packet, key);
      hcd.EndSend(kind, p, r, w.h);
      wire := wire + [Sent(packet, r, w.d.u1addr)];
    }

    /** The URB has been filled in by this completion. */
    ghost predicate Shows(urb: Urb, c: Completion)
      reads urb
    {
      urb.done && urb.ref == c.td.urb && urb.status == c.status && urb.length == c.length && urb.data == c.td.buffer
    }

    lemma {:induction false} UrbApart(u: Urb)
      requires Valid()
      ensures u !in hcd.Footprint() && u !in board.Footprint()
    {
      UrbsApart();
    }

    lemma {:induction false} UrbsApart()
      requires Valid()
      ensures forall u: Urb :: u !in hcd.Footprint() && u !in board.Footprint()
    {
    }

    /** hcd_process_done_list; the completed URB is returned. */
    method DoneTurn() returns (urb: Urb?)
      requires Valid()
      modifies `completed, hcd, if hcd.done == [] then {} else {hcd.done[0].urb}
      ensures Valid() && hcd.Footprint() <= old(hcd.Footprint()) && hcd.Urbs() == old(hcd.Urbs())
      ensures
        var (h, c) := ProcessDone(old(State()).h);
        && State() == old(State()).(h := h, completed := State().completed)
        && State().completed == old(State()).completed + (if c.Some? then [c.value] else [])
        && urb == (if old(hcd.done) == [] then null else old(hcd.done)[0].urb) && (urb == null <==> c == None)
        && (urb != null ==> urb in hcd.Urbs() && Shows(urb, c.value))
    {
      hide Firmware.Board.Valid, Controller.Valid, Controller.Footprint, ProcessDone, EpdList.Valid, BoardOk, HcdOk,
        Complete;
      Parts();
      UrbsApart();
      HeadUrb();
      ghost var c := ProcessDone(hcd.Model()).1;
      urb := hcd.ProcessDoneList();
      completed := completed + (if c.Some? then [c.value] else []);
    }

    lemma {:induction false} HeadUrb()
      requires Valid()
      ensures hcd.done != [] ==> hcd.done[0].urb in hcd.Urbs()
    {
    }

    /** One iteration of hcd_loop; a completed URB is returned. */
    method LoopIteration(key: byte) returns (urb: Urb?)
      requires Valid()
      modifies this, hcd.Footprint(), board.Footprint(), hcd.Urbs()
      ensures Valid() && hcd.Footprint() <= old(hcd.Footprint()) && hcd.Urbs() == old(hcd.Urbs())
      ensures State() == LoopStep(old(State()), key)
      ensures urb == null ==> |completed| == |old(completed)|
      ensures urb != null ==>
        |completed| == |old(completed)| + 1 && urb in hcd.Urbs() && Shows(urb, completed[|old(completed)|])
      ensures forall u: Urb | u in hcd.Urbs() && u != urb :: u.done == old(u.done)
    {
      hide Valid, State, Controller.Footprint, LoopStep, ProcessDone;
      StateFields();
      UrbsApart();
      HeadUrb();
      DoneStep(State(), key);
      urb := null;
      if hcd.notify == 0 {
        return;
      }
      if phase == DonePhase {
        urb := DoneTurn();
        StateFields();
        NextPhase();
        StateFields();
      } else {
        SendIteration(key);
      }
    }

    /** The last statement of an iteration of hcd_loop. */
    method NextPhase()
      requires Valid()
      modifies `phase
      ensures Valid() && State() == old(State()).(phase := After(old(phase)))
    {
      hide Controller.Valid, Firmware.Board.Valid, EpdList.Valid, BoardOk, HcdOk;
      phase := After(phase);
    }

    lemma {:induction false} DoneStep(w: World, key: byte)
      ensures w.h.notify == 0 ==> LoopStep(w, key) == w
      ensures w.h.notify != 0 && w.phase == DonePhase ==>
        var (h, c) := ProcessDone(w.h);
        LoopStep(w, key) ==
          w.(h := h, phase := Control0, completed := w.completed + (if c.Some? then [c.value] else []))
    {
    }

    lemma {:induction false} SendStep(w: World, kind: ListKind, key: byte)
      requires w.h.notify != 0 && w.phase != DonePhase && kind == if w.phase == BulkPhase then Bulk else Control
      ensures CanSend(w, kind) ==>
        var w' := SendPacket(w, kind, key);
        LoopStep(w, key) == w'.(phase := After(w.phase)) && w'.completed == w.completed && w'.phase == w.phase
      ensures !CanSend(w, kind) ==> LoopStep(w, key) == w
    {
      hide CanSend, Transfer, PacketOf;
    }

    method SendIteration(key: byte)
      requires Valid() && hcd.notify != 0 && phase != DonePhase
      modifies `phase, `wire, hcd.Footprint(), board.Footprint()
      ensures Valid() && hcd.Footprint() == old(hcd.Footprint()) && hcd.Urbs() == old(hcd.Urbs())
      ensures State() == LoopStep(old(State()), key) && completed == old(completed)
    {
      hide Valid, State, Controller.Footprint, SendPacket, CanSend, LoopStep, Controller.Urbs;
      StateFields();
      var kind := if phase == BulkPhase then Bulk else Control;
      SendStep(State(), kind, key);
      var ok := SendTurn(kind, key);
      StateFields();
      if ok {
        NextPhase();
        StateFields();
      }
    }

    /** With no TD left, the URBs can be forgotten. */
    ghost method Forget()
      requires Valid() && Tds(State().h) == 0
      modifies hcd.control`urbs, hcd.bulk`urbs
      ensures Valid() && State() == old(State()) && hcd.Urbs() == {}
      ensures hcd.Footprint() == old(hcd.Footprint())
    {
      hide Firmware.Board.Valid, Controller.Valid, EpdList.Valid, Queued;
      Parts();
      NoneQueued(hcd.control.model);
      NoneQueued(hcd.bulk.model);
      hcd.Forget();
    }

    /** n iterations of the loop with no TD on its way. */
    method Idle(n: nat, key: byte)
      requires Valid() && Tds(State().h) == 0 && hcd.Urbs() == {}
      modifies this, hcd.Footprint(), board.Footprint()
      ensures Valid() && Tds(State().h) == 0 && hcd.Urbs() == {} && hcd.Footprint() <= old(hcd.Footprint())
      ensures State() == Elapse(old(State()), n, key) && |completed| == |old(completed)|
    {
      hide Valid, Controller.Footprint, LoopStep, Tds;
      var i := 0;
      while i < n
        invariant i <= n && Valid() && Tds(State().h) == 0 && hcd.Urbs() == {} && hcd.Footprint() <= old(hcd.Footprint())
        invariant Elapse(old(State()), n, key) == Elapse(State(), n - i, key) && |completed| == |old(completed)|
      {
        StateFields();
        StepCounts(State(), key);
        var _ := LoopIteration(key);
        StateFields();
        i := i + 1;
      }
      StateFields();
    }

    /** urb_wait, with a bound on the iterations of the loop meanwhile: they go on, n of them, until this URB is done. If it is
        the only one on its way, that is the function `Await`. */
    method UrbWait(urb: Urb, fuel: nat, key: byte) returns (ghost n: nat)
      requires Valid() && urb in hcd.Urbs() && !urb.done
      modifies this, hcd.Footprint(), board.Footprint(), hcd.Urbs()
      ensures Valid() && hcd.Urbs() == old(hcd.Urbs()) && hcd.Footprint() <= old(hcd.Footprint())
      ensures n <= fuel && State() == Elapse(old(State()), n, key) && (!urb.done ==> n == fuel)
      ensures urb.done ==> |completed| > |old(completed)| && Shows(urb, completed[|completed| - 1])
      ensures Tds(State().h) + |completed| == old(Tds(State().h) + |completed|)
      ensures old(hcd.Urbs()) == {urb} ==>
        && State() == Await(old(State()), |old(completed)|, fuel, key)
        && |completed| == |old(completed)| + (if urb.done then 1 else 0)
    {
      hide Valid, State, Controller.Footprint, LoopStep, Tds;
      StateFields();
      ghost var n0 := |completed|;
      n := 0;
      var i := 0;
      while !urb.done && i < fuel
        invariant n == i <= fuel && Valid()
        invariant hcd.Urbs() == old(hcd.Urbs()) && hcd.Footprint() <= old(hcd.Footprint())
        invariant State() == Elapse(old(State()), i, key) && |completed| >= n0
        invariant urb.done ==> |completed| > n0 && Shows(urb, completed[|completed| - 1])
        invariant Tds(State().h) + |completed| == old(Tds(State().h) + |completed|)
        invariant old(hcd.Urbs()) == {urb} ==>
          && Await(old(State()), n0, fuel, key) == Await(State(), n0, fuel - i, key)
          && |completed| == n0 + (if urb.done then 1 else 0)
      {
        StateFields();
        StepCounts(State(), key);
        OneMoreStep(old(State()), i, key);
        var u := LoopIteration(key);
        StateFields();
        n, i := n + 1, i + 1;
      }
      StateFields();
    }

    lemma {:induction false} OneMoreStep(w: World, n: nat, key: byte)
      ensures Elapse(w, n + 1, key) == LoopStep(Elapse(w, n, key), key)
      decreases n
    {
      hide LoopStep;
      if n > 0 {
        OneMoreStep(LoopStep(w, key), n - 1, key);
      }
    }

    /** One stage of a control transfer: the local URB is linked and waited for. */
    method RunStage(u: ControlUrb, st: Stage, gap: nat, t: Timing) returns (inner: Urb)
      requires Valid() && UrbOk(u) && Tds(State().h) == 0
      modifies this, hcd.Footprint(), board.Footprint()
      ensures Valid() && fresh(inner)
      ensures forall o | o in hcd.Footprint() && o !in old(hcd.Footprint()) :: fresh(o)
      ensures State() == ControlTransfers.RunStage(old(State()), u, st, gap, t)
      ensures inner.done <==> |completed| > |old(completed)|
      ensures inner.done ==>
        |completed| == |old(completed)| + 1 && Shows(inner, completed[|completed| - 1]) && Tds(State().h) == 0
    {
      hide Valid, Controller.Footprint, Tds, Elapse, Await, UrbOk, StageLink, LinkAllowed, LinkInWorld;
      inner := StartStage(u, st, gap, t.key);
      ghost var _ := UrbWait(inner, t.fuel, t.key);
    }

    /** Up to the link of the stage. */
    method StartStage(u: ControlUrb, st: Stage, gap: nat, key: byte) returns (inner: Urb)
      requires Valid() && UrbOk(u) && Tds(State().h) == 0
      modifies this, hcd.Footprint(), board.Footprint()
      ensures Valid() && fresh(inner)
      ensures forall o | o in hcd.Footprint() && o !in old(hcd.Footprint()) :: fresh(o)
      ensures hcd.Urbs() == {inner} && !inner.done && Tds(State().h) == 1 && |completed| == |old(completed)|
      ensures State() == LinkInWorld(Elapse(old(State()), gap, key), StageLink(u, st))
      ensures |Elapse(old(State()), gap, key).completed| == |completed|
    {
      hide Valid, Controller.Footprint, State, Tds, Elapse, UrbOk, StageLink, LinkAllowed, LinkInWorld;
      StateFields();
      Pause(gap, key);
      StateFields();
      StageAllowed(u, st);
      inner := LinkNew(StageLink(u, st));
    }

    /** The local URB of a stage, linked. */
    method LinkNew(req: LinkReq) returns (inner: Urb)
      requires Valid() && LinkAllowed(State().h, req)
      modifies hcd.Footprint()
      ensures Valid() && fresh(inner)
      ensures forall o | o in hcd.Footprint() && o !in old(hcd.Footprint()) :: fresh(o)
      ensures hcd.Urbs() == old(hcd.Urbs()) + {inner} && !inner.done
      ensures State() == LinkInWorld(old(State()), req) && completed == old(completed)
      ensures Tds(State().h) == old(Tds(State().h)) + 1
    {
      hide Valid, Controller.Footprint, Tds, LinkAllowed, LinkInWorld, Controller.Valid, EpdList.Valid,
        Firmware.Board.Valid, BoardOk, HcdOk;
      Parts();
      inner := NewUrb(req.urb, req.urbLength);
      UrbApart(inner);
      Link(req, inner);
    }

    /** A URB of its own, known to nobody else yet. */
    method NewUrb(ref: UrbRef, bufferLength: nat) returns (urb: Urb)
      requires Valid()
      ensures Valid() && fresh(urb) && State() == old(State()) && hcd.Footprint() == old(hcd.Footprint())
      ensures hcd.Urbs() == old(hcd.Urbs()) && Tds(State().h) == old(Tds(State().h))
      ensures urb.ref == ref && urb.bufferLength == bufferLength && !urb.done
    {
      hide Controller.Valid, EpdList.Valid, Firmware.Board.Valid, Tds;
      urb := new Urb(ref, bufferLength, false);
    }

    /** urb_done. */
    method Finish(urb: Urb)
      requires Valid()
      modifies urb`done, urb`handlerRuns
      ensures Valid() && State() == old(State()) && hcd.Footprint() == old(hcd.Footprint())
      ensures urb.done && urb.handlerRuns == old(urb.handlerRuns) + (if urb.hasHandler then 1 else 0)
    {
      hide Controller.Valid, EpdList.Valid, Firmware.Board.Valid;
      UrbApart(urb);
      urb.Done();
    }

    /** The submitting thread is busy elsewhere for n iterations of the loop. */
    method Pause(n: nat, key: byte)
      requires Valid() && Tds(State().h) == 0
      modifies this, hcd.Footprint(), board.Footprint()
      ensures Valid() && Tds(State().h) == 0 && hcd.Urbs() == {} && hcd.Footprint() <= old(hcd.Footprint())
      ensures State() == Elapse(old(State()), n, key) && |completed| == |old(completed)|
    {
      hide Valid, Controller.Footprint, Tds, Elapse;
      Parts();
      Forget();
      Idle(n, key);
    }

    lemma {:induction false} StageAllowed(u: ControlUrb, st: Stage)
      requires UrbOk(u)
      ensures forall h: Hcd :: LinkAllowed(h, StageLink(u, st))
    {
    }

    /** hcd_gtd_link, called by another thread than the controller's. */
    method Link(req: LinkReq, urb: Urb)
      requires Valid() && LinkAllowed(State().h, req) && urb.ref == req.urb && urb.bufferLength == req.urbLength
      modifies hcd.Footprint()
      ensures Valid() && hcd.Urbs() == old(hcd.Urbs()) + {urb}
      ensures forall o | o in hcd.Footprint() && o !in old(hcd.Footprint()) :: fresh(o)
      ensures State() == LinkInWorld(old(State()), req) && completed == old(completed)
      ensures Tds(State().h) == old(Tds(State().h)) + 1
    {
      hide Controller.Valid, Firmware.Board.Valid, EpdList.Valid, BoardOk, HcdOk, Tds, LinkAllowed, HcdModel.Link;
      Parts();
      LinkCounts(hcd.Model(), req);
      hcd.GtdLink(req.addr, req.ep, req.dirIn, req.setup, req.toggle, req.mps, req.data, urb);
    }

    /** The control path of sys_urb_submit; `ok` tells whether every urb_wait came back. */
    method ControlSubmit(u: ControlUrb, urb: Urb, t: Timing) returns (ok: bool)
      requires Valid() && UrbOk(u) && Tds(State().h) == 0 && !urb.done
      modifies this, hcd.Footprint(), board.Footprint(), urb
      ensures Valid()
      ensures forall o | o in hcd.Footprint() && o !in old(hcd.Footprint()) :: fresh(o)
      ensures
        var s := Submit(old(State()), u, t);
        && State() == s.w && ok == s.done && urb.done == ok
        && (ok ==> urb.length == s.length && urb.data == s.data && Tds(State().h) == 0)
      ensures urb.handlerRuns == old(urb.handlerRuns) + (if ok && urb.hasHandler then 1 else 0)
    {
      hide Valid, Controller.Footprint, State, Tds, UrbOk, ControlTransfers.RunStage, SubmitRest;
      UrbApart(urb);
      StateFields();
      ok := false;
      var inner := RunStage(u, SetupStage, t.beforeSetup, t);
      StateFields();
      if inner.done {
        urb.length, urb.data := 0, u.data;
        ok := AfterSetup(u, urb, t);
      }
    }

    /** The part of sys_urb_submit after the SETUP stage. */
    method AfterSetup(u: ControlUrb, urb: Urb, t: Timing) returns (ok: bool)
      requires Valid() && UrbOk(u) && Tds(State().h) == 0 && !urb.done && urb.length == 0 && urb.data == u.data
      modifies this, hcd.Footprint(), board.Footprint(), urb
      ensures Valid()
      ensures forall o | o in hcd.Footprint() && o !in old(hcd.Footprint()) :: fresh(o)
      ensures
        var s := SubmitRest(old(State()), u, t);
        && State() == s.w && ok == s.done && urb.done == ok
        && (ok ==> urb.length == s.length && urb.data == s.data && Tds(State().h) == 0)
      ensures urb.handlerRuns == old(urb.handlerRuns) + (if ok && urb.hasHandler then 1 else 0)
    {
      hide Valid, Controller.Footprint, State, Tds, UrbOk, WLength, ControlTransfers.RunStage, SubmitStatus;
      UrbApart(urb);
      StateFields();
      if WLength(u) > 0 {
        ok := DataPart(u, urb, t);
        StateFields();
        if !ok {
          return;
        }
      }
      ok := AfterData(u, urb, t);
    }

    /** The data stage. */
    method DataPart(u: ControlUrb, urb: Urb, t: Timing) returns (ok: bool)
      requires Valid() && UrbOk(u) && Tds(State().h) == 0 && !urb.done
      modifies this, hcd.Footprint(), board.Footprint(), urb`length, urb`data
      ensures Valid()
      ensures forall o | o in hcd.Footprint() && o !in old(hcd.Footprint()) :: fresh(o)
      ensures State() == ControlTransfers.RunStage(old(State()), u, DataStage, t.beforeData, t)
      ensures ok <==> |completed| > |old(completed)|
      ensures ok ==>
        var c := completed[|completed| - 1]; urb.length == c.length && urb.data == c.td.buffer && Tds(State().h) == 0
    {
      hide Valid, Controller.Footprint, Tds, UrbOk, ControlTransfers.RunStage;
      UrbApart(urb);
      var inner := RunStage(u, DataStage, t.beforeData, t);
      ok := inner.done;
      if ok {
        urb.length, urb.data := inner.length, inner.data;
      }
    }

    /** The status stage, and urb_done. */
    method AfterData(u: ControlUrb, urb: Urb, t: Timing) returns (ok: bool)
      requires Valid() && UrbOk(u) && Tds(State().h) == 0 && !urb.done
      modifies this, hcd.Footprint(), board.Footprint(), urb
      ensures Valid()
      ensures forall o | o in hcd.Footprint() && o !in old(hcd.Footprint()) :: fresh(o)
      ensures urb.length == old(urb.length) && urb.data == old(urb.data)
      ensures
        var s := SubmitStatus(old(State()), u, old(urb.length), old(urb.data), t);
        && State() == s.w && ok == s.done && urb.done == ok && (ok ==> Tds(State().h) == 0)
        && urb.length == s.length && urb.data == s.data
      ensures urb.handlerRuns == old(urb.handlerRuns) + (if ok && urb.hasHandler then 1 else 0)
    {
      hide Valid, Controller.Footprint, State, Tds, UrbOk, ControlTransfers.RunStage;
      UrbApart(urb);
      StateFields();
      var inner := RunStage(u, StatusStage, t.beforeStatus, t);
      StateFields();
      ok := inner.done;
      if ok {
        Finish(urb);
      }
    }

    /** sys_urb_submit: three stages if there is a setup packet, otherwise one TD in the background. */
    method UrbSubmit(u: ControlUrb, ep: nat, dirIn: bool, urb: Urb, t: Timing) returns (ok: bool)
      requires Valid() && UrbOk(u) && !urb.done && urb.bufferLength == |u.data|
      requires u.setup != NO_SETUP ==> ep == 0 && Tds(State().h) == 0
      modifies this, hcd.Footprint(), board.Footprint(), urb
      ensures Valid()
      ensures forall o | o in hcd.Footprint() && o !in old(hcd.Footprint()) :: fresh(o)
      ensures u.setup != NO_SETUP ==>
        var s := Submit(old(State()), u, t);
        && State() == s.w && ok == s.done && urb.done == ok
        && (ok ==> urb.length == s.length && urb.data == s.data && Tds(State().h) == 0)
      ensures u.setup == NO_SETUP ==>
        && ok && !urb.done && hcd.Urbs() == old(hcd.Urbs()) + {urb}
        && State() == LinkInWorld(old(State()), LinkReq(u.addr, ep, dirIn, false, 2, u.mps, u.data, urb.ref, |u.data|))
    {
      hide Valid, Controller.Footprint, Tds, Submit, HcdModel.Link;
      UrbApart(urb);
      if u.setup != NO_SETUP {
        ok := ControlSubmit(u, urb, t);
      } else {
        Link(LinkReq(u.addr, ep, dirIn, false, 2, u.mps, u.data, urb.ref, urb.bufferLength), urb);
        ok := true;
      }
    }
  }
}
