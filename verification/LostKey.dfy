/** A run that loses a key: the second read of endpoint 1 has an empty buffer. */
module LostKey {
  import opened UsbTypes
  import opened HcdModel
  import opened HcdLoop
  import opened EventRing
  import opened DeviceModel
  import opened FirmwareModel
  import opened ControlDevice
  import opened Lockstep
  import opened ControlTransfers
  import opened Enumeration
  import opened DataToggles
  import opened DataRuns
  import opened DataRequests
  import opened DataStreams
  import HcdRuns

  /** A read of endpoint 1 at address 1, as sys_urb_submit links it. */
  function ReadLink(data: seq<byte>): LinkReq {
    LinkReq(1, 1, true, false, 2, 64, data, Outer(0), |data|)
  }

  /** A read of one byte and, once it has completed, a read of none. */
  function LosingRun(k1: byte, k2: byte): seq<DataOp> {
    [DataOp.LinkOp(ReadLink([0])), LoopOp(k1), LoopOp(k1), DataOp.LinkOp(ReadLink([])),
     LoopOp(k1), LoopOp(k1), LoopOp(k1), LoopOp(k1), LoopOp(k2)]
  }

  // ---------- one read ----------

  /** The bulk list holds at most the descriptor of endpoint 1. */
  predicate OneReader(l: seq<Epd>) {
    |l| <= 1 && (|l| == 1 ==> l[0].addr == 1 && l[0].ep == 1 && l[0].mps == 64)
  }

  /** A read of `size` bytes is the only TD. */
  predicate ReadPending(w: World, size: nat) {
    && OneReader(w.h.bulk) && |w.h.bulk| == 1 && |w.h.bulk[0].queue| == 1 && Eligible(w.h.bulk[0])
    && (var td := w.h.bulk[0].queue[0]; td.pid.In? && td.pos == 0 && |td.buffer| == size)
    && NoQueues(w.h.control) && w.h.done == [] && w.h.notify & NOTIFY_BULK != 0
    && HcdOk(w.h) && UniqueKeys(w.h.control) && Drained(w.d)
  }

  lemma {:induction false} ReadLinked(w: World, data: seq<byte>)
    requires Quiet(w) && OneReader(w.h.bulk)
    ensures
      var w' := LinkInWorld(w, ReadLink(data));
      ReadPending(w', |data|) && w'.phase == w.phase && w'.d == w.d && w'.f == w.f && w'.wire == w.wire
  {
    hide BoardOk, Drained;
    LinkKeepsOk(w.h, ReadLink(data));
    HcdRuns.SetBit(w.h.notify, NOTIFY_BULK);
  }

  lemma {:induction false} ReadSelected(w: World, size: nat)
    requires ReadPending(w, size)
    ensures FirstEligible(w.h.bulk, 0) == 0 && FirstEligible(w.h.control, 0) == |w.h.control|
  {
    NothingEligible(w.h.control);
  }

  /** Nothing happens to it before the next bulk attempt. */
  lemma {:induction false} ReadWaits(w: World, size: nat, key: byte)
    requires ReadPending(w, size) && w.phase != BulkPhase && w.phase != DonePhase
    ensures NextPacket(w).None?
    ensures var w' := LoopStep(w, key); ReadPending(w', size) && SameButTurn(w', w) && w'.phase == After(w.phase)
  {
    hide BoardOk, Drained, Transfer, Serve, UniqueKeys, AllOk;
    ReadSelected(w, size);
    HcdRuns.ClearBit(w.h.notify, NOTIFY_CONTROL);
    assert w.h.notify != 0 by { BulkBit(w.h.notify); }
    assert BoardOk(w.d) by { DrainedIs(w.d); }
    assert CanSend(w, Control);
  }

  lemma {:induction false} BulkBit(n: bv8)
    requires n & NOTIFY_BULK != 0
    ensures n != 0
  {
  }

  /** The bulk attempt sends it; one acknowledged byte at most, so it is over. */
  lemma {:induction false} ReadSends(w: World, size: nat, key: byte, t1: nat, t2: nat) returns (td: Td)
    requires ReadPending(w, size) && w.phase == BulkPhase && DeviceSide(w.f, w.d, t1, t2) && Reachable(w.d, 1)
    requires w.d.bdt[1].inn.cnt <= 1
    ensures AckedNext(w, 1)
    ensures
      var w' := LoopStep(w, key);
      && Retired(w', td) && OneReader(w'.h.bulk) && w'.phase == DonePhase && BoardOk(w'.d) && BoardOk(w.d)
      && w'.d.bdt[1].inn.cnt == 1 && ArmedKey(w'.d) == [key] && Reachable(w'.d, 1)
      && |w'.wire| == |w.wire| + 1 && w'.wire[..|w.wire|] == w.wire
      && (var s := w'.wire[|w.wire|];
          TookIn(s) && s.packet.size == size && s.reply.data == ArmedKey(w.d)[..Min(w.d.bdt[1].inn.cnt, size)])
  {
    hide Transfer, Serve, DevOk, DeviceSide, UniqueKeys, Drained;
    ReadSelected(w, size);
    assert BoardOk(w.d) by { SideDrained(w.f, w.d, t1, t2); }
    var e := w.h.bulk[0];
    var p := PacketOf(e);
    assert p == Packet(1, 1, true, p.pid, [], size) && !p.pid.PidSetup?;
    TransferBoard(w.d, p);
    var r := Transfer(w.d, p).1;
    KeyTaken(w.f, w.d, t1, t2, p, key);
    StaysReachable(w.f, w.d, t1, t2, p, key);
    var o := Absorb(e, r);
    ReadOver(e, r);
    td := o.retired.value.td;
    var w' := LoopStep(w, key);
    assert NextPacket(w) == Some(p);
    assert w'.h == Send(w.h, Bulk, true, r);
    SendKeepsOk(w.h, Bulk, true, r);
    HcdRuns.SetBit(w.h.notify, NOTIFY_DONE);
    assert w'.h.bulk == [o.epd];
    ServeDrains(w.f, w.d, p, key);
  }

  lemma {:induction false} ReadOver(e: Epd, r: Reply)
    requires EpdOk(e) && |e.queue| == 1 && e.queue[0].pid.In? && ReplyFits(PacketOf(e), r) && e.mps == 64
    requires r.Ack? && r.rlen <= 1
    ensures
      var o := Absorb(e, r);
      o.retired.Some? && o.epd.queue == [] && o.epd.addr == e.addr && o.epd.ep == e.ep && o.epd.mps == e.mps
  {
  }

  lemma {:induction false} StaysReachable(f: Fw, d: Dev, t1: nat, t2: nat, p: Packet, key: byte)
    requires DeviceSide(f, d, t1, t2) && DataPacket(p) && Welcome(d, p) && p.ep == 1 && d.bdt[1].inn.cnt <= 1
    ensures Transfer(d, p).1.Ack? && Transfer(d, p).1.rlen <= 1
    ensures Reachable(Serve(f, d, p, key).1, p.addr)
  {
    hide Drain, Unread, Post, DevOk;
    DrainedIs(d);
    TransferBoard(d, p);
    InServed1(f, d, t1, t2, p, key);
    PostToDrained(d.ring, ENDPOINT_IN);
    DrainOne(f, Transfer(d, p).0, ENDPOINT_IN, key);
  }

  // ---------- the run ----------

  lemma {:induction false} OneMore(w: World, ops: seq<DataOp>, op: DataOp)
    ensures op.LoopOp? ==> RunData(w, ops + [op]) == LoopStep(RunData(w, ops), op.key)
    ensures op.LinkOp? && LinkKnown(op.req) ==> RunData(w, ops + [op]) == LinkInWorld(RunData(w, ops), op.req)
    ensures Keys(w, ops + [op]) ==
            Keys(w, ops) + (if op.LoopOp? && AckedNext(RunData(w, ops), 1) then [op.key] else [])
  {
    hide AckedNext, LoopStep, LinkInWorld, LinkKnown;
    assert (ops + [op])[..|ops|] == ops;
  }

  /** After these operations the read is still pending, `left` control attempts before its bulk attempt. */
  predicate Waiting(w: World, ops: seq<DataOp>, phase: Phase, size: nat, keys: seq<byte>, wire: seq<Sent>, d: Dev) {
    var w' := RunData(w, ops);
    ReadPending(w', size) && w'.phase == phase && Keys(w, ops) == keys && w'.wire == wire && w'.d == d
  }

  lemma {:induction false} WaitsOn(w: World, ops: seq<DataOp>, phase: Phase, size: nat, keys: seq<byte>, wire: seq<Sent>,
                                   d: Dev, key: byte)
    requires Waiting(w, ops, phase, size, keys, wire, d) && phase != BulkPhase && phase != DonePhase
    ensures Waiting(w, ops + [LoopOp(key)], After(phase), size, keys, wire, d)
  {
    hide ReadPending, RunData, LoopStep, Keys;
    ReadWaits(RunData(w, ops), size, key);
    OneMore(w, ops, LoopOp(key));
  }

  /** From the link of a read, with a bulk attempt next, to its packet. */
  lemma {:induction false} ReadTaken(w: World, ops: seq<DataOp>, size: nat, key: byte) returns (td: Td)
    requires JustConfigured(w)
    requires ReadPending(RunData(w, ops), size) && RunData(w, ops).phase == BulkPhase && Reachable(RunData(w, ops).d, 1)
    requires |RunData(w, ops).d.bdt| == 3 && RunData(w, ops).d.bdt[1].inn.cnt <= 1
    ensures
      var w1, ops' := RunData(w, ops), ops + [LoopOp(key)];
      var w' := RunData(w, ops');
      && Keys(w, ops') == Keys(w, ops) + [key]
      && Retired(w', td) && OneReader(w'.h.bulk) && w'.phase == DonePhase && BoardOk(w'.d) && BoardOk(w1.d)
      && w'.d.bdt[1].inn.cnt == 1 && ArmedKey(w'.d) == [key] && Reachable(w'.d, 1)
      && |w'.wire| == |w1.wire| + 1 && w'.wire[..|w1.wire|] == w1.wire
      && (var s := w'.wire[|w1.wire|];
          TookIn(s) && s.packet.size == size && s.reply.data == ArmedKey(w1.d)[..Min(w1.d.bdt[1].inn.cnt, size)])
  {
    hide ReadPending, RunData, LoopStep, Keys, JustConfigured, InStep, HostToggle, DeviceToggle, Retired;
    RunStaysInStep(w, ops);
    var t1, t2 := DeviceToggle(w, ops, 1), DeviceToggle(w, ops, 2);
    InStepSide(RunData(w, ops), HostToggle(w, ops, 1), HostToggle(w, ops, 2), t1, t2);
    td := ReadSends(RunData(w, ops), size, key, t1, t2);
    OneMore(w, ops, LoopOp(key));
  }

  /** From the packet of the first read to the second one, with a bulk attempt next. */
  lemma {:induction false} SecondWaits(w: World, ops: seq<DataOp>, td: Td, key: byte)
    requires Retired(RunData(w, ops), td) && RunData(w, ops).phase == DonePhase && OneReader(RunData(w, ops).h.bulk)
    ensures
      var w1 := RunData(w, ops);
      Waiting(w, Later(ops, key), BulkPhase, 0, Keys(w, ops), w1.wire, w1.d)
  {
    hide ReadPending, RunData, LoopStep, Keys, Retired, Quiet, LinkInWorld;
    var w1 := RunData(w, ops);
    RetiredStep(w1, td, key);
    OneMore(w, ops, LoopOp(key));
    var ops1 := ops + [LoopOp(key)];
    var link := DataOp.LinkOp(ReadLink([]));
    assert !AckedNext(w1, 1);
    ReadLinked(RunData(w, ops1), []);
    OneMore(w, ops1, link);
    var ops2 := ops1 + [link];
    assert Keys(w, ops2) == Keys(w, ops) + [] + [];
    assert Waiting(w, ops2, Control0, 0, Keys(w, ops), w1.wire, w1.d);
    WaitsOn(w, ops2, Control0, 0, Keys(w, ops), w1.wire, w1.d, key);
    WaitsOn(w, ops2 + [LoopOp(key)], Control1, 0, Keys(w, ops), w1.wire, w1.d, key);
    WaitsOn(w, ops2 + [LoopOp(key)] + [LoopOp(key)], Control2, 0, Keys(w, ops), w1.wire, w1.d, key);
    WaitsOn(w, ops2 + [LoopOp(key)] + [LoopOp(key)] + [LoopOp(key)], Control3, 0, Keys(w, ops), w1.wire, w1.d, key);
  }

  /** The first read completes, the second is linked and four control attempts go by. */
  function Later(ops: seq<DataOp>, key: byte): seq<DataOp> {
    ops + [LoopOp(key)] + [DataOp.LinkOp(ReadLink([]))] + [LoopOp(key)] + [LoopOp(key)] + [LoopOp(key)] + [LoopOp(key)]
  }

  /** Two keys were served, the host got neither and one is still armed: the first key is lost. */
  lemma {:induction false} EmptyReadLosesKey(w: World, k1: byte, k2: byte)
    requires JustConfigured(w) && w.phase == BulkPhase
    ensures
      var ops := LosingRun(k1, k2);
      var w' := RunData(w, ops);
      && Polite(SET_CONFIGURATION, ops) && Keys(w, ops) == [k1, k2] && InBytes(Since(w, w')) == []
      && BoardOk(w'.d) && w'.d.bdt[1].inn.cnt == 1 && ArmedKey(w'.d) == [k2]
  {
    hide RunData, Keys, JustConfigured, Retired, ReadPending, DevOk, Reachable, Waiting, ReadLink, Since;
    var link := DataOp.LinkOp(ReadLink([0]));
    StartIs(w);
    ReadKnown([0]);
    OneMore(w, [], link);
    ReadLinked(w, [0]);
    var ops1 := [] + [link];
    var w1 := RunData(w, ops1);
    var td := ReadTaken(w, ops1, 1, k1);
    var ops2 := ops1 + [LoopOp(k1)];
    SecondWaits(w, ops2, td, k1);
    var ops3 := Later(ops2, k1);
    assert Waiting(w, ops3, BulkPhase, 0, Keys(w, ops2), RunData(w, ops2).wire, RunData(w, ops2).d);
    WaitingIs(w, ops3, 0, Keys(w, ops2), RunData(w, ops2).wire, RunData(w, ops2).d);
    var _ := ReadTaken(w, ops3, 0, k2);
    var ops := ops3 + [LoopOp(k2)];
    assert ops == LosingRun(k1, k2);
    var w' := RunData(w, ops);
    NothingGot(w, RunData(w, ops2), w');
    LosingIsPolite(k1, k2);
  }

  lemma {:induction false} NothingGot(w: World, w1: World, w': World)
    requires |w1.wire| == |w.wire| + 1 && w1.wire[..|w.wire|] == w.wire
    requires |w'.wire| == |w1.wire| + 1 && w'.wire[..|w1.wire|] == w1.wire
    requires w1.wire[|w.wire|].reply.Ack? && w1.wire[|w.wire|].reply.data == []
    requires w'.wire[|w1.wire|].reply.Ack? && w'.wire[|w1.wire|].reply.data == []
    ensures InBytes(Since(w, w')) == []
  {
    var s1, s2 := w1.wire[|w.wire|], w'.wire[|w1.wire|];
    assert Since(w, w') == [] + [s1] + [s2];
    BusGrows([], s1);
    BusGrows([] + [s1], s2);
  }

  lemma {:induction false} ReadKnown(data: seq<byte>)
    ensures LinkKnown(ReadLink(data))
  {
  }

  lemma {:induction false} StartIs(w: World)
    requires JustConfigured(w)
    ensures Quiet(w) && OneReader(w.h.bulk) && BoardOk(w.d) && w.d.bdt[1].inn.cnt == 0 && Reachable(w.d, 1)
    ensures RunData(w, []) == w && Keys(w, []) == []
  {
  }

  lemma {:induction false} WaitingIs(w: World, ops: seq<DataOp>, size: nat, keys: seq<byte>, wire: seq<Sent>, d: Dev)
    requires Waiting(w, ops, BulkPhase, size, keys, wire, d)
    ensures var w' := RunData(w, ops);
      ReadPending(w', size) && w'.phase == BulkPhase && Keys(w, ops) == keys && w'.wire == wire && w'.d == d
  {
  }

  lemma {:induction false} LosingIsPolite(k1: byte, k2: byte)
    ensures Polite(SET_CONFIGURATION, LosingRun(k1, k2))
  {
    hide SetupLinked;
    var ops := LosingRun(k1, k2);
    forall k | 0 <= k < |ops| && ops[k].LinkOp? ensures PoliteLink(SET_CONFIGURATION, ops[k].req, SetupLinked(ops[..k])) {
      assert DataLink(ops[k].req);
    }
  }
}
