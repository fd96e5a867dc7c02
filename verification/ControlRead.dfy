/** GET_DESCRIPTOR end to end: exactly when it completes, and what the host has then. */
module ControlRead {
  import opened UsbTypes
  import opened HcdModel
  import opened HcdLoop
  import opened EventRing
  import opened DeviceModel
  import opened FirmwareModel
  import opened ControlDevice
  import opened Lockstep
  import opened ControlTransfers

  /** The system is quiet, the device is at this address and can take a SETUP packet. */
  predicate ReadyAt(w: World, addr: nat) {
    Quiet(w) && Armed0(w.d) && w.d.u1addr == addr
  }

  /** A request for a descriptor the firmware has, with a data stage. */
  predicate ReadRequest(u: ControlUrb) {
    UrbOk(u) && ToHost(u) && u.setup[1] == GET_DESCRIPTOR && HasDescriptor(u.setup[3]) && WLength(u) >= 1
  }

  /** The bytes the device offers: the descriptor, cut to wLength. */
  function Offered(u: ControlUrb): (s: seq<byte>)
    requires ReadRequest(u)
    ensures |s| <= BUF_SIZE
  {
    var dsc := Descriptor(u.setup[3]);
    dsc[..Min(|dsc|, WLength(u))]
  }

  /** The offer fills the buffer, or ends on a packet the host recognises as short. */
  predicate EndsTransfer(w: World, u: ControlUrb)
    requires ReadRequest(u)
  {
    |Offered(u)| >= |u.data| || |Offered(u)| < KnownMps(w.h.control, u.addr).GetOr(u.mps)
  }

  /** Endpoint 0 as process_control_transfer leaves it armed for the next SETUP. */
  const ARMED_SETUP: Entry := Entry(BUF_SIZE, TRN_SETUP | UOWN, Buf(EP0_OUT))

  /** After the SETUP the descriptor is armed on endpoint 0 IN. */
  lemma {:induction false} DescriptorArmed(f: Fw, d1: Dev, d: Dev, u: ControlUrb)
    requires Drained(d) && d.usben && ReadRequest(u) && SetupSeen(d1, d, u.setup)
    ensures
      var (f', d') := ProcessSetup(f, d1);
      && f'.state == StateFor(u.setup[3]) && f' == f.(state := f'.state)
      && Armed0In(d', Offered(u)) && d'.u1addr == d.u1addr && d'.usben
      && d'.bdt[1] == d.bdt[1] && d'.bdt[2] == d.bdt[2] && |d'.bdt| == 3
  {
    hide DevOk;
    var req := d1.bufs[EP0_OUT];
    assert req[1] == u.setup[1] && req[3] == u.setup[3] && req[6] == u.setup[6] && req[7] == u.setup[7];
    var dsc := Descriptor(u.setup[3]);
    var d' := ProcessSetup(f, d1).1;
    assert d'.bufs[EP0_IN] == dsc + d1.bufs[EP0_IN][|dsc|..];
    assert d'.bufs[EP0_IN][..|Offered(u)|] == Offered(u);
  }

  /** What a completed read leaves. */
  ghost predicate ReadDone(s: Submitted, w: World, u: ControlUrb)
    requires ReadRequest(u) && Quiet(w)
  {
    var n := Min(|Offered(u)|, |u.data|);
    && s.done && s.length == n && s.data == Offered(u)[..n] + u.data[n..]
    && ReadyAt(s.w, u.addr) && s.w.d.bdt[0].out == ARMED_SETUP && s.w.f == w.f.(state := CtsSetup)
    && s.w.d.bdt[1] == w.d.bdt[1] && s.w.d.bdt[2] == w.d.bdt[2]
    && s.w.wire == w.wire + [
      Sent(SetupPacket(u.addr, u.setup), Ack(8, u.setup), u.addr),
      Sent(InPacket(u.addr, |u.data|), Ack(n, Offered(u)[..n]), u.addr),
      Sent(StatusOutPacket(u.addr), Ack(0, []), u.addr)]
    && Known(s.w, w, u)
  }

  /** Packet sizes of endpoint 0 descriptors: the first link to an address fixes its own. */
  ghost predicate Known(w': World, w: World, u: ControlUrb) {
    && w'.h.bulk == w.h.bulk
    && forall a: nat :: KnownMps(w'.h.control, a) ==
                        if a == u.addr then Some(KnownMps(w.h.control, a).GetOr(u.mps)) else KnownMps(w.h.control, a)
  }

  /** A descriptor read whose offer ends the transfer completes: the buffer holds exactly the descriptor prefix,
      urb->length is its length, and the device is ready for the next request. */
  lemma {:induction false} ReadCompletes(w: World, u: ControlUrb, t: Timing)
    requires ReadyAt(w, u.addr) && ReadRequest(u) && EndsTransfer(w, u) && t.fuel >= 8
    ensures ReadDone(Submit(w, u, t), w, u)
  {
    hide Quiet, KnownMps, RunStage, ProcessSetup, Armed0In, SetupSeen, Descriptor;
    assert Drained(w.d) by { QuietDrained(w); }
    var d1 := SetupRuns(w, u, t);
    DescriptorArmed(w.f, d1, w.d, u);
    var w1 := RunStage(w, u, SetupStage, t.beforeSetup, t);
    var d2 := InRuns(w1, u, DataStage, Offered(u), t.beforeData, t);
    var w2 := RunStage(w1, u, DataStage, t.beforeData, t);
    assert w2.d.bdt[0].out == Entry(BUF_SIZE, TRN_DATA1_OUT | UOWN, Buf(EP0_OUT)) && w2.f.state == CtsAckIn;
    var d3 := StatusOutRuns(w2, u, t);
    var w3 := RunStage(w2, u, StatusStage, t.beforeStatus, t);
    assert |w1.completed| == |w.completed| + 1 && |w2.completed| == |w1.completed| + 1;
    ReadWire(w, w1, w2, w3, u);
  }

  lemma {:induction false} ReadWire(w: World, w1: World, w2: World, w3: World, u: ControlUrb)
    requires ReadRequest(u)
    requires w1.wire == w.wire + [Sent(SetupPacket(u.addr, u.setup), Ack(8, u.setup), u.addr)]
    requires var n := Min(|Offered(u)|, |u.data|);
      w2.wire == w1.wire + [Sent(InPacket(u.addr, |u.data|), Ack(n, Offered(u)[..n]), u.addr)]
    requires w3.wire == w2.wire + [Sent(StatusOutPacket(u.addr), Ack(0, []), u.addr)]
    ensures var n := Min(|Offered(u)|, |u.data|);
      w3.wire == w.wire + [
        Sent(SetupPacket(u.addr, u.setup), Ack(8, u.setup), u.addr),
        Sent(InPacket(u.addr, |u.data|), Ack(n, Offered(u)[..n]), u.addr),
        Sent(StatusOutPacket(u.addr), Ack(0, []), u.addr)]
  {
  }

  // ---------- the reads that never complete ----------

  /** An IN TD waits on endpoint i, and the device will not give it anything. */
  predicate Starving(w: World, i: nat) {
    && Pending(w, i) && w.h.control[i].queue[0].pid.In?
    && w.d.usben && !w.d.pktdis && w.d.u1addr == w.h.control[i].addr && !Owned(w.d.bdt[0].inn)
  }

  /** A NAK changes nothing but the phase of the loop and the history of the TD. */
  lemma {:induction false} StarvingStep(w: World, i: nat, key: byte)
    requires Starving(w, i)
    ensures Starving(LoopStep(w, key), i) && LoopStep(w, key).completed == w.completed
  {
    hide DevOk, Post, FirstEligible, Drain;
    if AttemptOf(w.phase) == Sending(Control) {
      PendingSends(w, i, key);
      var p := PendingPacket(w, i);
      assert Transfer(w.d, p) == (w.d, Nak);
      DrainNone(w.f, w.d, key);
      PendingSelected(w, i);
      AbsorbKeepsOk(w.h.control[i], Nak);
    } else {
      PendingWaits(w, i, key);
    }
  }

  lemma {:induction false} StarvingForever(w: World, i: nat, n0: nat, fuel: nat, key: byte)
    requires Starving(w, i) && |w.completed| == n0
    ensures |Await(w, n0, fuel, key).completed| == n0
    decreases fuel
  {
    hide Starving, LoopStep;
    if fuel > 0 {
      StarvingStep(w, i, key);
      StarvingForever(LoopStep(w, key), i, n0, fuel - 1, key);
    }
  }

  /** The data stage of a read whose offer neither fills the buffer nor is short: acknowledged, but not retired. */
  lemma {:induction false} DataStageStarves(w: World, u: ControlUrb, t: Timing)
    requires Quiet(w) && ReadRequest(u) && t.fuel >= 8 && w.d.u1addr == u.addr
    requires Armed0In(w.d, Offered(u)) && !EndsTransfer(w, u) && w.f.state == StateFor(u.setup[3])
    ensures |RunStage(w, u, DataStage, t.beforeData, t).completed| == |w.completed|
  {
    hide Quiet, Serve, StageOutcome, StageEpd, Transfer, KnownMps, Armed0In, ProcessStage, Await, LinkInWorld,
      Descriptor, Pending, PendingReply, PendingOutcome, Starving, LoopStep;
    QuietElapse(w, t.beforeData, t.key);
    var w0 := Elapse(w, t.beforeData, t.key);
    var req := StageLink(u, DataStage);
    assert Drained(w0.d) by { QuietDrained(w0); }
    InStagePacket(w0, u, DataStage);
    var d1 := InServed(w0.f, w0.d, Offered(u), |req.data|, u.addr, t.key);
    assert StageReply(w0, req) == Transfer(w0.d, InPacket(u.addr, |u.data|)).1;
    InAckOutcome(w0, req);
    var i := StagePending(w0, req);
    var wl := LinkInWorld(w0, req);
    var w1 := PendingReaches(wl, i, |w.completed|, t.fuel, t.key);
    SameStage(w1, w0, req, i);
    PendingSends(w1, i, t.key);
    StageDeviceFact(w0.f, d1);
    assert w1.d.u1addr == w1.h.control[i].addr && w1.d.usben && !w1.d.pktdis by { StageEpdOk(w0, req); InReachable(w, u); }
    NowStarving(w1, i, t.key, d1);
    var left := t.fuel - ToControl(wl.phase);
    AwaitOnce(w1, |w.completed|, left, t.key);
    StarvingForever(AfterPacket(w1, i, t.key), i, |w.completed|, left - 1, t.key);
  }

  lemma {:induction false} InReachable(w: World, u: ControlUrb)
    requires ReadRequest(u) && Armed0In(w.d, Offered(u))
    ensures w.d.usben && !w.d.pktdis
  {
  }

  /** The packet, reply and outcome of a linked stage do not depend on where the loop stands. */
  lemma {:induction false} SameStage(w1: World, w0: World, req: LinkReq, i: nat)
    requires Quiet(w0) && StageReq(w0, req) && Pending(w1, i)
    requires w1.h.control[i] == StageEpd(w0, req) && w1.d == w0.d
    ensures PendingPacket(w1, i) == StagePacket(w0, req) && PendingReply(w1, i) == StageReply(w0, req)
    ensures PendingOutcome(w1, i) == StageOutcome(w0, req)
    ensures w1.h.control[i].queue == [NewTd(w0.h.nextId, req)]
  {
    hide Absorb, Transfer, PacketOf;
    StageEpdOk(w0, req);
  }

  lemma {:induction false} AwaitOnce(w: World, n0: nat, fuel: nat, key: byte)
    requires fuel > 0 && |w.completed| <= n0
    ensures Await(w, n0, fuel, key) == Await(LoopStep(w, key), n0, fuel - 1, key)
  {
  }

  /** After a stage event the IN entry of endpoint 0 stays as it is, and the device reachable at its address,
      unless SET_ADDRESS is being acknowledged. */
  lemma {:induction false} StageDeviceFact(f: Fw, d: Dev)
    requires BoardOk(d)
    ensures var d' := ProcessStage(f, d).1;
      && |d'.bdt| == 3 && d'.bdt[0].inn == d.bdt[0].inn && d'.usben == d.usben && (!d.pktdis ==> !d'.pktdis)
      && (f.state != CtsAckAd ==> d'.u1addr == d.u1addr)
  {
  }

  lemma {:induction false} NowStarving(w: World, i: nat, key: byte, d1: Dev)
    requires Pending(w, i) && PendingReply(w, i).Ack? && w.h.control[i].queue[0].pid.In?
    requires PendingOutcome(w, i).retired.None? && w.d.usben && !w.d.pktdis && w.d.u1addr == w.h.control[i].addr
    requires BoardOk(d1) && Serve(w.f, w.d, PendingPacket(w, i), key) == ProcessStage(w.f, d1)
    requires var d' := ProcessStage(w.f, d1).1;
      |d'.bdt| > 0 && !Owned(d'.bdt[0].inn) && d'.usben && !d'.pktdis && d'.u1addr == w.d.u1addr
    ensures Starving(AfterPacket(w, i, key), i) && AfterPacket(w, i, key).completed == w.completed
  {
    hide Transfer, PacketOf, TdOk, Serve, BoardOk, ProcessStage;
    assert BoardOk(w.d);
    var e, r := w.h.control[i], PendingReply(w, i);
    PendingSelected(w, i);
    AbsorbKeepsOk(e, r);
    ServeDrains(w.f, w.d, PendingPacket(w, i), key);
  }

  /** A GET_DESCRIPTOR transfer completes if and only if what the device offers fills the buffer or is shorter than the
      packet size of the host's endpoint descriptor; otherwise urb_wait never comes back, however long it is given. */
  lemma {:induction false} ReadCompletesIff(w: World, u: ControlUrb, t: Timing)
    requires ReadyAt(w, u.addr) && ReadRequest(u) && t.fuel >= 8
    ensures Submit(w, u, t).done <==> EndsTransfer(w, u)
  {
    hide Quiet, KnownMps, RunStage, ProcessSetup, Armed0In, SetupSeen, Descriptor;
    if EndsTransfer(w, u) {
      ReadCompletes(w, u, t);
    } else {
      assert Drained(w.d) by { QuietDrained(w); }
      var d1 := SetupRuns(w, u, t);
      DescriptorArmed(w.f, d1, w.d, u);
      DataStageStarves(RunStage(w, u, SetupStage, t.beforeSetup, t), u, t);
    }
  }

  /** With wLength equal to the buffer length, as sys.c and USB/IP hosts send it: a read of at most the descriptor's length
      always completes; a longer one if and only if the descriptor is shorter than the packet size. */
  lemma {:induction false} ReadOfBufferLength(w: World, u: ControlUrb, t: Timing)
    requires ReadyAt(w, u.addr) && ReadRequest(u) && t.fuel >= 8 && WLength(u) == |u.data|
    ensures
      var dsc, mps := Descriptor(u.setup[3]), KnownMps(w.h.control, u.addr).GetOr(u.mps);
      var s := Submit(w, u, t);
      && (s.done <==> |u.data| <= |dsc| || |dsc| < mps)
      && (s.done ==> s.length == Min(|u.data|, |dsc|) <= |s.data| && s.data[..s.length] == dsc[..s.length])
  {
    ReadCompletesIff(w, u, t);
    if EndsTransfer(w, u) {
      ReadCompletes(w, u, t);
    }
  }
}
