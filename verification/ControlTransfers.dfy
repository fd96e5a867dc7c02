/** sys_urb_submit on endpoint 0 against the firmware: whole control transfers in lockstep,
    with any number of idle loop iterations between the stages. */
module ControlTransfers {
  import opened UsbTypes
  import opened HcdModel
  import opened ControlStages
  import opened HcdLoop
  import opened EventRing
  import opened DeviceModel
  import opened FirmwareModel
  import opened ControlDevice
  import opened Lockstep

  /** A URB with a setup packet: `data` is its buffer. */
  datatype ControlUrb = ControlUrb(addr: nat, mps: nat, setup: seq<byte>, data: seq<byte>)

  predicate UrbOk(u: ControlUrb) {
    u.addr <= 127 && u.mps <= 1024 && |u.setup| == SETUP_SIZE
  }

  predicate ToHost(u: ControlUrb)
    requires UrbOk(u)
  {
    DeviceToHost(u.setup)
  }

  function WLength(u: ControlUrb): nat
    requires UrbOk(u)
  {
    LengthOf(u.setup)
  }

  function StageLink(u: ControlUrb, st: Stage): LinkReq
    requires UrbOk(u)
  {
    StageLinkOf(u.addr, 0, u.mps, u.setup, u.data, 0, st)
  }

  /** The timing of one transfer: idle iterations before each stage, and how long urb_wait is allowed to take. */
  datatype Timing = Timing(beforeSetup: nat, beforeData: nat, beforeStatus: nat, fuel: nat, key: byte)

  /** Link one stage and wait for it. */
  function RunStage(w: World, u: ControlUrb, st: Stage, gap: nat, t: Timing): World
    requires UrbOk(u)
  {
    var w0 := Elapse(w, gap, t.key);
    Await(LinkInWorld(w0, StageLink(u, st)), |w0.completed|, t.fuel, t.key)
  }

  /** `done` tells whether every urb_wait came back; `length` and `data` are urb->length and the buffer. */
  datatype Submitted = Submitted(w: World, done: bool, length: int, data: seq<byte>)

  function SubmitStatus(w: World, u: ControlUrb, length: int, data: seq<byte>, t: Timing): Submitted
    requires UrbOk(u)
  {
    var w1 := RunStage(w, u, StatusStage, t.beforeStatus, t);
    Submitted(w1, |w1.completed| > |w.completed|, length, data)
  }

  /** The part after the SETUP stage. */
  function SubmitRest(w1: World, u: ControlUrb, t: Timing): Submitted
    requires UrbOk(u)
  {
    if WLength(u) == 0 then SubmitStatus(w1, u, 0, u.data, t)
    else
      var w2 := RunStage(w1, u, DataStage, t.beforeData, t);
      if |w2.completed| <= |w1.completed| then Submitted(w2, false, 0, u.data)
      else
        var c := w2.completed[|w2.completed| - 1];
        SubmitStatus(w2, u, c.length, c.td.buffer, t)
  }

  /** The control path of sys_urb_submit. */
  function Submit(w: World, u: ControlUrb, t: Timing): Submitted
    requires UrbOk(u)
  {
    var w1 := RunStage(w, u, SetupStage, t.beforeSetup, t);
    if |w1.completed| <= |w.completed| then Submitted(w1, false, 0, u.data) else SubmitRest(w1, u, t)
  }

  // ---------- the packet and outcome of each stage ----------

  lemma {:induction false} SetupStagePacket(w: World, u: ControlUrb)
    requires Quiet(w) && UrbOk(u)
    ensures StageReq(w, StageLink(u, SetupStage)) && StagePacket(w, StageLink(u, SetupStage)) == SetupPacket(u.addr, u.setup)
  {
    StageEpdOk(w, StageLink(u, SetupStage));
  }

  lemma {:induction false} InStagePacket(w: World, u: ControlUrb, st: Stage)
    requires Quiet(w) && UrbOk(u) && !st.SetupStage? && StageLink(u, st).dirIn
    ensures StageReq(w, StageLink(u, st)) && StagePacket(w, StageLink(u, st)) == InPacket(u.addr, |StageLink(u, st).data|)
  {
    StageEpdOk(w, StageLink(u, st));
  }

  lemma {:induction false} StatusOutStagePacket(w: World, u: ControlUrb)
    requires Quiet(w) && UrbOk(u) && ToHost(u)
    ensures StageReq(w, StageLink(u, StatusStage)) && StagePacket(w, StageLink(u, StatusStage)) == StatusOutPacket(u.addr)
  {
    StageEpdOk(w, StageLink(u, StatusStage));
  }

  /** Acknowledged whole, a SETUP or an empty status stage retires. */
  lemma {:induction false} WholeAckRetires(w: World, req: LinkReq)
    requires Quiet(w) && StageReq(w, req) && StageReply(w, req).Ack? && StageReply(w, req).rlen == |req.data|
    ensures StageOutcome(w, req).retired.Some?
  {
    StageEpdOk(w, req);
  }

  /** An IN stage of B bytes that gets n bytes back: it retires exactly when full or ended by a short packet. */
  lemma {:induction false} InAckOutcome(w: World, req: LinkReq)
    requires Quiet(w) && StageReq(w, req) && req.dirIn && !req.setup && req.toggle == 1 && StageReply(w, req).Ack?
    ensures
      var r, o := StageReply(w, req), StageOutcome(w, req);
      && (o.retired.Some? <==> r.rlen >= |req.data| || r.rlen < KnownMps(w.h.control, req.addr).GetOr(req.mps))
      && (o.retired.Some? ==>
            var td := o.retired.value.td;
            td.pos == r.rlen && td.buffer == r.data + req.data[r.rlen..] && td.urbLength == req.urbLength)
      && (o.retired.None? ==> |o.epd.queue| == 1 && o.epd.queue[0].pid.In? && Eligible(o.epd))
  {
    StageEpdOk(w, req);
    assert [] + StageReply(w, req).data == StageReply(w, req).data;
  }

  // ---------- the stages ----------

  /** What every completed stage leaves, relative to the world before it. */
  ghost predicate Progressed(w': World, w: World, u: ControlUrb, p: Packet, r: Reply) {
    && Quiet(w') && |w'.completed| == |w.completed| + 1 && w.completed <= w'.completed
    && w'.wire == w.wire + [Sent(p, r, w.d.u1addr)]
    && (forall a: nat :: KnownMps(w'.h.control, a) ==
                         if a == u.addr then Some(KnownMps(w.h.control, a).GetOr(u.mps)) else KnownMps(w.h.control, a))
    && w'.h.bulk == w.h.bulk
  }

  lemma {:induction false} RunCompletes(w: World, u: ControlUrb, st: Stage, gap: nat, t: Timing) returns (w0: World)
    requires Quiet(w) && UrbOk(u) && t.fuel >= 8
    requires StageReq(w, StageLink(u, st)) && StageOutcome(w, StageLink(u, st)).retired.Some?
    ensures
      var req, w' := StageLink(u, st), RunStage(w, u, st, gap, t);
      && Quiet(w0) && SameButTurn(w0, w)
      && Progressed(w', w, u, StagePacket(w, req), StageReply(w, req))
      && w'.completed[|w.completed|].td.pos == StageOutcome(w, req).retired.value.td.pos
      && w'.completed[|w.completed|].td.buffer == StageOutcome(w, req).retired.value.td.buffer
      && w'.completed[|w.completed|] == Complete(w'.completed[|w.completed|].td)
      && w'.completed[|w.completed|].td.urbLength == StageOutcome(w, req).retired.value.td.urbLength
      && (w'.f, w'.d) == Serve(w.f, w.d, StagePacket(w, req), t.key)
  {
    hide Quiet, Serve, Absorb, PacketOf, KnownMps, Await, LinkInWorld;
    QuietElapse(w, gap, t.key);
    w0 := Elapse(w, gap, t.key);
    var req := StageLink(u, st);
    assert StageEpd(w0, req) == StageEpd(w, req);
    StageCompletes(w0, req, t.fuel, t.key);
  }

  lemma {:induction false} SetupRuns(w: World, u: ControlUrb, t: Timing) returns (d1: Dev)
    requires Quiet(w) && UrbOk(u) && t.fuel >= 8 && Armed0(w.d) && w.d.u1addr == u.addr
    ensures
      var w' := RunStage(w, u, SetupStage, t.beforeSetup, t);
      && Progressed(w', w, u, SetupPacket(u.addr, u.setup), Ack(8, u.setup))
      && SetupSeen(d1, w.d, u.setup) && (w'.f, w'.d) == ProcessSetup(w.f, d1)
  {
    hide Quiet, Serve, StageOutcome, Transfer, KnownMps, RunStage, Progressed, SetupSeen;
    assert Drained(w.d) by { QuietDrained(w); }
    SetupStagePacket(w, u);
    d1 := SetupServed(w.f, w.d, u.setup, u.addr, t.key);
    WholeAckRetires(w, StageLink(u, SetupStage));
    var _ := RunCompletes(w, u, SetupStage, t.beforeSetup, t);
  }

  lemma {:induction false} QuietDrained(w: World)
    requires Quiet(w)
    ensures Drained(w.d)
  {
  }

  /** The data stage of a read, or the status stage of a write, when it retires. */
  lemma {:induction false} InRuns(w: World, u: ControlUrb, st: Stage, bytes: seq<byte>, gap: nat, t: Timing) returns (d1: Dev)
    requires Quiet(w) && UrbOk(u) && t.fuel >= 8 && w.d.u1addr == u.addr && |bytes| <= BUF_SIZE
    requires !st.SetupStage? && StageLink(u, st).dirIn && Armed0In(w.d, bytes)
    requires |bytes| >= |StageLink(u, st).data| || |bytes| < KnownMps(w.h.control, u.addr).GetOr(u.mps)
    ensures
      var req, n := StageLink(u, st), Min(|bytes|, |StageLink(u, st).data|);
      var w' := RunStage(w, u, st, gap, t);
      && Progressed(w', w, u, InPacket(u.addr, |req.data|), Ack(n, bytes[..n]))
      && w'.completed[|w.completed|].td.buffer == bytes[..n] + req.data[n..]
      && w'.completed[|w.completed|].length == n
      && Drained(d1) && (w'.f, w'.d) == ProcessStage(w.f, d1)
      && d1 == w.d.(bdt := d1.bdt, ring := d1.ring) && |d1.bdt| == 3 && d1.bdt[0].out == w.d.bdt[0].out
      && d1.bdt[1] == w.d.bdt[1] && d1.bdt[2] == w.d.bdt[2]
  {
    hide Quiet, Serve, StageOutcome, Transfer, KnownMps, RunStage, Progressed, Armed0In, ProcessStage;
    assert Drained(w.d) by { QuietDrained(w); }
    var req := StageLink(u, st);
    InStagePacket(w, u, st);
    d1 := InServed(w.f, w.d, bytes, |req.data|, u.addr, t.key);
    InAckOutcome(w, req);
    var _ := RunCompletes(w, u, st, gap, t);
  }

  lemma {:induction false} StatusOutRuns(w: World, u: ControlUrb, t: Timing) returns (d1: Dev)
    requires Quiet(w) && UrbOk(u) && t.fuel >= 8 && ToHost(u) && w.d.u1addr == u.addr && w.d.usben && !w.d.pktdis
    requires |w.d.bdt| > 0 && w.d.bdt[0].out == Entry(BUF_SIZE, TRN_DATA1_OUT | UOWN, Buf(EP0_OUT))
    ensures
      var w' := RunStage(w, u, StatusStage, t.beforeStatus, t);
      && Progressed(w', w, u, StatusOutPacket(u.addr), Ack(0, []))
      && Drained(d1) && (w'.f, w'.d) == ProcessStage(w.f, d1)
      && d1 == w.d.(bdt := d1.bdt, ring := d1.ring) && |d1.bdt| == 3
      && d1.bdt[1] == w.d.bdt[1] && d1.bdt[2] == w.d.bdt[2]
  {
    hide Quiet, Serve, StageOutcome, Transfer, KnownMps, RunStage, Progressed, ProcessStage;
    assert Drained(w.d) by { QuietDrained(w); }
    StatusOutStagePacket(w, u);
    d1 := StatusOutServed(w.f, w.d, u.addr, t.key);
    WholeAckRetires(w, StageLink(u, StatusStage));
    var _ := RunCompletes(w, u, StatusStage, t.beforeStatus, t);
  }
}
