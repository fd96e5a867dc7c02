/** SET_ADDRESS and SET_CONFIGURATION without lockstep: the packets of the two stages and the rounds of the firmware's main
    loop interleave in any way. The new address is never in force before the status packet was acknowledged. */
module InterleavedWrite {
  import opened UsbTypes
  import opened HcdModel
  import opened EventRing
  import opened DeviceModel
  import opened FirmwareModel
  import opened ControlDevice
  import opened ControlStages
  import opened ControlTransfers
  import opened ControlRead
  import opened Enumeration
  import opened InterleavedRead

  // ---------- the device during the request ----------

  predicate SameAddress(d: Dev, d0: Dev) {
    BoardOk(d) && !d.reset && d.usben && d.u1addr == d0.u1addr
  }

  predicate ConfigurationApplied(d: Dev, u: ControlUrb)
    requires WriteRequest(u)
  {
    u.setup[1] == SET_CONFIGURATION ==> DataEndpointsArmed(d)
  }

  /** The firmware has served the request; the empty status packet is armed. */
  ghost predicate Applied(f: Fw, d: Dev, f0: Fw, d0: Dev, u: ControlUrb)
    requires WriteRequest(u)
  {
    && SameAddress(d, d0) && Drained(d) && f == FwAfter(f0, u) && Armed0In(d, []) && TakesSetup(d)
    && ConfigurationApplied(d, u)
  }

  /** The status packet has gone; its event waits for the firmware. */
  ghost predicate StatusGone(f: Fw, d: Dev, f0: Fw, d0: Dev, u: ControlUrb)
    requires WriteRequest(u)
  {
    && SameAddress(d, d0) && !d.pktdis && f == FwAfter(f0, u) && TakesSetup(d) && Unread(d.ring) == [0x80]
    && ConfigurationApplied(d, u)
  }

  /** The firmware has seen the status packet go. */
  ghost predicate Over(f: Fw, d: Dev, f0: Fw, u: ControlUrb)
    requires WriteRequest(u)
  {
    Drained(d) && Armed0(d) && d.u1addr == AddressAfter(u) && f == FwAfter(f0, u) && ConfigurationApplied(d, u)
  }

  lemma {:induction false} ServesRequest(f0: Fw, d: Dev, d0: Dev, u: ControlUrb, key: byte)
    requires BoardOk(d0) && WriteRequest(u) && SetupPending(d, d0, u.setup)
    ensures var (f', d') := Round(f0, d, key); Applied(f', d', f0, d0, u)
  {
    hide DevOk, Unread, Round;
    RingIsOk(d);
    ServingRound(f0, d, key);
    var d1 := d.(ring := Advanced(d.ring));
    GetTakesOldest(d.ring);
    GetTakesOldest(d1.ring);
    var req := d1.bufs[EP0_OUT];
    assert req[1] == u.setup[1] && req[2] == u.setup[2];
    DispatchOk(f0, d1, 0, key);
  }

  lemma {:induction false} StatusInGoes(f: Fw, d: Dev, f0: Fw, d0: Dev, u: ControlUrb)
    requires WriteRequest(u) && d0.u1addr == u.addr && Applied(f, d, f0, d0, u)
    ensures Transfer(d, InPacket(u.addr, 0)).1 == Ack(0, [])
    ensures StatusGone(f, Transfer(d, InPacket(u.addr, 0)).0, f0, d0, u)
  {
    hide Post, Unread, DevOk;
    var p := InPacket(u.addr, 0);
    TransferBoard(d, p);
    assert d.bufs[EP0_IN][..0] == [];
    assert DevOk(d);
    RingIsOk(d);
    PostToDrained(d.ring, 0x80);
  }

  lemma {:induction false} ServesStatusIn(f: Fw, d: Dev, f0: Fw, d0: Dev, u: ControlUrb, key: byte)
    requires WriteRequest(u) && d0.u1addr == u.addr && StatusGone(f, d, f0, d0, u)
    ensures var (f', d') := Round(f, d, key); Over(f', d', f0, u)
  {
    hide DevOk, Unread, Round;
    RingIsOk(d);
    ServingRound(f, d, key);
    var d1 := d.(ring := Advanced(d.ring));
    GetTakesOldest(d.ring);
    GetTakesOldest(d1.ring);
    DispatchOk(f, d1, 0x80, key);
  }

  // ---------- the stages ----------

  ghost predicate Ready(f: Fw, d: Dev, f0: Fw, d0: Dev, u: ControlUrb, served: bool)
    requires BoardOk(d0) && WriteRequest(u)
  {
    if served then Applied(f, d, f0, d0, u) else f == f0 && SetupPending(d, d0, u.setup)
  }

  lemma {:induction false} ReadyRound(f: Fw, d: Dev, f0: Fw, d0: Dev, u: ControlUrb, served: bool, key: byte)
    requires BoardOk(d0) && WriteRequest(u) && Ready(f, d, f0, d0, u, served)
    ensures BoardOk(d)
    ensures var (f', d') := Round(f, d, key); Ready(f', d', f0, d0, u, true)
  {
    hide Round;
    if served {
      IdleRound(f, d, key);
    } else {
      ServesRequest(f, d, d0, u, key);
    }
  }

  ghost predicate InSetupStage(s: Pair, s0: Pair, u: ControlUrb, served: bool)
    requires Start(s0, u) && WriteRequest(u)
  {
    if s.e.queue != [] then Waiting(s.e, u, s0.e.mps, SetupStage, 0) && s.f == s0.f && s.d == s0.d && s.last.None?
    else HostSide(s.e, u, s0.e.mps) && Acked(s) && Ready(s.f, s.d, s0.f, s0.d, u, served)
  }

  ghost predicate InStatusStage(s: Pair, s0: Pair, u: ControlUrb, k: nat, served: bool)
    requires Start(s0, u) && WriteRequest(u)
  {
    && (s.e.queue != [] ==> Waiting(s.e, u, s0.e.mps, StatusStage, k) && k <= MAX_ERRORS && s.last.None?)
    && (s.e.queue == [] ==> s.last.Some? && HostSide(s.e, u, s0.e.mps))
    && if Acked(s) then StatusGone(s.f, s.d, s0.f, s0.d, u) || Over(s.f, s.d, s0.f, u)
       else Ready(s.f, s.d, s0.f, s0.d, u, served)
  }

  /** The empty IN status packet retires its TD. */
  lemma {:induction false} HostEmptyIn(e: Epd, u: ControlUrb, mps: nat, k: nat)
    requires Waiting(e, u, mps, StatusStage, k) && !ToHost(u)
    ensures
      ReplyFits(PacketOf(e), Ack(0, [])) &&
      var o := Absorb(e, Ack(0, []));
      o.retired.Some? && o.retired.value.cause.ByAck? && o.epd.queue == [] && HostSide(o.epd, u, mps)
  {
    WaitingPacket(e, u, mps, StatusStage, k);
    AbsorbKeepsOk(e, Ack(0, []));
  }

  lemma {:induction false} SetupStageStep(s: Pair, s0: Pair, u: ControlUrb, served: bool, op: Op)
    requires Start(s0, u) && WriteRequest(u) && InSetupStage(s, s0, u, served)
    ensures InSetupStage(InterleavedRead.Step(s, op), s0, u, s.e.queue == [] && (served || op.DeviceOp?))
    ensures InterleavedRead.Step(s, op).e.queue == [] <==> s.e.queue == [] || op.HostOp?
  {
    hide Transfer, Round, Absorb, PacketOf, SetupPending, Applied, EpdOk, BoardOk, Waiting, Armed0, Ready, HostSide;
    StartFacts(s0, u);
    if s.e.queue != [] {
      WaitingPacket(s.e, u, s0.e.mps, SetupStage, 0);
      match op
      case HostOp =>
        SetupArrives(s.d, u.setup, u.addr);
        HostWhole(s.e, u, s0.e.mps, SetupStage, 0, u.setup);
        NowPending(s0.f, Transfer(s.d, SetupPacket(u.addr, u.setup)).0, s0.d, u);
      case DeviceOp(key) => IdleRound(s.f, s.d, key);
    } else {
      ReadyBoard(s.f, s.d, s0.f, s0.d, u, served);
      IdleHost(s, u, s0.e.mps);
      match op
      case HostOp =>
      case DeviceOp(key) => ReadyRound(s.f, s.d, s0.f, s0.d, u, served, key);
    }
  }

  lemma {:induction false} NowPending(f: Fw, d: Dev, d0: Dev, u: ControlUrb)
    requires BoardOk(d0) && WriteRequest(u) && SetupPending(d, d0, u.setup)
    ensures Ready(f, d, f, d0, u, false)
  {
  }

  lemma {:induction false} ReadyBoard(f: Fw, d: Dev, f0: Fw, d0: Dev, u: ControlUrb, served: bool)
    requires BoardOk(d0) && WriteRequest(u) && Ready(f, d, f0, d0, u, served)
    ensures BoardOk(d) && d.u1addr == d0.u1addr
  {
  }

  lemma {:induction false} EndRound(f: Fw, d: Dev, f0: Fw, d0: Dev, u: ControlUrb, key: byte)
    requires WriteRequest(u) && d0.u1addr == u.addr && (StatusGone(f, d, f0, d0, u) || Over(f, d, f0, u))
    ensures BoardOk(d)
    ensures var (f', d') := Round(f, d, key); Over(f', d', f0, u)
  {
    hide Round, Unread;
    if StatusGone(f, d, f0, d0, u) {
      ServesStatusIn(f, d, f0, d0, u, key);
    } else {
      IdleRound(f, d, key);
    }
  }

  /** One step of the status stage; k counts the errors so far. */
  lemma {:induction false} StatusStageStep(s: Pair, s0: Pair, u: ControlUrb, k: nat, served: bool, op: Op)
    requires Start(s0, u) && WriteRequest(u) && InStatusStage(s, s0, u, k, served)
    ensures InStatusStage(InterleavedRead.Step(s, op), s0, u, if op.HostOp? then k + 1 else k, served || op.DeviceOp?)
    ensures s.e.queue != [] ==>
      var s' := InterleavedRead.Step(s, op);
      if op.DeviceOp? then s'.e.queue != []
      else if served then s'.e.queue == [] && Acked(s')
      else if k == MAX_ERRORS then s'.e.queue == [] && !Acked(s')
      else s'.e.queue != []
    ensures s.e.queue == [] ==> InterleavedRead.Step(s, op).e.queue == [] && InterleavedRead.Step(s, op).last == s.last
  {
    hide Transfer, Round, Absorb, PacketOf, SetupPending, Applied, StatusGone, Over, EpdOk, BoardOk, Waiting, HostSide;
    StartFacts(s0, u);
    if s.e.queue != [] {
      WaitingPacket(s.e, u, s0.e.mps, StatusStage, k);
      ReadyBoard(s.f, s.d, s0.f, s0.d, u, served);
      match op
      case HostOp =>
        if served {
          StatusInGoes(s.f, s.d, s0.f, s0.d, u);
          HostEmptyIn(s.e, u, s0.e.mps, k);
        } else {
          TooEarly(s.d, s0.d, u.setup, PacketOf(s.e));
          HostErr(s.e, u, s0.e.mps, StatusStage, k);
          if k < MAX_ERRORS {
            WaitingPacket(Absorb(s.e, Err).epd, u, s0.e.mps, StatusStage, k + 1);
          }
        }
      case DeviceOp(key) => ReadyRound(s.f, s.d, s0.f, s0.d, u, served, key);
    } else if Acked(s) {
      match op
      case HostOp =>
      case DeviceOp(key) =>
        EndRound(s.f, s.d, s0.f, s0.d, u, key);
        IdleHost(s, u, s0.e.mps);
    } else {
      ReadyBoard(s.f, s.d, s0.f, s0.d, u, served);
      IdleHost(s, u, s0.e.mps);
      match op
      case HostOp =>
      case DeviceOp(key) => ReadyRound(s.f, s.d, s0.f, s0.d, u, served, key);
    }
  }

  // ---------- runs ----------

  lemma {:induction false} SetupStageRuns(s: Pair, s0: Pair, u: ControlUrb, served: bool, ops: seq<Op>)
    requires Start(s0, u) && WriteRequest(u) && InSetupStage(s, s0, u, served)
    ensures InSetupStage(Steps(s, ops), s0, u, (s.e.queue == [] && served) || ServedIn(ops, s.e.queue == []))
    decreases |ops|
  {
    hide InterleavedRead.Step, Start, WriteRequest, Ready, Waiting, HostSide;
    if ops != [] {
      SetupStageStep(s, s0, u, served, ops[0]);
      SetupStageRuns(InterleavedRead.Step(s, ops[0]), s0, u, s.e.queue == [] && (served || ops[0].DeviceOp?), ops[1..]);
    }
  }

  lemma {:induction false} StatusStageRuns(s: Pair, s0: Pair, u: ControlUrb, k: nat, served: bool, ops: seq<Op>)
    returns (k': nat, served': bool)
    requires Start(s0, u) && WriteRequest(u) && InStatusStage(s, s0, u, k, served)
    ensures InStatusStage(Steps(s, ops), s0, u, k', served')
    ensures s.e.queue != [] ==> (GivenUp(Steps(s, ops)) <==> !served && k + Early(ops) > MAX_ERRORS)
    ensures s.e.queue == [] ==> Steps(s, ops).e.queue == [] && Steps(s, ops).last == s.last
    decreases |ops|
  {
    hide InterleavedRead.Step, Start, WriteRequest, Ready, Waiting, StatusGone, Over, HostSide;
    k', served' := k, served;
    if ops != [] {
      StatusStageStep(s, s0, u, k, served, ops[0]);
      var k1 := if ops[0].HostOp? then k + 1 else k;
      k', served' := StatusStageRuns(InterleavedRead.Step(s, ops[0]), s0, u, k1, served || ops[0].DeviceOp?, ops[1..]);
    }
  }

  /** What happens from the link of the SETUP stage to that of the status stage, and after it. */
  function AfterWrite(s: Pair, u: ControlUrb, setup: seq<Op>, status: seq<Op>): Pair
    requires UrbOk(u)
  {
    Steps(Linked(Steps(Linked(s, u, SetupStage), setup), u, StatusStage), status)
  }

  lemma {:induction false} WritePhases(s0: Pair, u: ControlUrb, setup: seq<Op>, status: seq<Op>) returns (k: nat, served: bool)
    requires Start(s0, u) && WriteRequest(u) && Acked(Steps(Linked(s0, u, SetupStage), setup))
    ensures InStatusStage(AfterWrite(s0, u, setup, status), s0, u, k, served)
    ensures GivenUp(AfterWrite(s0, u, setup, status)) <==> !ServedIn(setup, false) && Early(status) > MAX_ERRORS
  {
    hide Steps, WriteRequest, Ready, StatusGone, Over, ServedIn, Early;
    StartFacts(s0, u);
    LinkWaits(s0.e, u, s0.e.mps, SetupStage);
    var l1 := Linked(s0, u, SetupStage);
    assert InSetupStage(l1, s0, u, false);
    SetupStageRuns(l1, s0, u, false, setup);
    var s1 := Steps(l1, setup);
    served := ServedIn(setup, false);
    assert s1.e.queue == [];
    LinkWaits(s1.e, u, s0.e.mps, StatusStage);
    var l2 := Linked(s1, u, StatusStage);
    assert InStatusStage(l2, s0, u, 0, served);
    k, served := StatusStageRuns(l2, s0, u, 0, served, status);
  }

  // ---------- the theorem ----------

  /** However packets and rounds interleave: the host gives the status stage up exactly when the SETUP event is not served
      before its link and three packets then go before the firmware comes round; and as long as the status packet was not
      acknowledged the device answers at its old address (section 9.4.6 of USB 2.0). */
  lemma {:induction false} WriteInterleaved(s0: Pair, u: ControlUrb, setup: seq<Op>, status: seq<Op>)
    requires Start(s0, u) && WriteRequest(u) && Acked(Steps(Linked(s0, u, SetupStage), setup))
    ensures
      var s := AfterWrite(s0, u, setup, status);
      && (GivenUp(s) <==> !ServedIn(setup, false) && Early(status) > MAX_ERRORS)
      && (!Acked(s) ==> s.d.u1addr == u.addr)
  {
    hide Steps, Ready, StatusGone, Over;
    var k, served := WritePhases(s0, u, setup, status);
    var s := AfterWrite(s0, u, setup, status);
    StartFacts(s0, u);
    if !Acked(s) {
      ReadyBoard(s.f, s.d, s0.f, s0.d, u, served);
    }
  }

  /** Once it was acknowledged, the firmware, left alone, ends up as after the request in lockstep: the new address in
      force, or the data endpoints armed, and ready for the next SETUP. */
  lemma {:induction false} WriteInterleavedEnds(s0: Pair, u: ControlUrb, setup: seq<Op>, status: seq<Op>, key: byte)
    requires Start(s0, u) && WriteRequest(u) && Acked(Steps(Linked(s0, u, SetupStage), setup))
    requires Acked(AfterWrite(s0, u, setup, status))
    ensures BoardOk(AfterWrite(s0, u, setup, status).d)
    ensures
      var s := AfterWrite(s0, u, setup, status);
      var (f, d) := Drain(s.f, s.d, key);
      Over(f, d, s0.f, u)
  {
    hide Steps, StatusGone, Drain, Round, Unread, Ready, Armed0;
    var k, served := WritePhases(s0, u, setup, status);
    var s := AfterWrite(s0, u, setup, status);
    StartFacts(s0, u);
    EndRound(s.f, s.d, s0.f, s0.d, u, key);
    DrainUnfolds(s.f, s.d, key);
    DrainedUnread(Round(s.f, s.d, key).1);
  }
}
