/** A descriptor read without lockstep: the packets of the three stages and the rounds of the firmware's main loop
    interleave in any way. The read still gives the host the descriptor, unless the host gives up the data stage. */
module InterleavedRead {
  import opened UsbTypes
  import opened HcdModel
  import opened EventRing
  import opened DeviceModel
  import opened FirmwareModel
  import opened ControlDevice
  import opened ControlStages
  import opened ControlTransfers
  import opened ControlRead

  /** The host's endpoint descriptor for the device's endpoint 0, the device, and how the last TD retired. */
  datatype Pair = Pair(e: Epd, f: Fw, d: Dev, last: Option<Retirement>)

  /** The host sends the packet of the queued TD, or the firmware goes round its main loop. */
  datatype Op = HostOp | DeviceOp(key: byte)

  predicate PairOk(s: Pair) {
    && EpdOk(s.e) && BoardOk(s.d) && s.e.ep == 0 && s.e.addr <= 127
    && (s.e.queue != [] ==> SetupAssertion(s.e))
  }

  lemma {:induction false} PacketFits(s: Pair)
    requires PairOk(s) && s.e.queue != []
    ensures var p := PacketOf(s.e); p.ep == 0 && p.addr == s.e.addr && (!p.dirIn ==> p.size == |p.data|)
    ensures ReplyFits(PacketOf(s.e), Transfer(s.d, PacketOf(s.e)).1)
  {
    TransferBoard(s.d, PacketOf(s.e));
  }

  /** One step; the host has nothing to send once its TD has retired. */
  function Step(s: Pair, op: Op): Pair {
    match op
    case HostOp =>
      if PairOk(s) && s.e.queue != [] then
        PacketFits(s);
        var (d, r) := Transfer(s.d, PacketOf(s.e));
        var o := Absorb(s.e, r);
        Pair(o.epd, s.f, d, o.retired)
      else s
    case DeviceOp(key) =>
      if PairOk(s) then
        var (f, d) := Round(s.f, s.d, key);
        s.(f := f, d := d)
      else s
  }

  function Steps(s: Pair, ops: seq<Op>): Pair
    decreases |ops|
  {
    if ops == [] then s else Steps(Step(s, ops[0]), ops[1..])
  }

  function Linked(s: Pair, u: ControlUrb, st: Stage): Pair
    requires UrbOk(u)
  {
    s.(e := Enqueue(s.e, NewTd(0, StageLink(u, st))), last := None)
  }

  /** The TD of the stage was acknowledged to its end; the alternative is that it was given up, or is still queued. */
  predicate Acked(s: Pair) {
    s.last.Some? && s.last.value.cause.ByAck?
  }

  /** What happens from the link of each stage to the link of the next one, and after the last. */
  datatype Schedule = Schedule(setup: seq<Op>, data: seq<Op>, status: seq<Op>)

  function AfterSetup(s: Pair, u: ControlUrb, sch: Schedule): Pair
    requires UrbOk(u)
  {
    Steps(Linked(s, u, SetupStage), sch.setup)
  }

  function AfterData(s: Pair, u: ControlUrb, sch: Schedule): Pair
    requires UrbOk(u)
  {
    Steps(Linked(AfterSetup(s, u, sch), u, DataStage), sch.data)
  }

  function AfterStatus(s: Pair, u: ControlUrb, sch: Schedule): Pair
    requires UrbOk(u)
  {
    Steps(Linked(AfterData(s, u, sch), u, StatusStage), sch.status)
  }

  /** Nothing on its way, and the device can take a SETUP packet. */
  predicate Start(s: Pair, u: ControlUrb) {
    && UrbOk(u) && EpdOk(s.e) && s.e.ep == 0 && s.e.addr == u.addr && s.e.queue == [] && !s.e.skip && !s.e.halted
    && Drained(s.d) && Armed0(s.d) && s.d.u1addr == u.addr
  }

  // ---------- rounds of the firmware ----------

  lemma {:induction false} IdleRound(f: Fw, d: Dev, key: byte)
    requires Drained(d)
    ensures Round(f, d, key) == (f, d)
  {
  }

  /** The oldest event is served. */
  lemma {:induction false} ServingRound(f: Fw, d: Dev, key: byte)
    requires BoardOk(d) && !d.reset && Unread(d.ring) != []
    ensures RingOk(Advanced(d.ring)) && BoardOk(d.(ring := Advanced(d.ring)))
    ensures Round(f, d, key) == Dispatch(f, d.(ring := Advanced(d.ring)), Unread(d.ring)[0], key)
  {
    hide Dispatch, Unread;
    GetTakesOldest(d.ring);
  }

  // ---------- the device during the transfer ----------

  /** What no packet and no round of the transfer changes. */
  predicate Untouched(d: Dev, d0: Dev) {
    && BoardOk(d) && |d0.bdt| == 3 && !d.reset && d.usben && d.u1addr == d0.u1addr
    && d.bdt[1] == d0.bdt[1] && d.bdt[2] == d0.bdt[2]
  }

  /** The OUT entry of endpoint 0 is owned by the device and takes the empty status packet, whichever way it was armed. */
  predicate TakesStatus(d: Dev) {
    |d.bdt| > 0 && var e := d.bdt[0].out; Owned(e) && e.addr == Buf(EP0_OUT) && e.stat & 1 == 0
  }

  /** And it has room for a SETUP packet. */
  predicate TakesSetup(d: Dev) {
    TakesStatus(d) && d.bdt[0].out.cnt >= 8
  }

  /** The SETUP packet has arrived and waits for the firmware. */
  ghost predicate SetupPending(d: Dev, d0: Dev, setup: seq<byte>)
    requires BoardOk(d0) && |setup| == 8
  {
    && Untouched(d, d0) && d.pktdis && Unread(d.ring) == [0] && TakesSetup(d) && IsSetup(d, 0)
    && d.bufs[EP0_OUT] == setup + d0.bufs[EP0_OUT][8..]
  }

  /** The descriptor is armed on endpoint 0 IN. */
  ghost predicate Offering(f: Fw, d: Dev, f0: Fw, d0: Dev, u: ControlUrb)
    requires ReadRequest(u)
  {
    && Untouched(d, d0) && Drained(d) && Armed0In(d, Offered(u)) && TakesSetup(d)
    && f == f0.(state := StateFor(u.setup[3]))
  }

  /** The data packet has gone; `events` wait for the firmware. */
  ghost predicate Given(f: Fw, d: Dev, f0: Fw, d0: Dev, u: ControlUrb, events: seq<int>)
    requires ReadRequest(u)
  {
    && Untouched(d, d0) && !d.pktdis && TakesStatus(d) && Unread(d.ring) == events
    && f == f0.(state := StateFor(u.setup[3]))
  }

  /** The firmware has seen the data packet go, and waits for the status packet or its event. */
  ghost predicate StatusDue(f: Fw, d: Dev, f0: Fw, d0: Dev, events: seq<int>) {
    && Untouched(d, d0) && !d.pktdis && TakesStatus(d) && !IsSetup(d, 0) && Unread(d.ring) == events
    && f == f0.(state := CtsAckIn)
  }

  /** The transfer is over for the firmware too. */
  ghost predicate Finished(f: Fw, d: Dev, f0: Fw, d0: Dev) {
    && Untouched(d, d0) && Drained(d) && !d.pktdis && d.bdt[0].out == ARMED_SETUP && f == f0.(state := CtsSetup)
  }

  // ---------- packets ----------

  lemma {:induction false} SetupArrives(d: Dev, setup: seq<byte>, addr: nat)
    requires Drained(d) && Armed0(d) && d.u1addr == addr && |setup| == 8
    ensures Transfer(d, SetupPacket(addr, setup)).1 == Ack(8, setup)
    ensures SetupPending(Transfer(d, SetupPacket(addr, setup)).0, d, setup)
  {
    hide Post, Unread, DevOk;
    var p := SetupPacket(addr, setup);
    SetupStatus(d.bdt[0].out.stat);
    TransferBoard(d, p);
    assert setup[..8] == setup;
    assert DevOk(d);
    RingIsOk(d);
    PostToDrained(d.ring, 0);
  }

  /** Before the firmware has served the SETUP event every packet is an error. */
  lemma {:induction false} TooEarly(d: Dev, d0: Dev, setup: seq<byte>, p: Packet)
    requires BoardOk(d0) && |setup| == 8 && SetupPending(d, d0, setup)
    requires p.ep < 3 && (!p.dirIn ==> p.size == |p.data|)
    ensures Transfer(d, p) == (d, Err)
  {
  }

  lemma {:induction false} DataGoes(f: Fw, d: Dev, f0: Fw, d0: Dev, u: ControlUrb, size: nat)
    requires ReadRequest(u) && d0.u1addr == u.addr && Offering(f, d, f0, d0, u)
    ensures
      var n := Min(|Offered(u)|, size);
      Transfer(d, InPacket(u.addr, size)).1 == Ack(n, Offered(u)[..n])
    ensures Given(f, Transfer(d, InPacket(u.addr, size)).0, f0, d0, u, [0x80])
  {
    hide Post, Unread, DevOk, Offered;
    var p := InPacket(u.addr, size);
    TransferBoard(d, p);
    var n := Min(|Offered(u)|, size);
    assert d.bufs[EP0_IN][..n] == Offered(u)[..n];
    assert DevOk(d);
    RingIsOk(d);
    PostToDrained(d.ring, 0x80);
  }

  /** An empty OUT packet to an owned entry: acknowledged, and the entry no longer passes for a SETUP. */
  lemma {:induction false} StatusArrives(d: Dev, d0: Dev, addr: nat)
    requires Untouched(d, d0) && d0.u1addr == addr && !d.pktdis && TakesStatus(d) && |Unread(d.ring)| <= 1
    ensures
      var (d', r) := Transfer(d, StatusOutPacket(addr));
      && r == Ack(0, []) && Untouched(d', d0) && !d'.pktdis && TakesStatus(d') && !IsSetup(d', 0)
      && Unread(d'.ring) == Unread(d.ring) + [0]
  {
    hide Post, Unread, DevOk;
    var p := StatusOutPacket(addr);
    TransferBoard(d, p);
    assert [] + d.bufs[EP0_OUT] == d.bufs[EP0_OUT];
    assert DevOk(d);
    RingIsOk(d);
    StatusBits(d.bdt[0].out.stat);
    PostAppends(d.ring, 0);
  }

  lemma {:induction false} StatusBits(s: bv8)
    requires s & 0x80 != 0 && s & 1 == 0
    ensures var s' := (s & 0xC3) | ((0x0B as bv8) << 2); s' & 0x80 != 0 && s' & 1 == 0 && (s' >> 2) & 0x0F != 0x0D
  {
  }

  // ---------- rounds ----------

  lemma {:induction false} ServesSetup(f0: Fw, d: Dev, d0: Dev, u: ControlUrb, key: byte)
    requires BoardOk(d0) && ReadRequest(u) && SetupPending(d, d0, u.setup)
    ensures var (f', d') := Round(f0, d, key); Offering(f', d', f0, d0, u)
  {
    hide DevOk, Unread, Round;
    RingIsOk(d);
    ServingRound(f0, d, key);
    var d1 := d.(ring := Advanced(d.ring));
    GetTakesOldest(d.ring);
    GetTakesOldest(d1.ring);
    var req := d1.bufs[EP0_OUT];
    assert req[1] == u.setup[1] && req[3] == u.setup[3] && req[6] == u.setup[6] && req[7] == u.setup[7];
    var dsc := Descriptor(u.setup[3]);
    var d' := ProcessSetup(f0, d1).1;
    assert d'.bufs[EP0_IN] == dsc + d1.bufs[EP0_IN][|dsc|..];
    assert d'.bufs[EP0_IN][..|Offered(u)|] == Offered(u);
    DispatchOk(f0, d1, 0, key);
  }

  lemma {:induction false} ServesData(f: Fw, d: Dev, f0: Fw, d0: Dev, u: ControlUrb, rest: seq<int>, key: byte)
    requires ReadRequest(u) && Given(f, d, f0, d0, u, [0x80] + rest)
    ensures var (f', d') := Round(f, d, key); StatusDue(f', d', f0, d0, rest)
  {
    hide DevOk, Unread, Round;
    RingIsOk(d);
    ServingRound(f, d, key);
    var d1 := d.(ring := Advanced(d.ring));
    GetTakesOldest(d.ring);
    DispatchOk(f, d1, 0x80, key);
  }

  lemma {:induction false} ServesStatus(f: Fw, d: Dev, f0: Fw, d0: Dev, key: byte)
    requires StatusDue(f, d, f0, d0, [0])
    ensures var (f', d') := Round(f, d, key); Finished(f', d', f0, d0)
  {
    hide DevOk, Unread, Round;
    RingIsOk(d);
    ServingRound(f, d, key);
    var d1 := d.(ring := Advanced(d.ring));
    GetTakesOldest(d.ring);
    GetTakesOldest(d1.ring);
    DispatchOk(f, d1, 0, key);
  }

  lemma {:induction false} NothingToServe(f: Fw, d: Dev, key: byte)
    requires BoardOk(d) && !d.reset && Unread(d.ring) == []
    ensures Round(f, d, key) == (f, d)
  {
    GetTakesOldest(d.ring);
  }

  lemma {:induction false} DrainedUnread(d: Dev)
    requires BoardOk(d) && !d.reset
    ensures Drained(d) <==> Unread(d.ring) == []
  {
    GetTakesOldest(d.ring);
  }

  // ---------- the host's side of each packet ----------

  /** The host's endpoint descriptor, apart from its queue. */
  predicate HostSide(e: Epd, u: ControlUrb, mps: nat) {
    EpdOk(e) && e.ep == 0 && e.addr == u.addr && e.mps == mps && !e.skip && !e.halted && UrbOk(u)
  }

  /** The TD of a stage, after k errors. */
  predicate StageTd(td: Td, u: ControlUrb, st: Stage, k: nat)
    requires UrbOk(u)
  {
    var req := StageLink(u, st);
    && td.pid == PidOf(req) && td.toggle == req.toggle && td.buffer == req.data && td.pos == 0
    && td.urbLength == req.urbLength && td.errorCount == k
  }

  predicate Waiting(e: Epd, u: ControlUrb, mps: nat, st: Stage, k: nat) {
    HostSide(e, u, mps) && |e.queue| == 1 && StageTd(e.queue[0], u, st, k)
  }

  lemma {:induction false} LinkWaits(e: Epd, u: ControlUrb, mps: nat, st: Stage)
    requires HostSide(e, u, mps) && e.queue == []
    ensures Waiting(Enqueue(e, NewTd(0, StageLink(u, st))), u, mps, st, 0)
  {
  }

  lemma {:induction false} WaitingPacket(e: Epd, u: ControlUrb, mps: nat, st: Stage, k: nat)
    requires Waiting(e, u, mps, st, k)
    ensures EpdOk(e) && e.ep == 0 && e.addr == u.addr && e.queue != [] && SetupAssertion(e) && e.addr <= 127
    ensures st.SetupStage? ==> PacketOf(e) == SetupPacket(u.addr, u.setup)
    ensures !st.SetupStage? && StageLink(u, st).dirIn ==> PacketOf(e) == InPacket(u.addr, |StageLink(u, st).data|)
    ensures st.StatusStage? && ToHost(u) ==> PacketOf(e) == StatusOutPacket(u.addr)
  {
  }

  /** An error is counted; the third gives the TD up. */
  lemma {:induction false} HostErr(e: Epd, u: ControlUrb, mps: nat, st: Stage, k: nat)
    requires Waiting(e, u, mps, st, k) && k <= MAX_ERRORS
    ensures
      var o := Absorb(e, Err);
      if k == MAX_ERRORS then o.retired.Some? && o.retired.value.cause.ByErr? && o.epd.queue == [] && HostSide(o.epd, u, mps)
      else o.retired.None? && Waiting(o.epd, u, mps, st, k + 1)
  {
    hide PacketOf;
    AbsorbKeepsOk(e, Err);
  }

  /** A SETUP or an empty status packet that is acknowledged whole retires its TD. */
  lemma {:induction false} HostWhole(e: Epd, u: ControlUrb, mps: nat, st: Stage, k: nat, data: seq<byte>)
    requires Waiting(e, u, mps, st, k) && !st.DataStage? && (st.StatusStage? ==> ToHost(u))
    ensures
      var r := Ack(|StageLink(u, st).data|, data);
      ReplyFits(PacketOf(e), r) &&
      var o := Absorb(e, r);
      o.retired.Some? && o.retired.value.cause.ByAck? && o.epd.queue == [] && HostSide(o.epd, u, mps)
  {
    WaitingPacket(e, u, mps, st, k);
    AbsorbKeepsOk(e, Ack(|StageLink(u, st).data|, data));
  }

  /** The data packet, if it fills the buffer or is short, retires its TD with exactly its bytes stored. */
  lemma {:induction false} HostData(e: Epd, u: ControlUrb, mps: nat, k: nat, n: nat, data: seq<byte>)
    requires Waiting(e, u, mps, DataStage, k) && ToHost(u) && n == |data| <= |u.data| && (n == |u.data| || n < mps)
    ensures
      ReplyFits(PacketOf(e), Ack(n, data)) &&
      var o := Absorb(e, Ack(n, data));
      && o.retired.Some? && o.retired.value.cause.ByAck? && o.epd.queue == [] && HostSide(o.epd, u, mps)
      && o.retired.value.td.buffer == data + u.data[n..] && Complete(o.retired.value.td).length == n
  {
    WaitingPacket(e, u, mps, DataStage, k);
    AbsorbKeepsOk(e, Ack(n, data));
    assert [] + data == data;
  }

  // ---------- the stages ----------

  ghost predicate DataReady(f: Fw, d: Dev, f0: Fw, d0: Dev, u: ControlUrb, served: bool)
    requires BoardOk(d0) && ReadRequest(u)
  {
    if served then Offering(f, d, f0, d0, u) else f == f0 && SetupPending(d, d0, u.setup)
  }

  ghost predicate StatusReady(f: Fw, d: Dev, f0: Fw, d0: Dev, u: ControlUrb)
    requires ReadRequest(u)
  {
    Given(f, d, f0, d0, u, [0x80]) || StatusDue(f, d, f0, d0, [])
  }

  ghost predicate Ending(f: Fw, d: Dev, f0: Fw, d0: Dev, u: ControlUrb)
    requires ReadRequest(u)
  {
    Given(f, d, f0, d0, u, [0x80, 0]) || StatusDue(f, d, f0, d0, [0]) || Finished(f, d, f0, d0)
  }

  /** What the host has when its data TD was acknowledged. */
  predicate HasData(s: Pair, u: ControlUrb)
    requires ReadRequest(u)
  {
    Acked(s) &&
    var n, td := Min(|Offered(u)|, |u.data|), s.last.value.td;
    td.buffer == Offered(u)[..n] + u.data[n..] && Complete(td).length == n
  }

  ghost predicate InSetup(s: Pair, s0: Pair, u: ControlUrb, served: bool)
    requires Start(s0, u) && ReadRequest(u)
  {
    if s.e.queue != [] then Waiting(s.e, u, s0.e.mps, SetupStage, 0) && s.f == s0.f && s.d == s0.d && s.last.None?
    else HostSide(s.e, u, s0.e.mps) && Acked(s) && DataReady(s.f, s.d, s0.f, s0.d, u, served)
  }

  ghost predicate InData(s: Pair, s0: Pair, u: ControlUrb, k: nat, served: bool)
    requires Start(s0, u) && ReadRequest(u)
  {
    if s.e.queue != [] then
      && Waiting(s.e, u, s0.e.mps, DataStage, k) && k <= MAX_ERRORS && s.last.None?
      && DataReady(s.f, s.d, s0.f, s0.d, u, served)
    else if Acked(s) then HostSide(s.e, u, s0.e.mps) && HasData(s, u) && StatusReady(s.f, s.d, s0.f, s0.d, u)
    else s.last.Some? && HostSide(s.e, u, s0.e.mps) && DataReady(s.f, s.d, s0.f, s0.d, u, served)
  }

  ghost predicate InStatus(s: Pair, s0: Pair, u: ControlUrb)
    requires Start(s0, u) && ReadRequest(u)
  {
    if s.e.queue != [] then
      Waiting(s.e, u, s0.e.mps, StatusStage, 0) && s.last.None? && StatusReady(s.f, s.d, s0.f, s0.d, u)
    else Acked(s) && Ending(s.f, s.d, s0.f, s0.d, u)
  }

  /** The offer fills the buffer, or ends on a packet the host recognises as short. */
  predicate Ends(s0: Pair, u: ControlUrb)
    requires ReadRequest(u)
  {
    |Offered(u)| >= |u.data| || |Offered(u)| < s0.e.mps
  }

  lemma {:induction false} StartFacts(s0: Pair, u: ControlUrb)
    requires Start(s0, u)
    ensures BoardOk(s0.d) && s0.d.u1addr == u.addr && HostSide(s0.e, u, s0.e.mps) && s0.e.queue == []
  {
  }

  lemma {:induction false} BoardAlong(s: Pair, s0: Pair, u: ControlUrb, served: bool)
    requires Start(s0, u) && ReadRequest(u) && DataReady(s.f, s.d, s0.f, s0.d, u, served)
    ensures BoardOk(s.d)
  {
  }

  lemma {:induction false} IdleHost(s: Pair, u: ControlUrb, mps: nat)
    requires HostSide(s.e, u, mps) && s.e.queue == [] && BoardOk(s.d)
    ensures PairOk(s)
  {
  }

  lemma {:induction false} SetupStep(s: Pair, s0: Pair, u: ControlUrb, served: bool, op: Op)
    requires Start(s0, u) && ReadRequest(u) && InSetup(s, s0, u, served)
    ensures InSetup(Step(s, op), s0, u, s.e.queue == [] && (served || op.DeviceOp?))
  {
    hide Transfer, Round, Absorb, PacketOf, SetupPending, Offering, EpdOk, BoardOk, Waiting, Armed0;
    StartFacts(s0, u);
    if s.e.queue != [] {
      WaitingPacket(s.e, u, s0.e.mps, SetupStage, 0);
      match op
      case HostOp =>
        SetupArrives(s.d, u.setup, u.addr);
        HostWhole(s.e, u, s0.e.mps, SetupStage, 0, u.setup);
      case DeviceOp(key) => IdleRound(s.f, s.d, key);
    } else {
      BoardAlong(s, s0, u, served);
      IdleHost(s, u, s0.e.mps);
      match op
      case HostOp =>
      case DeviceOp(key) => DataReadyRound(s, s0, u, served, key);
    }
  }

  lemma {:induction false} DataReadyRound(s: Pair, s0: Pair, u: ControlUrb, served: bool, key: byte)
    requires Start(s0, u) && ReadRequest(u) && DataReady(s.f, s.d, s0.f, s0.d, u, served)
    ensures BoardOk(s.d)
    ensures var (f', d') := Round(s.f, s.d, key); DataReady(f', d', s0.f, s0.d, u, true)
  {
    hide Round;
    if served {
      IdleRound(s.f, s.d, key);
    } else {
      ServesSetup(s.f, s.d, s0.d, u, key);
    }
  }

  /** One step of the data stage; k counts the errors so far. */
  lemma {:induction false} DataStep(s: Pair, s0: Pair, u: ControlUrb, k: nat, served: bool, op: Op)
    requires Start(s0, u) && ReadRequest(u) && Ends(s0, u) && InData(s, s0, u, k, served)
    ensures InData(Step(s, op), s0, u, if op.HostOp? then k + 1 else k, served || op.DeviceOp?)
    ensures s.e.queue != [] ==>
      var s' := Step(s, op);
      if op.DeviceOp? then s'.e.queue != []
      else if served then s'.e.queue == [] && Acked(s')
      else if k == MAX_ERRORS then s'.e.queue == [] && !Acked(s')
      else s'.e.queue != []
    ensures s.e.queue == [] ==> Step(s, op).e.queue == [] && Step(s, op).last == s.last
  {
    hide Transfer, Round, Absorb, PacketOf, SetupPending, Offering, Given, StatusDue, EpdOk, BoardOk, Waiting,
      Offered, HostSide;
    StartFacts(s0, u);
    if s.e.queue != [] {
      WaitingPacket(s.e, u, s0.e.mps, DataStage, k);
      BoardAlong(s, s0, u, served);
      match op
      case HostOp =>
        if served {
          var n := Min(|Offered(u)|, |u.data|);
          DataGoes(s.f, s.d, s0.f, s0.d, u, |u.data|);
          HostData(s.e, u, s0.e.mps, k, n, Offered(u)[..n]);
        } else {
          TooEarly(s.d, s0.d, u.setup, PacketOf(s.e));
          HostErr(s.e, u, s0.e.mps, DataStage, k);
          if k < MAX_ERRORS {
            WaitingPacket(Absorb(s.e, Err).epd, u, s0.e.mps, DataStage, k + 1);
          }
        }
      case DeviceOp(key) => DataReadyRound(s, s0, u, served, key);
    } else if Acked(s) {
      match op
      case HostOp =>
      case DeviceOp(key) => StatusReadyRound(s, s0, u, key);
    } else {
      BoardAlong(s, s0, u, served);
      IdleHost(s, u, s0.e.mps);
      match op
      case HostOp =>
      case DeviceOp(key) => DataReadyRound(s, s0, u, served, key);
    }
  }

  lemma {:induction false} StatusReadyRound(s: Pair, s0: Pair, u: ControlUrb, key: byte)
    requires Start(s0, u) && ReadRequest(u) && StatusReady(s.f, s.d, s0.f, s0.d, u)
    ensures BoardOk(s.d)
    ensures var (f', d') := Round(s.f, s.d, key); StatusReady(f', d', s0.f, s0.d, u)
  {
    hide Round, Unread;
    if Given(s.f, s.d, s0.f, s0.d, u, [0x80]) {
      assert [0x80] + [] == [0x80];
      ServesData(s.f, s.d, s0.f, s0.d, u, [], key);
    } else {
      NothingToServe(s.f, s.d, key);
    }
  }

  lemma {:induction false} EndingRound(f: Fw, d: Dev, f0: Fw, d0: Dev, u: ControlUrb, key: byte)
    requires ReadRequest(u) && Ending(f, d, f0, d0, u)
    ensures BoardOk(d)
    ensures var (f', d') := Round(f, d, key); Ending(f', d', f0, d0, u)
  {
    hide Round, Unread;
    if Given(f, d, f0, d0, u, [0x80, 0]) {
      assert [0x80] + [0] == [0x80, 0];
      ServesData(f, d, f0, d0, u, [0], key);
    } else if StatusDue(f, d, f0, d0, [0]) {
      ServesStatus(f, d, f0, d0, key);
    } else {
      IdleRound(f, d, key);
    }
  }

  lemma {:induction false} StatusStep(s: Pair, s0: Pair, u: ControlUrb, op: Op)
    requires Start(s0, u) && ReadRequest(u) && InStatus(s, s0, u)
    ensures InStatus(Step(s, op), s0, u)
  {
    hide Transfer, Round, Absorb, PacketOf, Given, StatusDue, EpdOk, BoardOk, Waiting, HostSide, Finished;
    StartFacts(s0, u);
    if s.e.queue != [] {
      WaitingPacket(s.e, u, s0.e.mps, StatusStage, 0);
      match op
      case HostOp =>
        StatusGoes(s, s0, u);
        HostWhole(s.e, u, s0.e.mps, StatusStage, 0, []);
      case DeviceOp(key) => StatusReadyRound(s, s0, u, key);
    } else {
      match op
      case HostOp =>
      case DeviceOp(key) => EndingRound(s.f, s.d, s0.f, s0.d, u, key);
    }
  }

  lemma {:induction false} StatusGoes(s: Pair, s0: Pair, u: ControlUrb)
    requires Start(s0, u) && ReadRequest(u) && StatusReady(s.f, s.d, s0.f, s0.d, u)
    ensures BoardOk(s.d) && Transfer(s.d, StatusOutPacket(u.addr)).1 == Ack(0, [])
    ensures Ending(s.f, Transfer(s.d, StatusOutPacket(u.addr)).0, s0.f, s0.d, u)
  {
    hide Transfer, Unread, TakesStatus, Untouched;
    StatusArrives(s.d, s0.d, u.addr);
    assert [0x80] + [0] == [0x80, 0];
    assert [] + [0] == [0];
    UntouchedBoard(s.d, s0.d);
  }

  lemma {:induction false} UntouchedBoard(d: Dev, d0: Dev)
    requires Untouched(d, d0)
    ensures BoardOk(d)
  {
  }

  // ---------- runs ----------

  /** Whether the firmware serves the SETUP event during these steps; `arrived` tells whether the packet has come. */
  function ServedIn(ops: seq<Op>, arrived: bool): bool
    decreases |ops|
  {
    ops != [] && ((arrived && ops[0].DeviceOp?) || ServedIn(ops[1..], arrived || ops[0].HostOp?))
  }

  /** The packets the host sends before the firmware goes round for the first time. */
  function Early(ops: seq<Op>): nat
    decreases |ops|
  {
    if ops == [] || ops[0].DeviceOp? then 0 else 1 + Early(ops[1..])
  }

  lemma {:induction false} SetupRuns(s: Pair, s0: Pair, u: ControlUrb, served: bool, ops: seq<Op>)
    requires Start(s0, u) && ReadRequest(u) && InSetup(s, s0, u, served)
    ensures InSetup(Steps(s, ops), s0, u, (s.e.queue == [] && served) || ServedIn(ops, s.e.queue == []))
    decreases |ops|
  {
    hide Step, Start, ReadRequest, DataReady, Waiting, HostSide;
    if ops != [] {
      SetupStep(s, s0, u, served, ops[0]);
      Arrival(s, s0, u, served, ops[0]);
      SetupRuns(Step(s, ops[0]), s0, u, s.e.queue == [] && (served || ops[0].DeviceOp?), ops[1..]);
      assert s.e.queue == [] && (served || ops[0].DeviceOp?) ==> Step(s, ops[0]).e.queue == [];
    }
  }

  /** The first packet of the SETUP stage ends it. */
  lemma {:induction false} Arrival(s: Pair, s0: Pair, u: ControlUrb, served: bool, op: Op)
    requires Start(s0, u) && ReadRequest(u) && InSetup(s, s0, u, served)
    ensures Step(s, op).e.queue == [] <==> s.e.queue == [] || op.HostOp?
  {
    hide Transfer, Round, Absorb, PacketOf, SetupPending, Offering, EpdOk, BoardOk, Waiting, Armed0, DataReady;
    StartFacts(s0, u);
    if s.e.queue != [] {
      WaitingPacket(s.e, u, s0.e.mps, SetupStage, 0);
      SetupArrives(s.d, u.setup, u.addr);
      HostWhole(s.e, u, s0.e.mps, SetupStage, 0, u.setup);
    }
  }

  /** The host has given up the stage's TD after three errors. */
  predicate GivenUp(s: Pair) {
    s.e.queue == [] && !Acked(s)
  }

  lemma {:induction false} DataRuns(s: Pair, s0: Pair, u: ControlUrb, k: nat, served: bool, ops: seq<Op>)
    returns (k': nat, served': bool)
    requires Start(s0, u) && ReadRequest(u) && Ends(s0, u) && InData(s, s0, u, k, served)
    ensures InData(Steps(s, ops), s0, u, k', served') && served' == (served || ServedIn(ops, true))
    ensures s.e.queue != [] ==> (GivenUp(Steps(s, ops)) <==> !served && k + Early(ops) > MAX_ERRORS)
    ensures s.e.queue == [] ==> Steps(s, ops).e.queue == [] && Steps(s, ops).last == s.last
    decreases |ops|
  {
    hide Step, Start, ReadRequest, DataReady, Waiting, HasData, StatusReady, HostSide;
    k', served' := k, served;
    if ops != [] {
      DataStep(s, s0, u, k, served, ops[0]);
      k', served' := DataRuns(Step(s, ops[0]), s0, u, if ops[0].HostOp? then k + 1 else k, served || ops[0].DeviceOp?, ops[1..]);
    }
  }

  lemma {:induction false} StatusRuns(s: Pair, s0: Pair, u: ControlUrb, ops: seq<Op>)
    requires Start(s0, u) && ReadRequest(u) && InStatus(s, s0, u)
    ensures InStatus(Steps(s, ops), s0, u)
    decreases |ops|
  {
    hide Step, Start, ReadRequest, InStatus;
    if ops != [] {
      StatusStep(s, s0, u, ops[0]);
      StatusRuns(Step(s, ops[0]), s0, u, ops[1..]);
    }
  }

  lemma {:induction false} DrainUnfolds(f: Fw, d: Dev, key: byte)
    requires BoardOk(d)
    ensures
      var (f1, d1) := Round(f, d, key);
      && BoardOk(d1)
      && Drain(f, d, key) == if Unread(d1.ring) == [] then (f1, d1) else Drain(f1, d1, key)
  {
    hide Round, Unread;
    RoundOk(f, d, key);
    GetTakesOldest(Round(f, d, key).1.ring);
  }

  lemma {:induction false} DueFinishes(f: Fw, d: Dev, f0: Fw, d0: Dev, key: byte)
    requires StatusDue(f, d, f0, d0, [0])
    ensures BoardOk(d)
    ensures var (f', d') := Drain(f, d, key); Finished(f', d', f0, d0)
  {
    hide Round, Unread, Drain;
    ServesStatus(f, d, f0, d0, key);
    DrainUnfolds(f, d, key);
    DrainedUnread(Round(f, d, key).1);
  }

  /** Left alone, the firmware finishes the transfer. */
  lemma {:induction false} EndingFinishes(f: Fw, d: Dev, f0: Fw, d0: Dev, u: ControlUrb, key: byte)
    requires ReadRequest(u) && Ending(f, d, f0, d0, u)
    ensures BoardOk(d)
    ensures var (f', d') := Drain(f, d, key); Finished(f', d', f0, d0)
  {
    hide Round, Unread, Drain;
    if Given(f, d, f0, d0, u, [0x80, 0]) {
      assert [0x80] + [0] == [0x80, 0];
      ServesData(f, d, f0, d0, u, [0], key);
      DrainUnfolds(f, d, key);
      DueFinishes(Round(f, d, key).0, Round(f, d, key).1, f0, d0, key);
    } else if StatusDue(f, d, f0, d0, [0]) {
      DueFinishes(f, d, f0, d0, key);
    } else {
      DrainNone(f, d, key);
    }
  }

  // ---------- the theorem ----------

  /** However packets and rounds interleave: the host gives the read up exactly when the SETUP event is not served before
      the next link and the host then sends three packets before the firmware comes round; otherwise, once the data
      TD has retired, the host has exactly the descriptor prefix, with its length. */
  lemma {:induction false} ReadInterleaved(s0: Pair, u: ControlUrb, sch: Schedule)
    requires Start(s0, u) && ReadRequest(u) && Ends(s0, u) && Acked(AfterSetup(s0, u, sch))
    ensures GivenUp(AfterData(s0, u, sch)) <==> !ServedIn(sch.setup, false) && Early(sch.data) > MAX_ERRORS
    ensures Acked(AfterData(s0, u, sch)) ==> HasData(AfterData(s0, u, sch), u)
  {
    var k, served := DataPhase(s0, u, sch);
  }

  /** And if the status stage then retires, it was acknowledged, and the firmware, left alone, ends up as after a read in
      lockstep: waiting for the next SETUP, its endpoint armed, no event left. */
  lemma {:induction false} ReadInterleavedEnds(s0: Pair, u: ControlUrb, sch: Schedule, key: byte)
    requires Start(s0, u) && ReadRequest(u) && Ends(s0, u)
    requires Acked(AfterSetup(s0, u, sch)) && Acked(AfterData(s0, u, sch)) && AfterStatus(s0, u, sch).e.queue == []
    ensures Acked(AfterStatus(s0, u, sch)) && BoardOk(AfterStatus(s0, u, sch).d)
    ensures var (f, d) := Drain(AfterStatus(s0, u, sch).f, AfterStatus(s0, u, sch).d, key); Finished(f, d, s0.f, s0.d)
  {
    hide Steps, Start, ReadRequest, Drain, Ends, InData, StatusReady, Ending, Offered;
    StartFacts(s0, u);
    var k, served := DataPhase(s0, u, sch);
    var s2 := AfterData(s0, u, sch);
    DataAcked(s2, s0, u, k, served);
    LinkWaits(s2.e, u, s0.e.mps, StatusStage);
    assert InStatus(Linked(s2, u, StatusStage), s0, u);
    StatusRuns(Linked(s2, u, StatusStage), s0, u, sch.status);
    var s3 := AfterStatus(s0, u, sch);
    EndingFinishes(s3.f, s3.d, s0.f, s0.d, u, key);
  }

  lemma {:induction false} DataAcked(s: Pair, s0: Pair, u: ControlUrb, k: nat, served: bool)
    requires Start(s0, u) && ReadRequest(u) && InData(s, s0, u, k, served) && Acked(s)
    ensures s.e.queue == [] && HostSide(s.e, u, s0.e.mps) && StatusReady(s.f, s.d, s0.f, s0.d, u)
  {
  }

  /** From the start through the data stage. */
  lemma {:induction false} DataPhase(s0: Pair, u: ControlUrb, sch: Schedule) returns (k: nat, served: bool)
    requires Start(s0, u) && ReadRequest(u) && Ends(s0, u) && Acked(AfterSetup(s0, u, sch))
    ensures InData(AfterData(s0, u, sch), s0, u, k, served)
    ensures served == (ServedIn(sch.setup, false) || ServedIn(sch.data, true))
    ensures GivenUp(AfterData(s0, u, sch)) <==> !ServedIn(sch.setup, false) && Early(sch.data) > MAX_ERRORS
  {
    hide Steps, ReadRequest, Ends, StatusReady, Offered, DataReady, HasData, ServedIn, Early;
    StartFacts(s0, u);
    LinkWaits(s0.e, u, s0.e.mps, SetupStage);
    var l1 := Linked(s0, u, SetupStage);
    assert InSetup(l1, s0, u, false);
    SetupRuns(l1, s0, u, false, sch.setup);
    var s1 := AfterSetup(s0, u, sch);
    served := ServedIn(sch.setup, false);
    assert s1.e.queue == [];
    LinkWaits(s1.e, u, s0.e.mps, DataStage);
    var l2 := Linked(s1, u, DataStage);
    assert InData(l2, s0, u, 0, served);
    k, served := DataRuns(l2, s0, u, 0, served, sch.data);
  }

  // ---------- after a given-up data stage ----------

  /** The status packet was taken though no data packet has gone; its event waits for the firmware. */
  ghost predicate Abandoned(f: Fw, d: Dev, f0: Fw, d0: Dev, u: ControlUrb)
    requires ReadRequest(u)
  {
    && Untouched(d, d0) && !d.pktdis && TakesStatus(d) && !IsSetup(d, 0) && Unread(d.ring) == [0]
    && f == f0.(state := StateFor(u.setup[3]))
  }

  /** The firmware takes that event for the end of the data stage: it waits for a status packet, but takes a SETUP. */
  ghost predicate Behind(f: Fw, d: Dev, f0: Fw, d0: Dev) {
    Untouched(d, d0) && Drained(d) && Armed0(d) && f == f0.(state := CtsAckIn)
  }

  lemma {:induction false} StatusTaken(f: Fw, d: Dev, f0: Fw, d0: Dev, u: ControlUrb)
    requires ReadRequest(u) && d0.u1addr == u.addr && Offering(f, d, f0, d0, u)
    ensures Transfer(d, StatusOutPacket(u.addr)).1 == Ack(0, [])
    ensures Abandoned(f, Transfer(d, StatusOutPacket(u.addr)).0, f0, d0, u)
  {
    hide Transfer, Unread, TakesStatus, Untouched;
    OfferingFacts(f, d, f0, d0, u);
    StatusArrives(d, d0, u.addr);
    assert [] + [0] == [0];
  }

  lemma {:induction false} OfferingFacts(f: Fw, d: Dev, f0: Fw, d0: Dev, u: ControlUrb)
    requires ReadRequest(u) && Offering(f, d, f0, d0, u)
    ensures Untouched(d, d0) && !d.pktdis && TakesStatus(d) && BoardOk(d) && Unread(d.ring) == [] && Armed0(d)
  {
    hide Unread;
    DrainedUnread(d);
  }

  lemma {:induction false} ServesAbandoned(f: Fw, d: Dev, f0: Fw, d0: Dev, u: ControlUrb, key: byte)
    requires ReadRequest(u) && Abandoned(f, d, f0, d0, u)
    ensures var (f', d') := Round(f, d, key); Behind(f', d', f0, d0)
  {
    hide DevOk, Unread, Round;
    RingIsOk(d);
    ServingRound(f, d, key);
    var d1 := d.(ring := Advanced(d.ring));
    GetTakesOldest(d.ring);
    GetTakesOldest(d1.ring);
    DispatchOk(f, d1, 0, key);
  }

  ghost predicate InLateStatus(s: Pair, s0: Pair, u: ControlUrb, k: nat, served: bool)
    requires Start(s0, u) && ReadRequest(u)
  {
    if s.e.queue != [] then
      && Waiting(s.e, u, s0.e.mps, StatusStage, k) && k <= MAX_ERRORS && s.last.None?
      && DataReady(s.f, s.d, s0.f, s0.d, u, served)
    else if Acked(s) then Abandoned(s.f, s.d, s0.f, s0.d, u) || Behind(s.f, s.d, s0.f, s0.d)
    else s.last.Some? && HostSide(s.e, u, s0.e.mps) && DataReady(s.f, s.d, s0.f, s0.d, u, served)
  }

  lemma {:induction false} LateRound(s: Pair, s0: Pair, u: ControlUrb, key: byte)
    requires Start(s0, u) && ReadRequest(u)
    requires Abandoned(s.f, s.d, s0.f, s0.d, u) || Behind(s.f, s.d, s0.f, s0.d)
    ensures BoardOk(s.d)
    ensures var (f', d') := Round(s.f, s.d, key); Behind(f', d', s0.f, s0.d)
  {
    hide Round, Unread;
    if Abandoned(s.f, s.d, s0.f, s0.d, u) {
      ServesAbandoned(s.f, s.d, s0.f, s0.d, u, key);
    } else {
      IdleRound(s.f, s.d, key);
    }
  }

  /** One step of the status stage after a given-up data stage; k counts the errors so far. */
  lemma {:induction false} LateStep(s: Pair, s0: Pair, u: ControlUrb, k: nat, served: bool, op: Op)
    requires Start(s0, u) && ReadRequest(u) && InLateStatus(s, s0, u, k, served)
    ensures InLateStatus(Step(s, op), s0, u, if op.HostOp? then k + 1 else k, served || op.DeviceOp?)
    ensures s.e.queue != [] ==>
      var s' := Step(s, op);
      if op.DeviceOp? then s'.e.queue != []
      else if served then s'.e.queue == [] && Acked(s')
      else if k == MAX_ERRORS then s'.e.queue == [] && !Acked(s')
      else s'.e.queue != []
    ensures s.e.queue == [] ==> Step(s, op).e.queue == [] && Step(s, op).last == s.last
  {
    hide Transfer, Round, Absorb, PacketOf, SetupPending, Offering, Abandoned, Behind, EpdOk, BoardOk, Waiting, HostSide;
    StartFacts(s0, u);
    if s.e.queue != [] {
      WaitingPacket(s.e, u, s0.e.mps, StatusStage, k);
      BoardAlong(s, s0, u, served);
      match op
      case HostOp =>
        if served {
          StatusTaken(s.f, s.d, s0.f, s0.d, u);
          HostWhole(s.e, u, s0.e.mps, StatusStage, k, []);
        } else {
          TooEarly(s.d, s0.d, u.setup, PacketOf(s.e));
          HostErr(s.e, u, s0.e.mps, StatusStage, k);
          if k < MAX_ERRORS {
            WaitingPacket(Absorb(s.e, Err).epd, u, s0.e.mps, StatusStage, k + 1);
          }
        }
      case DeviceOp(key) => DataReadyRound(s, s0, u, served, key);
    } else if Acked(s) {
      match op
      case HostOp =>
      case DeviceOp(key) => LateRound(s, s0, u, key);
    } else {
      BoardAlong(s, s0, u, served);
      IdleHost(s, u, s0.e.mps);
      match op
      case HostOp =>
      case DeviceOp(key) => DataReadyRound(s, s0, u, served, key);
    }
  }

  lemma {:induction false} LateRuns(s: Pair, s0: Pair, u: ControlUrb, k: nat, served: bool, ops: seq<Op>)
    returns (k': nat, served': bool)
    requires Start(s0, u) && ReadRequest(u) && InLateStatus(s, s0, u, k, served)
    ensures InLateStatus(Steps(s, ops), s0, u, k', served')
    ensures s.e.queue != [] ==> (GivenUp(Steps(s, ops)) <==> !served && k + Early(ops) > MAX_ERRORS)
    ensures s.e.queue == [] ==> Steps(s, ops).e.queue == [] && Steps(s, ops).last == s.last
    decreases |ops|
  {
    hide Step, Start, ReadRequest, DataReady, Waiting, Abandoned, Behind;
    k', served' := k, served;
    if ops != [] {
      LateStep(s, s0, u, k, served, ops[0]);
      var k1 := if ops[0].HostOp? then k + 1 else k;
      k', served' := LateRuns(Step(s, ops[0]), s0, u, k1, served || ops[0].DeviceOp?, ops[1..]);
    }
  }

  /** Left alone, the firmware serves a SETUP event that is still waiting. */
  lemma {:induction false} ReadyDrains(f: Fw, d: Dev, f0: Fw, d0: Dev, u: ControlUrb, served: bool, key: byte)
    requires BoardOk(d0) && ReadRequest(u) && DataReady(f, d, f0, d0, u, served)
    ensures BoardOk(d)
    ensures var (f', d') := Drain(f, d, key); Offering(f', d', f0, d0, u)
  {
    hide Round, Unread, Drain;
    if served {
      DrainNone(f, d, key);
    } else {
      ServesSetup(f, d, d0, u, key);
      DrainUnfolds(f, d, key);
      var (f1, d1) := Round(f, d, key);
      OfferingFacts(f1, d1, f0, d0, u);
    }
  }

  lemma {:induction false} LateDrains(s: Pair, s0: Pair, u: ControlUrb, key: byte)
    requires Start(s0, u) && ReadRequest(u)
    requires Abandoned(s.f, s.d, s0.f, s0.d, u) || Behind(s.f, s.d, s0.f, s0.d)
    ensures BoardOk(s.d)
    ensures var (f', d') := Drain(s.f, s.d, key); Behind(f', d', s0.f, s0.d)
  {
    hide Round, Unread, Drain;
    LateRound(s, s0, u, key);
    if Abandoned(s.f, s.d, s0.f, s0.d, u) {
      DrainUnfolds(s.f, s.d, key);
      DrainedUnread(Round(s.f, s.d, key).1);
    } else {
      DrainNone(s.f, s.d, key);
    }
  }

  /** The host sends the status stage even after it has given the data stage up. It gives that up too exactly when the
      SETUP event is still not served and three more packets go before the firmware comes round; otherwise the status
      packet is acknowledged, and the firmware takes it for the end of a data stage. Either way the device, left alone,
      can take the next SETUP at its address. */
  lemma {:induction false} GivenUpRecovers(s0: Pair, u: ControlUrb, sch: Schedule, key: byte)
    requires Start(s0, u) && ReadRequest(u) && Ends(s0, u) && Acked(AfterSetup(s0, u, sch))
    requires GivenUp(AfterData(s0, u, sch)) && AfterStatus(s0, u, sch).e.queue == []
    ensures GivenUp(AfterStatus(s0, u, sch)) <==> !ServedIn(sch.data, true) && Early(sch.status) > MAX_ERRORS
    ensures BoardOk(AfterStatus(s0, u, sch).d)
    ensures
      var s := AfterStatus(s0, u, sch);
      var (f, d) := Drain(s.f, s.d, key);
      && Untouched(d, s0.d) && Drained(d) && Armed0(d)
      && f == s0.f.(state := if Acked(s) then CtsAckIn else StateFor(u.setup[3]))
  {
    hide Steps, Start, ReadRequest, Drain, Ends, StatusReady, DataReady, Abandoned, Offered, Armed0, Untouched,
      ServedIn, Early;
    StartFacts(s0, u);
    var k, served := DataPhase(s0, u, sch);
    var s2 := AfterData(s0, u, sch);
    LinkWaits(s2.e, u, s0.e.mps, StatusStage);
    assert InLateStatus(Linked(s2, u, StatusStage), s0, u, 0, served);
    var k', served' := LateRuns(Linked(s2, u, StatusStage), s0, u, 0, served, sch.status);
    var s3 := AfterStatus(s0, u, sch);
    if Acked(s3) {
      LateDrains(s3, s0, u, key);
    } else {
      ReadyDrains(s3.f, s3.d, s0.f, s0.d, u, served', key);
      var (f, d) := Drain(s3.f, s3.d, key);
      OfferingFacts(f, d, s0.f, s0.d, u);
    }
  }
}
