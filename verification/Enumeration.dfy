/** The enumeration sequence of system_loop, up to and including SET_CONFIGURATION, in lockstep with the device. */
module Enumeration {
  import opened UsbTypes
  import opened HcdModel
  import opened HcdLoop
  import opened EventRing
  import opened DeviceModel
  import opened FirmwareModel
  import opened ControlDevice
  import opened Lockstep
  import opened ControlTransfers
  import opened ControlRead

  // ---------- requests without a data stage ----------

  predicate WriteRequest(u: ControlUrb) {
    UrbOk(u) && !ToHost(u) && WLength(u) == 0 && (u.setup[1] == SET_ADDRESS || u.setup[1] == SET_CONFIGURATION)
  }

  /** The firmware after the request. */
  function FwAfter(f: Fw, u: ControlUrb): Fw
    requires WriteRequest(u)
  {
    if u.setup[1] == SET_ADDRESS then f.(addr := u.setup[2], state := CtsAckAd)
    else f.(configuration := u.setup[2], inData := 1, outData := 1, state := CtsAckSc)
  }

  /** The address register after the request: it changes only for SET_ADDRESS. */
  function AddressAfter(u: ControlUrb): int
    requires WriteRequest(u)
  {
    if u.setup[1] == SET_CONFIGURATION then u.addr
    else if u.setup[2] < 128 then u.setup[2] else u.setup[2] as int - 256
  }

  /** Endpoints 1 IN and 2 OUT as SET_CONFIGURATION arms them: DATA0, size 0. */
  predicate DataEndpointsArmed(d: Dev) {
    && |d.bdt| == 3
    && d.bdt[1].inn == Entry(0, TRN_DATA0_IN | UOWN, Buf(EP1_IN)) && !Owned(d.bdt[1].out)
    && d.bdt[2].out == Entry(0, TRN_DATA0_OUT | UOWN, Buf(EP2_OUT)) && !Owned(d.bdt[2].inn)
  }

  /** After the SETUP, while the device still answers at its old address. */
  lemma {:induction false} RequestTaken(f: Fw, d1: Dev, d: Dev, u: ControlUrb)
    requires Drained(d) && d.usben && WriteRequest(u) && SetupSeen(d1, d, u.setup)
    ensures
      var (f', d') := ProcessSetup(f, d1);
      && f' == FwAfter(f, u) && Armed0In(d', []) && d'.u1addr == d.u1addr && d'.bdt[0].out == d1.bdt[0].out
      && (u.setup[1] == SET_CONFIGURATION ==> DataEndpointsArmed(d'))
  {
    hide DevOk;
    var req := d1.bufs[EP0_OUT];
    assert req[1] == u.setup[1] && req[2] == u.setup[2];
  }

  /** What a completed request leaves: both packets were acknowledged at the address the device had before. */
  ghost predicate WriteDone(s: Submitted, w: World, u: ControlUrb)
    requires WriteRequest(u)
  {
    && s.done && Quiet(s.w) && Armed0(s.w.d) && s.w.d.u1addr == AddressAfter(u)
    && s.w.f == FwAfter(w.f, u)
    && (u.setup[1] == SET_CONFIGURATION ==> DataEndpointsArmed(s.w.d))
    && s.w.wire == w.wire + [
      Sent(SetupPacket(u.addr, u.setup), Ack(8, u.setup), u.addr),
      Sent(InPacket(u.addr, 0), Ack(0, []), u.addr)]
    && Known(s.w, w, u)
  }

  /** SET_ADDRESS and SET_CONFIGURATION complete; a new address is taken only after the status stage was acknowledged
      at the old one (section 9.4.6 of USB 2.0). */
  lemma {:induction false} WriteCompletes(w: World, u: ControlUrb, t: Timing)
    requires ReadyAt(w, u.addr) && WriteRequest(u) && t.fuel >= 8
    ensures WriteDone(Submit(w, u, t), w, u)
  {
    hide Quiet, KnownMps, RunStage, ProcessSetup, ProcessStage, Armed0In, SetupSeen, DataEndpointsArmed, AddressAfter,
      FwAfter;
    assert Drained(w.d) by { QuietDrained(w); }
    var d1 := SetupRuns(w, u, t);
    RequestTaken(w.f, d1, w.d, u);
    var w1 := RunStage(w, u, SetupStage, t.beforeSetup, t);
    StillOwned(d1, w.d, u);
    assert [][..0] == [] + u.data[..0];
    var d2 := InRuns(w1, u, StatusStage, [], t.beforeStatus, t);
    var w2 := RunStage(w1, u, StatusStage, t.beforeStatus, t);
    QuietDrained(w1);
    RequestAcked(w.f, w1.f, d2, w1.d, u);
    assert |w1.completed| == |w.completed| + 1;
    WriteWire(w, w1, w2, u);
  }

  lemma {:induction false} StillOwned(d1: Dev, d: Dev, u: ControlUrb)
    requires Drained(d) && UrbOk(u) && SetupSeen(d1, d, u.setup)
    ensures var e := d1.bdt[0].out; Owned(e) && e.cnt == 8 && e.addr == Buf(EP0_OUT) && e.stat & 1 == 0
  {
  }

  lemma {:induction false} WriteWire(w: World, w1: World, w2: World, u: ControlUrb)
    requires UrbOk(u)
    requires w1.wire == w.wire + [Sent(SetupPacket(u.addr, u.setup), Ack(8, u.setup), u.addr)]
    requires w2.wire == w1.wire + [Sent(InPacket(u.addr, 0), Ack(0, [][..0]), u.addr)]
    ensures w2.wire == w.wire + [
      Sent(SetupPacket(u.addr, u.setup), Ack(8, u.setup), u.addr),
      Sent(InPacket(u.addr, 0), Ack(0, []), u.addr)]
  {
  }

  /** The event of the status stage: SET_ADDRESS takes effect, SET_CONFIGURATION has nothing left to do. */
  lemma {:induction false} RequestAcked(f0: Fw, f: Fw, d2: Dev, d: Dev, u: ControlUrb)
    requires WriteRequest(u) && BoardOk(d2) && f == FwAfter(f0, u) && |d.bdt| == 3 && Armed0In(d, [])
    requires d2 == d.(bdt := d2.bdt, ring := d2.ring) && d2.bdt[0].out == d.bdt[0].out
    requires d2.bdt[1] == d.bdt[1] && d2.bdt[2] == d.bdt[2] && d.u1addr == u.addr
    requires var e := d.bdt[0].out; Owned(e) && e.cnt == 8 && e.addr == Buf(EP0_OUT) && e.stat & 1 == 0
    ensures
      var (f', d') := ProcessStage(f, d2);
      && f' == f && Armed0(d') && d'.u1addr == AddressAfter(u)
      && (u.setup[1] == SET_CONFIGURATION && DataEndpointsArmed(d) ==> DataEndpointsArmed(d'))
  {
  }

  // ---------- bus reset ----------

  function ResetBus(w: World, key: byte): World
    requires BoardOk(w.d)
  {
    BusResetBoard(w.d);
    var (f, d) := Drain(w.f, BusReset(w.d), key);
    w.(f := f, d := d)
  }

  /** A bus reset that passes the guard leaves the device at address 0 with endpoint 0 armed. */
  lemma {:induction false} ResetReadies(w: World, key: byte)
    requires Quiet(w) && Reachable(w.d, 0)
    ensures ReadyAt(ResetBus(w, key), 0) && ResetBus(w, key) == w.(d := ResetBus(w, key).d)
    ensures ResetBus(w, key).d.bdt[0].out == ARMED_SETUP
  {
    hide DevOk;
    QuietDrained(w);
    BusResetBoard(w.d);
    PollResetOk(BusReset(w.d));
    var d1 := PollReset(BusReset(w.d));
    RingIsOk(BusReset(w.d));
    GetTakesOldest(BusReset(w.d).ring);
    assert Drain(w.f, BusReset(w.d), key) == (w.f, d1);
  }

  // ---------- the sequence ----------

  function Read(addr: nat, mps: nat, t: byte, length: byte, data: seq<byte>): (u: ControlUrb)
    ensures |u.setup| == SETUP_SIZE && u.addr == addr && u.mps == mps
  {
    ControlUrb(addr, mps, [0x80, GET_DESCRIPTOR, 0, t, 0, 0, length, 0], data)
  }

  /** The read of the whole configuration, with wTotalLength as length and a zeroed buffer of that size. */
  function FullRead(addr: nat, mps: nat, cfgDsc: seq<byte>): (u: ControlUrb)
    requires |cfgDsc| == 9
    ensures |u.setup| == SETUP_SIZE && u.addr == addr && u.mps == mps
  {
    ControlUrb(addr, mps, [0x80, GET_DESCRIPTOR, 0, 2, 0, 0, cfgDsc[2], cfgDsc[3]],
               seq(Word(cfgDsc[2], cfgDsc[3]), _ => 0))
  }

  function Write(addr: nat, mps: nat, request: byte, value: byte): (u: ControlUrb)
    ensures |u.setup| == SETUP_SIZE && u.addr == addr && u.mps == mps
  {
    ControlUrb(addr, mps, [0x00, request, value, 0, 0, 0, 0, 0], [])
  }

  /** What system_loop has gathered; `ok` tells whether every transfer came back. */
  datatype Gathered = Gathered(w: World, ok: bool, devDsc: seq<byte>, cfgDsc: seq<byte>, fullCfg: seq<byte>)

  predicate Sizes(devDsc: seq<byte>, cfgDsc: seq<byte>) {
    |devDsc| == 18 && |cfgDsc| == 9
  }

  /** The first half: at address 0, ending with SET_ADDRESS(1). `ts` times the transfers. */
  function FirstHalf(w: World, devDsc: seq<byte>, cfgDsc: seq<byte>, ts: nat -> Timing): Gathered
    requires BoardOk(w.d) && Sizes(devDsc, cfgDsc)
  {
    var s1 := Submit(ResetBus(w, ts(0).key), Read(0, 8, 1, 18, devDsc), ts(0));
    if !s1.done || |s1.data| != 18 || !BoardOk(s1.w.d) then Gathered(s1.w, false, s1.data, cfgDsc, [])
    else
      var s2 := Submit(s1.w, Read(0, s1.data[7], 2, 9, cfgDsc), ts(1));
      if !s2.done || |s2.data| != 9 || !BoardOk(s2.w.d) then Gathered(s2.w, false, s1.data, s2.data, [])
      else
        var s3 := Submit(ResetBus(s2.w, ts(2).key), Read(0, s1.data[7], 1, 18, s1.data), ts(2));
        if !s3.done || |s3.data| != 18 then Gathered(s3.w, false, s3.data, s2.data, [])
        else
          var s4 := Submit(s3.w, Write(0, s3.data[7], SET_ADDRESS, 1), ts(3));
          Gathered(s4.w, s4.done, s3.data, s2.data, [])
  }

  /** The reads of the configuration descriptor at address 1, its header first. */
  function ConfigurationReads(w: World, devDsc: seq<byte>, cfgDsc: seq<byte>, ts: nat -> Timing): (g: Gathered)
    requires Sizes(devDsc, cfgDsc)
    ensures g.devDsc == devDsc
  {
    var s6 := Submit(w, Read(1, devDsc[7], 2, 9, cfgDsc), ts(5));
    if !s6.done || |s6.data| != 9 then Gathered(s6.w, false, devDsc, s6.data, [])
    else
      var s7 := Submit(s6.w, FullRead(1, devDsc[7], s6.data), ts(6));
      Gathered(s7.w, s7.done, devDsc, s6.data, s7.data)
  }

  /** The descriptor reads of the second half, at address 1. */
  function SecondReads(g: Gathered, ts: nat -> Timing): Gathered
    requires Sizes(g.devDsc, g.cfgDsc)
  {
    var s5 := Submit(g.w, Read(1, g.devDsc[7], 1, 18, g.devDsc), ts(4));
    if !s5.done || |s5.data| != 18 then Gathered(s5.w, false, s5.data, g.cfgDsc, [])
    else ConfigurationReads(s5.w, s5.data, g.cfgDsc, ts)
  }

  /** The second half: at address 1, ending with SET_CONFIGURATION. */
  function SecondHalf(g: Gathered, ts: nat -> Timing): Gathered
    requires Sizes(g.devDsc, g.cfgDsc)
  {
    var r := SecondReads(g, ts);
    if !r.ok || !Sizes(r.devDsc, r.cfgDsc) then r.(ok := false)
    else
      var s8 := Submit(r.w, Write(1, r.devDsc[7], SET_CONFIGURATION, r.cfgDsc[5]), ts(7));
      r.(w := s8.w, ok := s8.done)
  }

  /** The packets from index `from` on were all acknowledged, sent to `addr` while the device was at `addr`. */
  predicate AllAt(wire: seq<Sent>, from: nat, upTo: nat, addr: nat) {
    upTo <= |wire| && forall i :: from <= i < upTo ==>
      wire[i].packet.addr == addr && wire[i].deviceAddr == addr && wire[i].reply.Ack?
  }

  /** Packet i is a SETUP to endpoint 0 of this address with these eight bytes. */
  predicate Carries(wire: seq<Sent>, i: nat, addr: nat, bytes: seq<byte>) {
    i < |wire| && wire[i].packet == Packet(addr, 0, false, PidSetup, bytes, 8)
  }

  lemma {:induction false} StillCarries(wire: seq<Sent>, wire': seq<Sent>, i: nat, addr: nat, bytes: seq<byte>)
    requires wire <= wire' && Carries(wire, i, addr, bytes)
    ensures Carries(wire', i, addr, bytes)
  {
  }

  ghost predicate TimingsOk(ts: nat -> Timing) {
    forall k :: ts(k).fuel >= 8
  }

  /** A read that asks for no more than the descriptor has. */
  lemma {:induction false} ReadStep(w: World, u: ControlUrb, t: Timing)
    requires ReadyAt(w, u.addr) && ReadRequest(u) && WLength(u) == |u.data| <= |Descriptor(u.setup[3])| && t.fuel >= 8
    ensures
      var s := Submit(w, u, t);
      && ReadDone(s, w, u) && s.done && s.data == Descriptor(u.setup[3])[..|u.data|]
      && ReadyAt(s.w, u.addr) && |s.w.wire| == |w.wire| + 3 && w.wire <= s.w.wire
      && AllAt(s.w.wire, |w.wire|, |w.wire| + 3, u.addr) && s.w.f == w.f.(state := CtsSetup)
      && s.w.h.bulk == w.h.bulk && Carries(s.w.wire, |w.wire|, u.addr, u.setup)
  {
    hide Quiet, Submit, KnownMps, Armed0;
    ReadCompletes(w, u, t);
    var n := Min(|Offered(u)|, |u.data|);
    assert Offered(u)[..n] + u.data[n..] == Descriptor(u.setup[3])[..|u.data|];
  }

  lemma {:induction false} AllAtGrows(wire: seq<Sent>, wire': seq<Sent>, from: nat, mid: nat, upTo: nat, addr: nat)
    requires AllAt(wire, from, mid, addr) && wire <= wire' && AllAt(wire', mid, upTo, addr)
    ensures AllAt(wire', from, upTo, addr)
  {
    forall i | from <= i < upTo
      ensures wire'[i].packet.addr == addr && wire'[i].deviceAddr == addr && wire'[i].reply.Ack?
    {
      if i < mid {
        assert wire'[i] == wire[i];
      }
    }
  }

  lemma {:induction false} ReadIsRequest(addr: nat, mps: nat, t: byte, length: byte, data: seq<byte>)
    requires addr <= 127 && mps <= 1024 && (t == 1 || t == 2) && length >= 1
    ensures
      var u := Read(addr, mps, t, length, data);
      ReadRequest(u) && WLength(u) == length && u.addr == addr && u.setup[3] == t && u.data == data
  {
    var s := Read(addr, mps, t, length, data).setup;
    assert |s| == SETUP_SIZE;
    assert s[0] == 0x80 && s[1] == GET_DESCRIPTOR && s[3] == t && s[6] == length && s[7] == 0;
  }

  lemma {:induction false} FullReadIsRequest()
    ensures
      var u := FullRead(1, 64, CONFIG_DESCRIPTOR[..9]);
      && ReadRequest(u) && WLength(u) == 32 == |u.data| && u.addr == 1 && u.setup[3] == 2
      && forall i :: 0 <= i < 32 ==> u.data[i] == 0
  {
    var s := FullRead(1, 64, CONFIG_DESCRIPTOR[..9]).setup;
    assert |s| == SETUP_SIZE;
    assert s[0] == 0x80 && s[1] == GET_DESCRIPTOR && s[3] == 2 && s[6] == 32 && s[7] == 0;
  }

  /** At address 0: eleven packets, all to a device at address 0; then the device is at address 1. */
  lemma {:induction false} FirstHalfRuns(w: World, devDsc: seq<byte>, cfgDsc: seq<byte>, ts: nat -> Timing)
    requires Quiet(w) && Reachable(w.d, 0) && Sizes(devDsc, cfgDsc) && TimingsOk(ts)
    ensures
      var g := FirstHalf(w, devDsc, cfgDsc, ts);
      && g.ok && g.devDsc == DEVICE_DESCRIPTOR && g.cfgDsc == CONFIG_DESCRIPTOR[..9] && ReadyAt(g.w, 1)
      && |g.w.wire| == |w.wire| + 11 && w.wire <= g.w.wire && AllAt(g.w.wire, |w.wire|, |w.wire| + 11, 0)
      && g.w.wire[|w.wire| + 10].packet == InPacket(0, 0) && g.w.h.bulk == w.h.bulk
      && Carries(g.w.wire, |w.wire|, 0, [0x80, 6, 0, 1, 0, 0, 18, 0])
      && Carries(g.w.wire, |w.wire| + 3, 0, [0x80, 6, 0, 2, 0, 0, 9, 0])
      && Carries(g.w.wire, |w.wire| + 6, 0, [0x80, 6, 0, 1, 0, 0, 18, 0])
      && Carries(g.w.wire, |w.wire| + 9, 0, [0x00, 5, 1, 0, 0, 0, 0, 0])
  {
    hide Quiet, Submit, KnownMps, Armed0, ResetBus, ReadDone, WriteDone, AllAt, ReadRequest, WriteRequest, Read, Write,
      Carries;
    SetupBytes();
    ReadIsRequest(0, 8, 1, 18, devDsc);
    ReadIsRequest(0, 64, 2, 9, cfgDsc);
    ReadIsRequest(0, 64, 1, 18, DEVICE_DESCRIPTOR);
    WriteIsRequest(0, 64, SET_ADDRESS, 1);
    assert BoardOk(w.d) by { QuietDrained(w); }
    ResetReadies(w, ts(0).key);
    var w0 := ResetBus(w, ts(0).key);
    ReadStep(w0, Read(0, 8, 1, 18, devDsc), ts(0));
    var s1 := Submit(w0, Read(0, 8, 1, 18, devDsc), ts(0));
    assert s1.data == DEVICE_DESCRIPTOR;
    QuietDrained(s1.w);
    ReadStep(s1.w, Read(0, 64, 2, 9, cfgDsc), ts(1));
    var s2 := Submit(s1.w, Read(0, 64, 2, 9, cfgDsc), ts(1));
    QuietDrained(s2.w);
    ReadyReachable(s2.w, 0);
    ResetReadies(s2.w, ts(2).key);
    var w2 := ResetBus(s2.w, ts(2).key);
    ReadStep(w2, Read(0, 64, 1, 18, s1.data), ts(2));
    var s3 := Submit(w2, Read(0, 64, 1, 18, s1.data), ts(2));
    assert s3.data == DEVICE_DESCRIPTOR;
    WriteCompletes(s3.w, Write(0, 64, SET_ADDRESS, 1), ts(3));
    var s4 := Submit(s3.w, Write(0, 64, SET_ADDRESS, 1), ts(3));
    AddressDone(s3.w, Write(0, 64, SET_ADDRESS, 1), s4);
    var n := |w.wire|;
    AllAtGrows(s1.w.wire, s2.w.wire, n, n + 3, n + 6, 0);
    AllAtGrows(s2.w.wire, s3.w.wire, n, n + 6, n + 9, 0);
    AllAtGrows(s3.w.wire, s4.w.wire, n, n + 9, n + 11, 0);
    StillCarries(s1.w.wire, s4.w.wire, n, 0, [0x80, 6, 0, 1, 0, 0, 18, 0]);
    StillCarries(s2.w.wire, s4.w.wire, n + 3, 0, [0x80, 6, 0, 2, 0, 0, 9, 0]);
    StillCarries(s3.w.wire, s4.w.wire, n + 6, 0, [0x80, 6, 0, 1, 0, 0, 18, 0]);
  }

  /** The setup packets of the requests, byte by byte. */
  lemma {:induction false} SetupBytes()
    ensures forall addr: nat, mps: nat, data: seq<byte> ::
      && Read(addr, mps, 1, 18, data).setup == [0x80, 6, 0, 1, 0, 0, 18, 0]
      && Read(addr, mps, 2, 9, data).setup == [0x80, 6, 0, 2, 0, 0, 9, 0]
    ensures forall addr: nat, mps: nat ::
      && FullRead(addr, mps, CONFIG_DESCRIPTOR[..9]).setup == [0x80, 6, 0, 2, 0, 0, 32, 0]
      && Write(addr, mps, SET_ADDRESS, 1).setup == [0x00, 5, 1, 0, 0, 0, 0, 0]
      && Write(addr, mps, SET_CONFIGURATION, 1).setup == [0x00, 9, 1, 0, 0, 0, 0, 0]
  {
    assert CONFIG_DESCRIPTOR[..9][2] == 32 && CONFIG_DESCRIPTOR[..9][3] == 0;
  }

  lemma {:induction false} ReadyReachable(w: World, addr: nat)
    requires ReadyAt(w, addr)
    ensures Reachable(w.d, addr)
  {
  }

  /** At address 1: nine packets of descriptor reads, all to a device at address 1. */
  lemma {:induction false} SecondReadsRun(g: Gathered, ts: nat -> Timing)
    requires ReadyAt(g.w, 1) && TimingsOk(ts) && g.devDsc == DEVICE_DESCRIPTOR && |g.cfgDsc| == 9
    ensures
      var r := SecondReads(g, ts);
      && r.ok && r.devDsc == DEVICE_DESCRIPTOR && r.cfgDsc == CONFIG_DESCRIPTOR[..9] && r.fullCfg == CONFIG_DESCRIPTOR
      && ReadyAt(r.w, 1) && r.w.f == g.w.f.(state := CtsSetup) && r.w.h.bulk == g.w.h.bulk
      && |r.w.wire| == |g.w.wire| + 9 && g.w.wire <= r.w.wire && AllAt(r.w.wire, |g.w.wire|, |g.w.wire| + 9, 1)
      && Carries(r.w.wire, |g.w.wire|, 1, [0x80, 6, 0, 1, 0, 0, 18, 0])
      && Carries(r.w.wire, |g.w.wire| + 3, 1, [0x80, 6, 0, 2, 0, 0, 9, 0])
      && Carries(r.w.wire, |g.w.wire| + 6, 1, [0x80, 6, 0, 2, 0, 0, 32, 0])
  {
    hide Quiet, Submit, KnownMps, Armed0, ReadDone, AllAt, ReadRequest, Carries;
    SetupBytes();
    ReadIsRequest(1, 64, 1, 18, g.devDsc);
    ReadIsRequest(1, 64, 2, 9, g.cfgDsc);
    FullReadIsRequest();
    ReadStep(g.w, Read(1, 64, 1, 18, g.devDsc), ts(4));
    var s5 := Submit(g.w, Read(1, 64, 1, 18, g.devDsc), ts(4));
    ReadStep(s5.w, Read(1, 64, 2, 9, g.cfgDsc), ts(5));
    var s6 := Submit(s5.w, Read(1, 64, 2, 9, g.cfgDsc), ts(5));
    ReadStep(s6.w, FullRead(1, 64, CONFIG_DESCRIPTOR[..9]), ts(6));
    var s7 := Submit(s6.w, FullRead(1, 64, CONFIG_DESCRIPTOR[..9]), ts(6));
    var n := |g.w.wire|;
    AllAtGrows(s5.w.wire, s6.w.wire, n, n + 3, n + 6, 1);
    AllAtGrows(s6.w.wire, s7.w.wire, n, n + 6, n + 9, 1);
    StillCarries(s5.w.wire, s7.w.wire, n, 1, [0x80, 6, 0, 1, 0, 0, 18, 0]);
    StillCarries(s6.w.wire, s7.w.wire, n + 3, 1, [0x80, 6, 0, 2, 0, 0, 9, 0]);
  }

  /** At address 1: eleven packets, all to a device at address 1; then the device is configured. */
  lemma {:induction false} SecondHalfRuns(g: Gathered, ts: nat -> Timing)
    requires ReadyAt(g.w, 1) && TimingsOk(ts) && g.devDsc == DEVICE_DESCRIPTOR && |g.cfgDsc| == 9
    ensures
      var g' := SecondHalf(g, ts);
      && g'.ok && g'.devDsc == DEVICE_DESCRIPTOR && g'.fullCfg == CONFIG_DESCRIPTOR && ReadyAt(g'.w, 1)
      && DataEndpointsArmed(g'.w.d) && g'.w.f == g.w.f.(configuration := 1, inData := 1, outData := 1, state := CtsAckSc)
      && g'.w.h.bulk == g.w.h.bulk
      && |g'.w.wire| == |g.w.wire| + 11 && g.w.wire <= g'.w.wire && AllAt(g'.w.wire, |g.w.wire|, |g.w.wire| + 11, 1)
      && Carries(g'.w.wire, |g.w.wire|, 1, [0x80, 6, 0, 1, 0, 0, 18, 0])
      && Carries(g'.w.wire, |g.w.wire| + 3, 1, [0x80, 6, 0, 2, 0, 0, 9, 0])
      && Carries(g'.w.wire, |g.w.wire| + 6, 1, [0x80, 6, 0, 2, 0, 0, 32, 0])
      && Carries(g'.w.wire, |g.w.wire| + 9, 1, [0x00, 9, 1, 0, 0, 0, 0, 0])
  {
    hide Quiet, Submit, KnownMps, Armed0, DataEndpointsArmed, SecondReads, WriteDone, Write, WriteRequest, AllAt, Carries;
    SetupBytes();
    SecondReadsRun(g, ts);
    var r := SecondReads(g, ts);
    var u := Write(1, 64, SET_CONFIGURATION, 1);
    WriteIsRequest(1, 64, SET_CONFIGURATION, 1);
    assert r.devDsc[7] == 64 && r.cfgDsc[5] == 1;
    WriteCompletes(r.w, u, ts(7));
    ConfigurationDone(r.w, u, Submit(r.w, u, ts(7)));
    var n := |g.w.wire|;
    var w' := Submit(r.w, u, ts(7)).w;
    AllAtGrows(r.w.wire, w'.wire, n, n + 9, n + 11, 1);
    StillCarries(r.w.wire, w'.wire, n, 1, [0x80, 6, 0, 1, 0, 0, 18, 0]);
    StillCarries(r.w.wire, w'.wire, n + 3, 1, [0x80, 6, 0, 2, 0, 0, 9, 0]);
    StillCarries(r.w.wire, w'.wire, n + 6, 1, [0x80, 6, 0, 2, 0, 0, 32, 0]);
  }

  lemma {:induction false} WriteIsRequest(addr: nat, mps: nat, request: byte, value: byte)
    requires addr <= 127 && mps <= 1024 && (request == SET_ADDRESS || request == SET_CONFIGURATION)
    ensures
      var u := Write(addr, mps, request, value);
      WriteRequest(u) && u.addr == addr && u.setup[1] == request && u.setup[2] == value
  {
    var s := Write(addr, mps, request, value).setup;
    assert |s| == SETUP_SIZE;
    assert s[0] == 0 && s[1] == request && s[2] == value;
    assert s[6] == 0 && s[7] == 0;
  }

  lemma {:induction false} AddressDone(w: World, u: ControlUrb, s: Submitted)
    requires WriteRequest(u) && u.addr == 0 && u.setup[1] == SET_ADDRESS && u.setup[2] == 1 && WriteDone(s, w, u)
    ensures s.done && ReadyAt(s.w, 1) && s.w.h.bulk == w.h.bulk
    ensures |s.w.wire| == |w.wire| + 2 && w.wire <= s.w.wire && AllAt(s.w.wire, |w.wire|, |w.wire| + 2, 0)
    ensures s.w.wire[|w.wire| + 1].packet == InPacket(0, 0)
    ensures Carries(s.w.wire, |w.wire|, u.addr, u.setup)
  {
  }

  lemma {:induction false} ConfigurationDone(w: World, u: ControlUrb, s: Submitted)
    requires WriteRequest(u) && u.addr == 1 && u.setup[1] == SET_CONFIGURATION && u.setup[2] == 1 && WriteDone(s, w, u)
    ensures s.done && ReadyAt(s.w, 1) && DataEndpointsArmed(s.w.d)
    ensures s.w.h.bulk == w.h.bulk && s.w.f == w.f.(configuration := 1, inData := 1, outData := 1, state := CtsAckSc)
    ensures |s.w.wire| == |w.wire| + 2 && w.wire <= s.w.wire && AllAt(s.w.wire, |w.wire|, |w.wire| + 2, 1)
    ensures Carries(s.w.wire, |w.wire|, u.addr, u.setup)
  {
  }

  /** Enumeration succeeds from any quiet system whose device answers at address 0. Host and device addresses agree on
      every packet: the first eleven go to a device at address 0, the last of them the acknowledged status stage of
      SET_ADDRESS, and the other eleven to a device at address 1. The eight setup packets carry the bytes written out. */
  lemma {:induction false} EnumerationAgrees(w: World, devDsc: seq<byte>, cfgDsc: seq<byte>, ts: nat -> Timing)
    requires Quiet(w) && Reachable(w.d, 0) && Sizes(devDsc, cfgDsc) && TimingsOk(ts)
    ensures Sizes(FirstHalf(w, devDsc, cfgDsc, ts).devDsc, FirstHalf(w, devDsc, cfgDsc, ts).cfgDsc)
    ensures
      var g := SecondHalf(FirstHalf(w, devDsc, cfgDsc, ts), ts);
      var n := |w.wire|;
      && g.ok && g.devDsc == DEVICE_DESCRIPTOR && g.fullCfg == CONFIG_DESCRIPTOR
      && ReadyAt(g.w, 1) && DataEndpointsArmed(g.w.d) && g.w.f.configuration == CONFIG_DESCRIPTOR[5]
      && g.w.h.bulk == w.h.bulk && g.w.f.inData == 1 && g.w.f.outData == 1 && g.w.f.state == CtsAckSc
      && |g.w.wire| == n + 22 && w.wire <= g.w.wire
      && AllAt(g.w.wire, n, n + 11, 0) && AllAt(g.w.wire, n + 11, n + 22, 1)
      && g.w.wire[n + 10].packet == InPacket(0, 0)
      && Carries(g.w.wire, n, 0, [0x80, 6, 0, 1, 0, 0, 18, 0])
      && Carries(g.w.wire, n + 3, 0, [0x80, 6, 0, 2, 0, 0, 9, 0])
      && Carries(g.w.wire, n + 6, 0, [0x80, 6, 0, 1, 0, 0, 18, 0])
      && Carries(g.w.wire, n + 9, 0, [0x00, 5, 1, 0, 0, 0, 0, 0])
      && Carries(g.w.wire, n + 11, 1, [0x80, 6, 0, 1, 0, 0, 18, 0])
      && Carries(g.w.wire, n + 14, 1, [0x80, 6, 0, 2, 0, 0, 9, 0])
      && Carries(g.w.wire, n + 17, 1, [0x80, 6, 0, 2, 0, 0, 32, 0])
      && Carries(g.w.wire, n + 20, 1, [0x00, 9, 1, 0, 0, 0, 0, 0])
  {
    hide FirstHalf, SecondHalf, DataEndpointsArmed, Carries;
    FirstHalfRuns(w, devDsc, cfgDsc, ts);
    var g := FirstHalf(w, devDsc, cfgDsc, ts);
    SecondHalfRuns(g, ts);
    var g' := SecondHalf(g, ts);
    var n := |w.wire|;
    forall i | n <= i < n + 11 ensures g'.w.wire[i] == g.w.wire[i] {}
    StillCarries(g.w.wire, g'.w.wire, n, 0, [0x80, 6, 0, 1, 0, 0, 18, 0]);
    StillCarries(g.w.wire, g'.w.wire, n + 3, 0, [0x80, 6, 0, 2, 0, 0, 9, 0]);
    StillCarries(g.w.wire, g'.w.wire, n + 6, 0, [0x80, 6, 0, 1, 0, 0, 18, 0]);
    StillCarries(g.w.wire, g'.w.wire, n + 9, 0, [0x00, 5, 1, 0, 0, 0, 0, 0]);
  }

  /** The system right after power-on, with the device enabled. */
  function PowerOn(): World {
    var blank := Entry(0, 0, Null);
    var buffer := seq(BUF_SIZE, _ => 0);
    World(Hcd([], [], [], 0, 0), Control0,
          Dev(true, 0, false, false, seq(3, _ => EpDsc(blank, blank)), [buffer, buffer, buffer, buffer], EmptyRing()),
          Fw(CtsSetup, 0, 0, 0, 0), [], [])
  }

  lemma {:induction false} PowerOnReady()
    ensures Quiet(PowerOn()) && Reachable(PowerOn().d, 0)
    ensures
      var w := PowerOn();
      && w.h == Hcd([], [], [], 0, 0) && w.phase == Control0 && w.completed == [] && w.wire == []
      && w.f == Fw(CtsSetup, 0, 0, 0, 0) && w.d.usben && w.d.u1addr == 0 && !w.d.pktdis && !w.d.reset
      && |w.d.bdt| == 3 && (forall i :: 0 <= i < 3 ==> w.d.bdt[i] == EpDsc(Entry(0, 0, Null), Entry(0, 0, Null)))
      && |w.d.bufs| == 4 && (forall i, j :: 0 <= i < 4 && 0 <= j < 64 ==> |w.d.bufs[i]| == 64 && w.d.bufs[i][j] == 0)
  {
  }

  /** A read that never comes back, however long the wait: 64 bytes of the 18-byte device descriptor with a packet size
      of 8, right after power-on. */
  lemma {:induction false} OverlongRead(t: Timing)
    requires t.fuel >= 8
    ensures
      var w := ResetBus(PowerOn(), t.key);
      ReadyAt(w, 0) && !Submit(w, Read(0, 8, 1, 64, seq(64, _ => 0)), t).done
  {
    hide Quiet, Submit, Armed0;
    PowerOnReady();
    ResetReadies(PowerOn(), t.key);
    var w := ResetBus(PowerOn(), t.key);
    var u := Read(0, 8, 1, 64, seq(64, _ => 0));
    ReadIsRequest(0, 8, 1, 64, seq(64, _ => 0));
    ReadOfBufferLength(w, u, t);
  }
}
