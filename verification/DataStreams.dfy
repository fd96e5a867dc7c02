/** What the configured device is for: the keys it sends on endpoint 1 IN and the bytes it receives on endpoint 2 OUT,
    over every lockstep run after SET_CONFIGURATION in which the device is not configured again. */
module DataStreams {
  import opened UsbTypes
  import opened HcdModel
  import opened HcdLoop
  import opened EventRing
  import opened DeviceModel
  import opened FirmwareModel
  import opened ControlDevice
  import opened Lockstep
  import opened ControlTransfers
  import opened Enumeration
  import opened DataToggles
  import opened DataRuns
  import opened DataRequests

  // ---------- what the bus shows ----------

  predicate TookIn(s: Sent) {
    s.packet.dirIn && s.packet.ep == 1 && s.reply.Ack?
  }

  predicate TookOut(s: Sent) {
    !s.packet.dirIn && s.packet.ep == 2 && s.reply.Ack? && s.reply.rlen <= |s.packet.data|
  }

  /** The bytes the host got on endpoint 1 IN. */
  function InBytes(wire: seq<Sent>): seq<byte> {
    if wire == [] then []
    else
      var s := wire[|wire| - 1];
      InBytes(wire[..|wire| - 1]) + (if TookIn(s) then s.reply.data else [])
  }

  /** The bytes the device accepted on endpoint 2 OUT, packet by packet. */
  function OutPackets(wire: seq<Sent>): seq<seq<byte>> {
    if wire == [] then []
    else
      var s := wire[|wire| - 1];
      OutPackets(wire[..|wire| - 1]) + (if TookOut(s) then [s.packet.data[..s.reply.rlen]] else [])
  }

  /** A packet overwrites the start of a buffer and leaves the rest. */
  function Overlay(buf: seq<byte>, p: seq<byte>): seq<byte> {
    if |p| <= |buf| then p + buf[|p|..] else p
  }

  function Overlaid(buf: seq<byte>, ps: seq<seq<byte>>): seq<byte> {
    if ps == [] then buf else Overlay(Overlaid(buf, ps[..|ps| - 1]), ps[|ps| - 1])
  }

  /** The keys pressed when the firmware served an event of endpoint 1 IN: one for each acknowledged packet. */
  function Keys(w: World, ops: seq<DataOp>): seq<byte> {
    if ops == [] then []
    else
      var w1, op := RunData(w, ops[..|ops| - 1]), ops[|ops| - 1];
      Keys(w, ops[..|ops| - 1]) +
      (if op.LoopOp? && AckedNext(w1, 1) then [op.key] else [])
  }

  lemma {:induction false} BusGrows(wire: seq<Sent>, s: Sent)
    ensures InBytes(wire + [s]) == InBytes(wire) + (if TookIn(s) then s.reply.data else [])
    ensures OutPackets(wire + [s]) ==
            OutPackets(wire) + (if TookOut(s) then [s.packet.data[..s.reply.rlen]] else [])
  {
    assert (wire + [s])[..|wire|] == wire;
  }

  lemma {:induction false} OverlaidGrows(buf: seq<byte>, ps: seq<seq<byte>>, p: seq<byte>)
    ensures Overlaid(buf, ps + [p]) == Overlay(Overlaid(buf, ps), p)
  {
    assert (ps + [p])[..|ps|] == ps;
  }

  // ---------- the device's side of one packet ----------

  /** The bytes the next IN packet on endpoint 1 can take. */
  function ArmedKey(d: Dev): seq<byte>
    requires BoardOk(d) && d.bdt[1].inn.cnt <= BUF_SIZE
  {
    d.bufs[EP1_IN][..d.bdt[1].inn.cnt]
  }

  /** An IN packet takes what it has room for of the armed bytes; the firmware arms the next key. */
  lemma {:induction false} KeyTaken(f: Fw, d: Dev, t1: nat, t2: nat, p: Packet, key: byte)
    requires DeviceSide(f, d, t1, t2) && DataPacket(p) && Welcome(d, p) && p.ep == 1
    ensures Transfer(d, p).1.Ack? && Transfer(d, p).1.data == ArmedKey(d)[..Min(d.bdt[1].inn.cnt, p.size)]
    ensures
      var (f', d') := Serve(f, d, p, key);
      && BoardOk(d') && d'.bdt[1].inn.cnt == 1 && ArmedKey(d') == [key]
      && d'.bufs[EP2_OUT] == d.bufs[EP2_OUT] && d'.bdt[2] == d.bdt[2]
  {
    hide Drain, Round, Post, Unread, DevOk;
    KindOfStat(t1);
    TransferBoard(d, p);
    var t := Transfer(d, p).0;
    assert DevOk(d);
    RingIsOk(d);
    RingIsOk(t);
    PostToDrained(d.ring, ENDPOINT_IN);
    assert t.ring == Post(d.ring, ENDPOINT_IN);
    DrainOne(f, t, ENDPOINT_IN, key);
  }

  /** An OUT packet: what the entry has room for overwrites the start of the buffer; the firmware arms the whole buffer. */
  lemma {:induction false} BytesTaken(f: Fw, d: Dev, t1: nat, t2: nat, p: Packet, key: byte)
    requires DeviceSide(f, d, t1, t2) && DataPacket(p) && Welcome(d, p) && p.ep == 2
    ensures Transfer(d, p).1.Ack? && Transfer(d, p).1.rlen == Min(d.bdt[2].out.cnt, p.size)
    ensures
      var (f', d') := Serve(f, d, p, key);
      && BoardOk(d') && d'.bdt[2].out.cnt == BUF_SIZE && d'.bdt[1] == d.bdt[1]
      && d'.bufs[EP2_OUT] == Overlay(d.bufs[EP2_OUT], p.data[..Min(d.bdt[2].out.cnt, p.size)])
      && d'.bufs[EP1_IN] == d.bufs[EP1_IN]
  {
    hide Drain, Round, Post, Unread, DevOk;
    KindOfStat(t2);
    TransferBoard(d, p);
    var t := Transfer(d, p).0;
    assert DevOk(d);
    RingIsOk(d);
    RingIsOk(t);
    PostToDrained(d.ring, ENDPOINT_OUT);
    ToggleTestInert(d.bdt[2].out, p.pid);
    assert t.ring == Post(d.ring, ENDPOINT_OUT);
    DrainOne(f, t, ENDPOINT_OUT, key);
  }

  // ---------- the bus and the device together ----------

  /** What has gone over the bus since w. */
  function Since(w: World, w': World): seq<Sent> {
    if |w.wire| <= |w'.wire| then w'.wire[|w.wire|..] else []
  }

  predicate AnyIn(wire: seq<Sent>) {
    exists i :: 0 <= i < |wire| && TookIn(wire[i])
  }

  /** Every IN packet of endpoint 1 but the first had room for a key. */
  predicate RoomForKeys(wire: seq<Sent>) {
    forall i, j :: 0 <= i < j < |wire| && TookIn(wire[i]) && TookIn(wire[j]) ==> wire[j].packet.size > 0
  }

  lemma {:induction false} RoomGrows(wire: seq<Sent>, s: Sent)
    ensures AnyIn(wire + [s]) <==> AnyIn(wire) || TookIn(s)
    ensures RoomForKeys(wire + [s]) <==> RoomForKeys(wire) && (AnyIn(wire) && TookIn(s) ==> s.packet.size > 0)
  {
    hide TookIn;
    var wire' := wire + [s];
    assert wire'[|wire|] == s && forall i :: 0 <= i < |wire| ==> wire'[i] == wire[i];
    if AnyIn(wire) {
      var i :| 0 <= i < |wire| && TookIn(wire[i]);
      assert TookIn(wire'[i]);
    }
    if RoomForKeys(wire') {
      forall i, j | 0 <= i < j < |wire| && TookIn(wire[i]) && TookIn(wire[j]) ensures wire[j].packet.size > 0 {
        assert TookIn(wire'[i]) && TookIn(wire'[j]);
      }
    }
  }

  /** `keys`: those served so far; `wire`: what has gone over the bus; `buffer`: the receive buffer at the start. */
  ghost predicate StreamInv(d: Dev, keys: seq<byte>, wire: seq<Sent>, buffer: seq<byte>) {
    && BoardOk(d) && d.bdt[1].inn.cnt == (if AnyIn(wire) then 1 else 0)
    && |keys| >= |InBytes(wire)| + |ArmedKey(d)|
    && (RoomForKeys(wire) <==> |keys| == |InBytes(wire)| + |ArmedKey(d)|)
    && (RoomForKeys(wire) ==> keys == InBytes(wire) + ArmedKey(d))
    && d.bufs[EP2_OUT] == Overlaid(buffer, OutPackets(wire))
    && d.bdt[2].out.cnt == if OutPackets(wire) == [] then 0 else BUF_SIZE
  }

  lemma {:induction false} KeyKeepsStreams(f: Fw, d: Dev, t1: nat, t2: nat, p: Packet, key: byte, a: int,
                                           keys: seq<byte>, wire: seq<Sent>, buffer: seq<byte>)
    requires StreamInv(d, keys, wire, buffer)
    requires DeviceSide(f, d, t1, t2) && DataPacket(p) && Welcome(d, p) && p.ep == 1
    ensures BoardOk(d) &&
            StreamInv(Serve(f, d, p, key).1, keys + [key], wire + [Lockstep.Sent(p, Transfer(d, p).1, a)], buffer)
  {
    hide Transfer, Serve, DevOk, Overlaid, InBytes, OutPackets, DeviceSide, RoomForKeys, AnyIn;
    KeyTaken(f, d, t1, t2, p, key);
    var s := Lockstep.Sent(p, Transfer(d, p).1, a);
    BusGrows(wire, s);
    RoomGrows(wire, s);
    assert OutPackets(wire) + [] == OutPackets(wire);
    KeyCounts(keys, InBytes(wire), ArmedKey(d), p.size, key);
  }

  lemma {:induction false} KeyCounts(keys: seq<byte>, got: seq<byte>, armed: seq<byte>, size: nat, key: byte)
    requires |armed| <= 1 && |keys| >= |got| + |armed|
    ensures
      var got', keys' := got + armed[..Min(|armed|, size)], keys + [key];
      && |keys'| >= |got'| + 1
      && (|keys'| == |got'| + 1 <==> |keys| == |got| + |armed| && (|armed| == 1 ==> size > 0))
      && (keys == got + armed && (|armed| == 1 ==> size > 0) ==> keys' == got' + [key])
  {
    if |armed| == 0 || size > 0 {
      assert armed[..Min(|armed|, size)] == armed;
    }
  }

  lemma {:induction false} BytesKeepStreams(f: Fw, d: Dev, t1: nat, t2: nat, p: Packet, key: byte, a: int,
                                            keys: seq<byte>, wire: seq<Sent>, buffer: seq<byte>)
    requires StreamInv(d, keys, wire, buffer)
    requires DeviceSide(f, d, t1, t2) && DataPacket(p) && Welcome(d, p) && p.ep == 2
    ensures BoardOk(d) && StreamInv(Serve(f, d, p, key).1, keys, wire + [Lockstep.Sent(p, Transfer(d, p).1, a)], buffer)
  {
    hide Transfer, Serve, DevOk, Overlaid, InBytes, OutPackets, DeviceSide, RoomForKeys, AnyIn;
    BytesTaken(f, d, t1, t2, p, key);
    var s := Lockstep.Sent(p, Transfer(d, p).1, a);
    BusGrows(wire, s);
    RoomGrows(wire, s);
    assert InBytes(wire) + [] == InBytes(wire);
    OverlaidGrows(buffer, OutPackets(wire), p.data[..s.reply.rlen]);
  }

  /** A packet that takes no part in either stream. */
  lemma {:induction false} OtherKeepsStreams(d: Dev, d': Dev, s: Sent, keys: seq<byte>, wire: seq<Sent>, buffer: seq<byte>)
    requires StreamInv(d, keys, wire, buffer) && BoardOk(d') && !TookIn(s) && !TookOut(s)
    requires d'.bdt[1] == d.bdt[1] && d'.bdt[2] == d.bdt[2]
    requires d'.bufs[EP1_IN] == d.bufs[EP1_IN] && d'.bufs[EP2_OUT] == d.bufs[EP2_OUT]
    ensures StreamInv(d', keys, wire + [s], buffer)
  {
    hide DevOk, Overlaid, InBytes, OutPackets, RoomForKeys, AnyIn, TookIn, TookOut;
    BusGrows(wire, s);
    RoomGrows(wire, s);
    assert OutPackets(wire) + [] == OutPackets(wire) && InBytes(wire) + [] == InBytes(wire);
  }

  // ---------- runs ----------

  /** One iteration: at most one packet more on the bus. */
  lemma {:induction false} LoopKeepsStreams(w: World, key: byte, u1: nat, u2: nat, t1: nat, t2: nat, keys: seq<byte>,
                                            before: seq<Sent>, buffer: seq<byte>)
    requires InStep(w, u1, u2, t1, t2) && !RequestNext(w, SET_CONFIGURATION) && before <= w.wire
    requires StreamInv(w.d, keys, w.wire[|before|..], buffer)
    ensures var w' := LoopStep(w, key);
      && before <= w'.wire
      && StreamInv(w'.d, if AckedNext(w, 1) then keys + [key] else keys, w'.wire[|before|..], buffer)
  {
    hide LoopStep, HostSide, DeviceSide, NextPacket, Transfer, Serve, PacketOf, StreamInv, TakesRequest, DevOk, Welcome,
         DataUntouched, HostEpd, HcdModel.Absorb;
    if NextPacket(w).None? {
      SilentTurn(w, key);
    } else {
      PacketTurn(w, key);
      var p := NextPacket(w).value;
      var s := Lockstep.Sent(p, Transfer(w.d, p).1, w.d.u1addr);
      assert LoopStep(w, key).wire[|before|..] == w.wire[|before|..] + [s];
      if NextKind(w).Control? {
        ControlTurn(w, key, u1, u2, t1, t2);
        SideDrained(w.f, w.d, t1, t2);
        UntouchedIs(w.f, w.d, LoopStep(w, key).f, LoopStep(w, key).d);
        OtherKeepsStreams(w.d, LoopStep(w, key).d, s, keys, w.wire[|before|..], buffer);
      } else {
        BulkKeepsStreams(w, key, u1, u2, t1, t2, keys, before, buffer);
      }
    }
  }

  lemma {:induction false} UntouchedIs(f: Fw, d: Dev, f': Fw, d': Dev)
    requires BoardOk(d) && DataUntouched(f, d, f', d')
    ensures BoardOk(d') && d'.bdt[1] == d.bdt[1] && d'.bdt[2] == d.bdt[2]
    ensures d'.bufs[EP1_IN] == d.bufs[EP1_IN] && d'.bufs[EP2_OUT] == d.bufs[EP2_OUT]
  {
  }

  lemma {:induction false} BulkKeepsStreams(w: World, key: byte, u1: nat, u2: nat, t1: nat, t2: nat, keys: seq<byte>,
                                            before: seq<Sent>, buffer: seq<byte>)
    requires InStep(w, u1, u2, t1, t2) && NextPacket(w).Some? && NextKind(w).Bulk? && before <= w.wire
    requires StreamInv(w.d, keys, w.wire[|before|..], buffer)
    ensures var w' := LoopStep(w, key);
      && before <= w'.wire
      && StreamInv(w'.d, if AckedNext(w, 1) then keys + [key] else keys, w'.wire[|before|..], buffer)
  {
    hide LoopStep, HostSide, DeviceSide, NextPacket, Transfer, Serve, PacketOf, StreamInv, TakesRequest, DevOk, Welcome,
         HostEpd, HcdModel.Absorb;
    PacketTurn(w, key);
    HostBounds(w.h, NextIndex(w), u1, u2);
    HostPacket(w.h.bulk[NextIndex(w)], u1, u2);
    var p, d, wire := NextPacket(w).value, w.d, w.wire[|before|..];
    var s := Lockstep.Sent(p, Transfer(d, p).1, d.u1addr);
    assert LoopStep(w, key).wire[|before|..] == wire + [s];
    AckedIffWelcome(w.f, d, t1, t2, p);
    if !Welcome(d, p) {
      Refused(w.f, d, t1, t2, p, key);
      OtherKeepsStreams(d, d, s, keys, wire, buffer);
    } else if p.ep == 1 {
      KeyKeepsStreams(w.f, d, t1, t2, p, key, d.u1addr, keys, wire, buffer);
    } else {
      BytesKeepStreams(w.f, d, t1, t2, p, key, d.u1addr, keys, wire, buffer);
    }
  }

  lemma {:induction false} StartStreams(w: World)
    requires JustConfigured(w)
    ensures BoardOk(w.d) && StreamInv(w.d, [], [], w.d.bufs[EP2_OUT])
  {
  }

  lemma {:induction false} StreamsKept(w: World, ops: seq<DataOp>)
    requires JustConfigured(w) && NeverRequested(w, ops, SET_CONFIGURATION)
    ensures BoardOk(w.d) && w.wire <= RunData(w, ops).wire
    ensures StreamInv(RunData(w, ops).d, Keys(w, ops), Since(w, RunData(w, ops)), w.d.bufs[EP2_OUT])
  {
    hide StreamInv, InStep, LoopStep, BoardOk, RequestNext, AckedNext, JustConfigured, HostToggle, DeviceToggle;
    StartStreams(w);
    if ops == [] {
      assert Since(w, w) == [];
    } else {
      var ops0, op := ops[..|ops| - 1], ops[|ops| - 1];
      var w1 := RunData(w, ops0);
      StreamsKept(w, ops0);
      match op
      case LinkOp(req) =>
        assert Keys(w, ops0) + [] == Keys(w, ops0);
      case LoopOp(key) =>
        RunStaysInStep(w, ops0);
        LoopKeepsStreams(w1, key, HostToggle(w, ops0, 1), HostToggle(w, ops0, 2),
                         DeviceToggle(w, ops0, 1), DeviceToggle(w, ops0, 2), Keys(w, ops0), w.wire, w.d.bufs[EP2_OUT]);
        assert Keys(w, ops0) + [] == Keys(w, ops0);
    }
  }

  /** The keys arrive in order, each once, with at most one still armed, if and only if no acknowledged IN packet of
      endpoint 1 but the first asked for zero bytes. */
  lemma {:induction false} KeysArriveIff(w: World, ops: seq<DataOp>)
    requires JustConfigured(w) && NeverRequested(w, ops, SET_CONFIGURATION)
    ensures
      var w' := RunData(w, ops);
      && BoardOk(w'.d) && w'.d.bdt[1].inn.cnt <= 1
      && (Keys(w, ops) == InBytes(Since(w, w')) + ArmedKey(w'.d) <==> RoomForKeys(Since(w, w')))
  {
    hide BoardOk;
    StreamsKept(w, ops);
  }

  /** What the firmware finds in its receive buffer: the packets accepted so far, each written over the one before, so
      behind the bytes of the last packet stands what earlier ones left. The very first packet is accepted with no byte,
      every later one whole. */
  lemma {:induction false} ReceivedBytes(w: World, ops: seq<DataOp>)
    requires JustConfigured(w) && NeverRequested(w, ops, SET_CONFIGURATION)
    ensures
      var w' := RunData(w, ops);
      && BoardOk(w.d) && BoardOk(w'.d)
      && w'.d.bufs[EP2_OUT] == Overlaid(w.d.bufs[EP2_OUT], OutPackets(Since(w, w')))
      && (NextPacket(w').Some? && NextPacket(w').value.ep == 2 ==>
            var p := NextPacket(w').value;
            && DataPacket(p)
            && (Transfer(w'.d, p).1.Ack? ==>
                  Transfer(w'.d, p).1.rlen == if OutPackets(Since(w, w')) == [] then 0 else p.size))
  {
    hide InStep, NextPacket, Transfer, Serve, RunData, Since, OutPackets, Overlaid, InBytes, Welcome,
         HostToggle, DeviceToggle;
    StreamsKept(w, ops);
    var w' := RunData(w, ops);
    if NextPacket(w').Some? && NextPacket(w').value.ep == 2 {
      RunStaysInStep(w, ops);
      var t1, t2 := DeviceToggle(w, ops, 1), DeviceToggle(w, ops, 2);
      var p := NextPacket(w').value;
      NextInStep(w', HostToggle(w, ops, 1), HostToggle(w, ops, 2), t1, t2);
      assert DeviceSide(w'.f, w'.d, t1, t2) by { InStepSide(w', HostToggle(w, ops, 1), HostToggle(w, ops, 2), t1, t2); }
      if Transfer(w'.d, p).1.Ack? {
        BytesTaken(w'.f, w'.d, t1, t2, p, 0);
        WelcomeSize(w'.d, p);
      }
    }
  }

  lemma {:induction false} InStepSide(w: World, u1: nat, u2: nat, t1: nat, t2: nat)
    requires InStep(w, u1, u2, t1, t2)
    ensures DeviceSide(w.f, w.d, t1, t2)
  {
  }

  lemma {:induction false} WelcomeSize(d: Dev, p: Packet)
    requires Welcome(d, p) && p.ep == 2
    ensures p.size <= BUF_SIZE
  {
  }

  // ---------- reads that ask for nothing ----------

  /** A queued read still asks for bytes, unless its buffer was empty from the start; on endpoint 1 no such read was linked
      if `full`. */
  predicate Asks(td: Td, ep: nat, full: bool) {
    td.pid.In? ==> td.pos < |td.buffer| || (td.buffer == [] && !(full && ep == 1))
  }

  predicate QueueAsks(e: Epd, full: bool) {
    forall j :: 0 <= j < |e.queue| ==> Asks(e.queue[j], e.ep, full)
  }

  predicate AllAsk(l: seq<Epd>, full: bool) {
    forall i :: 0 <= i < |l| ==> QueueAsks(l[i], full)
  }

  lemma {:induction false} AbsorbAsks(e: Epd, r: Reply, full: bool)
    requires EpdOk(e) && e.queue != [] && ReplyFits(PacketOf(e), r) && QueueAsks(e, full)
    ensures QueueAsks(Absorb(e, r).epd, full)
  {
    hide PacketOf;
    var q := Absorb(e, r).epd.queue;
    AbsorbKeepsKey(e, r);
    HeadKept(e, r);
    assert Asks(e.queue[0], e.ep, full);
    if q != e.queue[1..] {
      HeadAsks(e, r);
      forall j | 0 <= j < |q| ensures Asks(q[j], e.ep, full) {
        assert j > 0 ==> q[j] == q[1..][j - 1] && e.queue[1..][j - 1] == e.queue[j];
      }
    }
  }

  lemma {:induction false} HeadAsks(e: Epd, r: Reply)
    requires EpdOk(e) && e.queue != [] && ReplyFits(PacketOf(e), r)
    ensures
      var o, td := Absorb(e, r), e.queue[0];
      o.retired.None? && td.pid.In? ==>
        && o.epd.queue != [] && |o.epd.queue[0].buffer| == |td.buffer|
        && (o.epd.queue[0].pos == td.pos || o.epd.queue[0].pos < |td.buffer|)
  {
  }

  lemma {:induction false} LinkAsks(h: Hcd, req: LinkReq, full: bool)
    requires AllAsk(h.bulk, full) && (full && req.dirIn && req.ep % 16 == 1 ==> req.data != [])
    ensures AllAsk(Link(h, req).bulk, full)
  {
    var l, l' := h.bulk, Link(h, req).bulk;
    var i := FindFrom(l, req.addr, req.ep % 16, 0);
    forall j | 0 <= j < |l'| ensures QueueAsks(l'[j], full) {
      if KindOf(req).Bulk? && j == i {
        var td := NewTd(h.nextId, req);
        assert Asks(td, req.ep % 16, full);
        assert l'[j].queue == (if i < |l| then l[i].queue else []) + [td];
      } else {
        assert l'[j] == l[j];
      }
    }
  }

  /** Every read linked on endpoint 1 has a buffer. */
  predicate ReadsHaveBuffers(ops: seq<DataOp>) {
    forall k :: 0 <= k < |ops| && ops[k].LinkOp? ==>
      var req := ops[k].req;
      req.dirIn && req.ep % 16 == 1 ==> req.data != []
  }

  /** Every IN packet of endpoint 1 on the bus asked for a byte. */
  predicate AllRoom(wire: seq<Sent>) {
    forall i :: 0 <= i < |wire| && TookIn(wire[i]) ==> wire[i].packet.size > 0
  }

  /** The size of an IN packet of the bulk list. */
  lemma {:induction false} NextAsks(w: World, u1: nat, u2: nat, t1: nat, t2: nat, full: bool)
    requires InStep(w, u1, u2, t1, t2) && AllAsk(w.h.bulk, full) && NextPacket(w).Some? && NextPacket(w).value.ep == 1
    ensures NextKind(w).Bulk? && NextIndex(w) < |w.h.bulk| && w.h.bulk[NextIndex(w)].queue != []
    ensures
      var p, td := NextPacket(w).value, w.h.bulk[NextIndex(w)].queue[0];
      p.dirIn ==> (p.size == 0 <==> td.buffer == []) && (full ==> p.size > 0)
  {
    hide HostSide, DeviceSide, NextPacket, Transfer, Serve, HostEpd, HcdModel.Absorb, DevOk;
    if NextKind(w).Control? {
      ControlTurn(w, 0, u1, u2, t1, t2);
    }
    PacketTurn(w, 0);
    var e := w.h.bulk[NextIndex(w)];
    assert QueueAsks(e, full) && Asks(e.queue[0], e.ep, full);
  }

  lemma {:induction false} LoopAsks(w: World, key: byte, u1: nat, u2: nat, t1: nat, t2: nat, full: bool, before: seq<Sent>)
    requires InStep(w, u1, u2, t1, t2) && AllAsk(w.h.bulk, full) && before <= w.wire
    requires full ==> AllRoom(w.wire[|before|..])
    ensures var w' := LoopStep(w, key);
      before <= w'.wire && AllAsk(w'.h.bulk, full) && (full ==> AllRoom(w'.wire[|before|..]))
  {
    hide LoopStep, HostSide, DeviceSide, NextPacket, Transfer, Serve, PacketOf, HostEpd, HcdModel.Absorb, DevOk, QueueAsks;
    if NextPacket(w).None? {
      SilentTurn(w, key);
    } else {
      PacketTurn(w, key);
      var p, i := NextPacket(w).value, NextIndex(w);
      if p.ep == 1 {
        NextAsks(w, u1, u2, t1, t2, full);
      }
      if NextKind(w).Bulk? {
        AbsorbAsks(w.h.bulk[i], Transfer(w.d, p).1, full);
      }
      var s := Lockstep.Sent(p, Transfer(w.d, p).1, w.d.u1addr);
      assert LoopStep(w, key).wire[|before|..] == w.wire[|before|..] + [s];
    }
  }

  lemma {:induction false} RunAsks(w: World, ops: seq<DataOp>, full: bool)
    requires JustConfigured(w) && (full ==> ReadsHaveBuffers(ops))
    ensures AllAsk(RunData(w, ops).h.bulk, full) && w.wire <= RunData(w, ops).wire
    ensures full ==> AllRoom(Since(w, RunData(w, ops)))
  {
    hide InStep, LoopStep, JustConfigured, HostToggle, DeviceToggle, Link, AllAsk, AllRoom;
    if ops == [] {
      StartAsks(w, full);
    } else {
      var ops0, op := ops[..|ops| - 1], ops[|ops| - 1];
      var w1 := RunData(w, ops0);
      assert full ==> ReadsHaveBuffers(ops0) by { assert forall k :: 0 <= k < |ops0| ==> ops0[k] == ops[k]; }
      RunAsks(w, ops0, full);
      match op
      case LinkOp(req) =>
        LinkAsks(w1.h, req, full);
      case LoopOp(key) =>
        RunStaysInStep(w, ops0);
        LoopAsks(w1, key, HostToggle(w, ops0, 1), HostToggle(w, ops0, 2),
                 DeviceToggle(w, ops0, 1), DeviceToggle(w, ops0, 2), full, w.wire);
    }
  }

  lemma {:induction false} StartAsks(w: World, full: bool)
    requires JustConfigured(w)
    ensures AllAsk(w.h.bulk, full) && AllRoom(Since(w, w))
  {
  }

  /** After any run, the next read packet of endpoint 1 asks for zero bytes if and only if its TD has an empty buffer. */
  lemma {:induction false} EmptyReadIff(w: World, ops: seq<DataOp>)
    requires JustConfigured(w)
    ensures
      var w' := RunData(w, ops);
      NextPacket(w').Some? && NextPacket(w').value.ep == 1 && NextPacket(w').value.dirIn ==>
        && NextKind(w').Bulk? && NextIndex(w') < |w'.h.bulk| && w'.h.bulk[NextIndex(w')].queue != []
        && (NextPacket(w').value.size == 0 <==> w'.h.bulk[NextIndex(w')].queue[0].buffer == [])
  {
    hide RunData, NextPacket, InStep, AllAsk, JustConfigured, HostToggle, DeviceToggle;
    RunAsks(w, ops, false);
    RunStaysInStep(w, ops);
    var w' := RunData(w, ops);
    if NextPacket(w').Some? && NextPacket(w').value.ep == 1 {
      NextAsks(w', HostToggle(w, ops, 1), HostToggle(w, ops, 2), DeviceToggle(w, ops, 1), DeviceToggle(w, ops, 2), false);
    }
  }

  /** So the keys arrive, in every run whose reads of endpoint 1 have buffers and whose requests leave the configuration
      alone. */
  lemma {:induction false} KeysArrive(w: World, ops: seq<DataOp>)
    requires JustConfigured(w) && Polite(SET_CONFIGURATION, ops) && ReadsHaveBuffers(ops)
    ensures
      var w' := RunData(w, ops);
      BoardOk(w'.d) && w'.d.bdt[1].inn.cnt <= 1 && Keys(w, ops) == InBytes(Since(w, w')) + ArmedKey(w'.d)
  {
    hide RunData, JustConfigured, Polite, ReadsHaveBuffers, Since, AllAsk, DevOk, InBytes, Keys;
    RunPolite(SET_CONFIGURATION, w, ops);
    RunAsks(w, ops, true);
    KeysArriveIff(w, ops);
  }
}
