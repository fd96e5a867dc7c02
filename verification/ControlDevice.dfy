/** What the device does with each packet of a control transfer, once it has drained its event queue. */
module ControlDevice {
  import opened UsbTypes
  import opened EventRing
  import opened DeviceModel
  import opened FirmwareModel

  /** Nothing is left to do for the main loop. */
  predicate Drained(d: Dev) {
    BoardOk(d) && !d.reset && !HasEvent(d.ring)
  }

  /** Endpoint 0 can take a SETUP packet. After SET_CONFIGURATION the entry is not armed again, but still owned with count 8. */
  predicate Armed0(d: Dev) {
    |d.bdt| > 0 && var e := d.bdt[0].out;
    d.usben && !d.pktdis && Owned(e) && e.cnt >= 8 && e.addr == Buf(EP0_OUT) && e.stat & 1 == 0
  }

  /** The next IN packet on endpoint 0 takes these bytes. */
  predicate Armed0In(d: Dev, bytes: seq<byte>) {
    |d.bdt| > 0 && |d.bufs| > EP0_IN && var e := d.bdt[0].inn;
    d.usben && !d.pktdis && e.stat == TRN_DATA1_IN && e.addr == Buf(EP0_IN) && e.cnt == |bytes|
    && bytes <= d.bufs[EP0_IN]
  }

  /** The device after one packet and the work it causes. */
  function Serve(f: Fw, d: Dev, p: Packet, key: byte): (Fw, Dev)
    requires BoardOk(d) && p.ep < 3 && (!p.dirIn ==> p.size == |p.data|)
  {
    TransferBoard(d, p);
    Drain(f, Transfer(d, p).0, key)
  }

  lemma {:induction false} TransferBoard(d: Dev, p: Packet)
    requires BoardOk(d) && p.ep < 3 && (!p.dirIn ==> p.size == |p.data|)
    ensures BoardOk(Transfer(d, p).0) && ReplyFits(p, Transfer(d, p).1)
  {
    hide Post, ToggleRejected;
    TransferFits(d, p);
  }

  lemma {:induction false} ServeDrains(f: Fw, d: Dev, p: Packet, key: byte)
    requires BoardOk(d) && p.ep < 3 && (!p.dirIn ==> p.size == |p.data|)
    ensures Drained(Serve(f, d, p, key).1)
  {
    TransferBoard(d, p);
    DrainOk(f, Transfer(d, p).0, key);
  }

  lemma {:induction false} BusResetBoard(d: Dev)
    requires BoardOk(d)
    ensures BoardOk(BusReset(d))
  {
  }

  /** A single pending event is served by one dispatch. */
  lemma {:induction false} DrainOne(f: Fw, d: Dev, code: int, key: byte)
    requires BoardOk(d) && !d.reset && Unread(d.ring) == [code]
    ensures RingOk(Advanced(d.ring)) && BoardOk(d.(ring := Advanced(d.ring)))
    ensures Drain(f, d, key) == Dispatch(f, d.(ring := Advanced(d.ring)), code, key)
    ensures Drained(Drain(f, d, key).1)
  {
    hide Dispatch, Unread, Post;
    GetTakesOldest(d.ring);
    RoundOk(f, d, key);
    DrainOk(f, d, key);
    GetTakesOldest(Round(f, d, key).1.ring);
  }

  lemma {:induction false} DrainNone(f: Fw, d: Dev, key: byte)
    requires Drained(d)
    ensures Drain(f, d, key) == (f, d)
  {
    GetTakesOldest(d.ring);
  }

  lemma {:induction false} PostToDrained(r: Ring, code: int)
    requires RingOk(r) && !HasEvent(r)
    ensures RingOk(Post(r, code)) && Unread(Post(r, code)) == [code]
  {
    PostAppends(r, code);
    GetTakesOldest(r);
  }

  lemma {:induction false} RingIsOk(d: Dev)
    requires BoardOk(d)
    ensures RingOk(d.ring)
  {
  }

  // ---------- the packets of endpoint 0 ----------

  function SetupPacket(addr: nat, s: seq<byte>): Packet {
    Packet(addr, 0, false, PidSetup, s, |s|)
  }

  function InPacket(addr: nat, size: nat): Packet {
    Packet(addr, 0, true, PidData1, [], size)
  }

  function StatusOutPacket(addr: nat): Packet {
    Packet(addr, 0, false, PidData1, [], 0)
  }

  /** The device as process_control_transfer sees it on a SETUP event. */
  ghost predicate SetupSeen(d1: Dev, d: Dev, s: seq<byte>)
    requires BoardOk(d) && |s| == 8
  {
    && Drained(d1) && d1.pktdis && d1.usben == d.usben && d1.u1addr == d.u1addr
    && d1.bufs[EP0_OUT] == s + d.bufs[EP0_OUT][8..] && d1.bufs == d.bufs[EP0_OUT := d1.bufs[EP0_OUT]]
    && (var e := d1.bdt[0].out; Owned(e) && e.cnt == 8 && e.addr == Buf(EP0_OUT) && e.stat & 1 == 0)
    && d1.bdt[0].inn == d.bdt[0].inn && d1.bdt[1] == d.bdt[1] && d1.bdt[2] == d.bdt[2]
  }

  /** The status byte of an entry that took a SETUP: still owned, and recognised by is_setup. */
  lemma {:induction false} SetupStatus(s: bv8)
    requires s & 0x80 != 0 && s & 1 == 0
    ensures var s' := (s & 0xC3) | ((0x0D as bv8) << 2); s' & 0x80 != 0 && s' & 1 == 0 && (s' >> 2) & 0x0F == 0x0D
  {
  }

  /** The status byte of an entry that took a DATA1: not taken for a SETUP. */
  lemma {:induction false} Data1Status(s: bv8)
    ensures var s' := (s & 0xC3) | ((0x0B as bv8) << 2); (s' >> 2) & 0x0F != 0x0D
  {
  }

  /** A SETUP packet to an armed endpoint 0 is acknowledged whole and handed to process_control_transfer. */
  lemma {:induction false} SetupServed(f: Fw, d: Dev, s: seq<byte>, addr: nat, key: byte) returns (d1: Dev)
    requires Drained(d) && Armed0(d) && d.u1addr == addr && |s| == 8
    ensures Transfer(d, SetupPacket(addr, s)).1 == Ack(8, s)
    ensures SetupSeen(d1, d, s) && Serve(f, d, SetupPacket(addr, s), key) == ProcessSetup(f, d1)
  {
    hide Drain, Round, Post, Unread, ProcessSetup, DevOk;
    var p := SetupPacket(addr, s);
    var e := d.bdt[0].out;
    SetupStatus(e.stat);
    TransferBoard(d, p);
    var t := Transfer(d, p).0;
    assert s[..8] == s;
    assert DevOk(d);
    RingIsOk(d);
    RingIsOk(t);
    PostToDrained(d.ring, 0);
    assert Transfer(d, p) == (t, Ack(8, s)) && t.ring == Post(d.ring, 0);
    DrainOne(f, t, 0, key);
    d1 := t.(ring := Advanced(t.ring));
    GetTakesOldest(t.ring);
    GetTakesOldest(d1.ring);
    assert IsSetup(d1, 0);
  }

  /** An IN packet takes a prefix of the bytes armed on endpoint 0 and is reported as a stage event. */
  lemma {:induction false} InServed(f: Fw, d: Dev, bytes: seq<byte>, size: nat, addr: nat, key: byte) returns (d1: Dev)
    requires Drained(d) && Armed0In(d, bytes) && d.u1addr == addr && |bytes| <= BUF_SIZE
    ensures Transfer(d, InPacket(addr, size)).1 == Ack(Min(|bytes|, size), bytes[..Min(|bytes|, size)])
    ensures Drained(d1) && Serve(f, d, InPacket(addr, size), key) == ProcessStage(f, d1)
    ensures d1 == d.(bdt := d1.bdt, ring := d1.ring) && |d1.bdt| == 3
    ensures d1.bdt[0].out == d.bdt[0].out && d1.bdt[1] == d.bdt[1] && d1.bdt[2] == d.bdt[2] && !Owned(d1.bdt[0].inn)
  {
    hide Drain, Round, Post, Unread, ProcessStage, DevOk;
    var p := InPacket(addr, size);
    TransferBoard(d, p);
    var t := Transfer(d, p).0;
    var sz := Min(|bytes|, size);
    assert d.bufs[EP0_IN][..sz] == bytes[..sz];
    assert DevOk(d);
    RingIsOk(d);
    RingIsOk(t);
    PostToDrained(d.ring, 0x80);
    assert Transfer(d, p) == (t, Ack(sz, bytes[..sz])) && t.ring == Post(d.ring, 0x80);
    DrainOne(f, t, 0x80, key);
    d1 := t.(ring := Advanced(t.ring));
    GetTakesOldest(t.ring);
    GetTakesOldest(d1.ring);
  }

  /** A zero-length OUT status packet is acknowledged and reported as a stage event. */
  lemma {:induction false} StatusOutServed(f: Fw, d: Dev, addr: nat, key: byte) returns (d1: Dev)
    requires Drained(d) && d.usben && !d.pktdis && d.u1addr == addr
    requires d.bdt[0].out == Entry(BUF_SIZE, TRN_DATA1_OUT | UOWN, Buf(EP0_OUT))
    ensures Transfer(d, StatusOutPacket(addr)).1 == Ack(0, [])
    ensures Drained(d1) && Serve(f, d, StatusOutPacket(addr), key) == ProcessStage(f, d1)
    ensures d1 == d.(bdt := d1.bdt, ring := d1.ring) && |d1.bdt| == 3
    ensures d1.bdt[0].inn == d.bdt[0].inn && d1.bdt[1] == d.bdt[1] && d1.bdt[2] == d.bdt[2]
  {
    hide Drain, Round, Post, Unread, ProcessStage, DevOk;
    var p := StatusOutPacket(addr);
    TransferBoard(d, p);
    var t := Transfer(d, p).0;
    assert [] + d.bufs[EP0_OUT] == d.bufs[EP0_OUT];
    assert d.bufs[EP0_OUT := d.bufs[EP0_OUT]] == d.bufs;
    assert DevOk(d);
    RingIsOk(d);
    RingIsOk(t);
    Data1Status(d.bdt[0].out.stat);
    PostToDrained(d.ring, 0);
    assert Transfer(d, p) == (t, Ack(0, [])) && t.ring == Post(d.ring, 0);
    DrainOne(f, t, 0, key);
    d1 := t.(ring := Advanced(t.ring));
    GetTakesOldest(t.ring);
    GetTakesOldest(d1.ring);
  }
}
