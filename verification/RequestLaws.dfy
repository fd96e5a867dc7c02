/** The firmware's side of section 9.4 of USB 2.0 in literal bytes: what each request, and each later stage event, does to
    the device, and what the descriptors it sends say. */
module RequestLaws {
  import opened UsbTypes
  import opened EventRing
  import opened DeviceModel
  import opened FirmwareModel
  import opened ControlDevice

  /** Everything but endpoint 0 IN and the firmware's state. */
  predicate DataEndpointsKept(d: Dev, d': Dev) {
    |d.bdt| == 3 && |d'.bdt| == 3 && d'.bdt[1] == d.bdt[1] && d'.bdt[2] == d.bdt[2]
  }

  /** Endpoint 0 IN armed for DATA1 with these bytes, packets enabled. */
  predicate Offers(d: Dev, bytes: seq<byte>) {
    && |d.bdt| == 3 && |d.bufs| == 4 && !d.pktdis && d.bdt[0].inn == Entry(|bytes|, 0xC8, Buf(1))
    && bytes <= d.bufs[1]
  }

  /** The three descriptors, byte by byte. */
  function DescriptorBytes(t: byte): Option<seq<byte>> {
    if t == 1 then Some([18, 1, 0x10, 0x01, 0, 0, 0, 64, 0x11, 0x11, 0x22, 0x22, 0x00, 0x01, 0, 0, 0, 1])
    else if t == 2 then
      Some([9, 2, 32, 0, 1, 1, 0, 0x80, 50] + [9, 4, 0, 0, 2, 0xFF, 0, 0, 0] + [7, 5, 0x81, 3, 10, 0, 1]
           + [7, 5, 0x02, 3, 10, 0, 1])
    else if t == 10 then Some([0x04, 0x0A, 0, 0])
    else None
  }

  lemma {:induction false} DescriptorsAre(t: byte)
    ensures HasDescriptor(t) <==> DescriptorBytes(t).Some?
    ensures HasDescriptor(t) ==> Descriptor(t) == DescriptorBytes(t).value
  {
    if t == 2 {
      assert CONFIG_DESCRIPTOR == DescriptorBytes(2).value;
    }
  }

  /** What the request with these bytes does: byte 1 is the request, the others its arguments. */
  predicate RequestEffect(s: seq<byte>, f: Fw, d: Dev, f': Fw, d': Dev)
    requires |s| >= 8 && |d.bdt| == 3 && |d'.bdt| == 3 && |d.bufs| == 4 && |d'.bufs| == 4
  {
    && d'.bufs[2] == d.bufs[2] && d'.bufs[3] == d.bufs[3] &&
    if s[1] == 6 && DescriptorBytes(s[3]).Some? then
      var dsc, wLength := DescriptorBytes(s[3]).value, (s[6] as int) + 256 * (s[7] as int);
      && Offers(d', dsc[..if wLength < |dsc| then wLength else |dsc|]) && DataEndpointsKept(d, d')
      && f' == f.(state := if s[3] == 1 then CtsDevDsc else if s[3] == 2 then CtsCfgDsc else CtsDbgDsc)
    else if s[1] == 5 then
      f' == f.(addr := s[2], state := CtsAckAd) && Offers(d', []) && DataEndpointsKept(d, d')
    else if s[1] == 9 then
      && f' == f.(configuration := s[2], inData := 1, outData := 1, state := CtsAckSc) && Offers(d', [])
      && d'.bdt[1].inn == Entry(0, 0x88, Buf(2)) && d'.bdt[1].out.stat == 0
      && d'.bdt[2].out == Entry(0, 0x88, Buf(3)) && d'.bdt[2].inn.stat == 0
    else
      f' == f && d'.pktdis && d'.bdt[0].inn == d.bdt[0].inn && DataEndpointsKept(d, d')
  }

  /** A SETUP packet of eight bytes on an armed endpoint 0: what the firmware makes of it. */
  lemma {:induction false} RequestServed(f: Fw, d: Dev, s: seq<byte>, addr: nat, key: byte)
    requires Drained(d) && Armed0(d) && d.u1addr == addr && |s| == 8
    ensures Transfer(d, Packet(addr, 0, false, PidSetup, s, 8)).1 == Ack(8, s)
    ensures
      var (f', d') := Serve(f, d, Packet(addr, 0, false, PidSetup, s, 8), key);
      && Drained(d') && d'.u1addr == addr && d'.bufs[0] == s + d.bufs[0][8..]
      && RequestEffect(s, f, d, f', d')
  {
    hide DevOk, Serve, Transfer, ProcessSetup, Descriptor, DescriptorBytes, Armed0, Drained;
    assert Packet(addr, 0, false, PidSetup, s, 8) == SetupPacket(addr, s);
    DrainedBoard(d);
    ServeDrains(f, d, SetupPacket(addr, s), key);
    var d1 := SetupServed(f, d, s, addr, key);
    DrainedBoard(d1);
    RequestTable(f, d1);
    assert d1.bufs[0][..8] == s;
  }

  lemma {:induction false} DrainedBoard(d: Dev)
    requires Drained(d)
    ensures BoardOk(d)
  {
  }

  /** The request in the receive buffer, by its bytes. */
  lemma {:induction false} RequestTable(f: Fw, d: Dev)
    requires BoardOk(d) && d.pktdis
    ensures
      var (f', d') := ProcessSetup(f, d);
      && d'.u1addr == d.u1addr && |d'.bufs| == 4 && d'.bufs[0] == d.bufs[0] && |d'.bdt| == 3
      && RequestEffect(d.bufs[0], f, d, f', d')
  {
    hide DevOk, Descriptor, DescriptorBytes, SendDescriptor, Configure, StartTransfer, Offers;
    var s := d.bufs[0];
    DescriptorsAre(s[3]);
    NothingOffered(d);
    ConfigurationOffered(f, d, s[2]);
    if s[1] == 6 && HasDescriptor(s[3]) {
      DescriptorOffered(f, d, s[3], Word(s[6], s[7]));
    }
  }

  lemma {:induction false} NothingOffered(d: Dev)
    requires BoardOk(d)
    ensures
      var d' := StartTransfer(d, 0, TRN_DATA1_IN, EP0_IN, 0);
      Offers(d', []) && DataEndpointsKept(d, d') && d'.bufs == d.bufs && d'.u1addr == d.u1addr
  {
    hide DevOk;
    ByteValues();
  }

  lemma {:induction false} DescriptorOffered(f: Fw, d: Dev, t: byte, wLength: nat)
    requires BoardOk(d) && HasDescriptor(t)
    ensures
      var (f', d') := SendDescriptor(f, d, t, wLength);
      var dsc := Descriptor(t);
      && Offers(d', dsc[..if wLength < |dsc| then wLength else |dsc|]) && DataEndpointsKept(d, d') && |d'.bufs| == 4
      && d'.bufs[0] == d.bufs[0] && d'.bufs[2] == d.bufs[2] && d'.bufs[3] == d.bufs[3] && d'.u1addr == d.u1addr
      && f' == f.(state := if t == 1 then CtsDevDsc else if t == 2 then CtsCfgDsc else CtsDbgDsc)
  {
    hide DevOk, Descriptor;
    ByteValues();
    var dsc := Descriptor(t);
    var n := if wLength < |dsc| then wLength else |dsc|;
    var d' := SendDescriptor(f, d, t, wLength).1;
    assert d'.bufs[1] == dsc + d.bufs[1][|dsc|..];
    assert d'.bufs[1][..n] == dsc[..n];
  }

  lemma {:induction false} ConfigurationOffered(f: Fw, d: Dev, value: byte)
    requires BoardOk(d)
    ensures
      var (f', d') := Configure(f, d, value);
      && f' == f.(configuration := value, inData := 1, outData := 1, state := CtsAckSc) && Offers(d', [])
      && d'.bdt[1].inn == Entry(0, 0x88, Buf(2)) && d'.bdt[1].out.stat == 0
      && d'.bdt[2].out == Entry(0, 0x88, Buf(3)) && d'.bdt[2].inn.stat == 0
      && d'.bufs == d.bufs && d'.u1addr == d.u1addr && |d'.bdt| == 3
  {
    hide DevOk;
    ByteValues();
  }

  // ---------- later events ----------

  /** An event of endpoint 0 that is no SETUP: after the data stage of a read the empty status packet is expected as DATA1,
      after the status stage the next SETUP; the address is taken only now. */
  lemma {:induction false} StageServed(f: Fw, d: Dev)
    requires BoardOk(d)
    ensures
      var (f', d') := ProcessStage(f, d);
      && DataEndpointsKept(d, d') && d'.bufs == d.bufs && d'.bdt[0].inn == d.bdt[0].inn
      && match f.state
         case CtsDevDsc | CtsCfgDsc | CtsDbgDsc =>
           && f' == f.(state := CtsAckIn) && d'.bdt[0].out == Entry(64, 0xC8, Buf(0)) && !d'.pktdis
           && d'.u1addr == d.u1addr
         case CtsAckIn =>
           && f' == f.(state := CtsSetup) && d'.bdt[0].out == Entry(64, 0x88, Buf(0)) && !d'.pktdis
           && d'.u1addr == d.u1addr
         case CtsAckAd =>
           && f' == f && d'.bdt[0].out == Entry(64, 0x88, Buf(0)) && !d'.pktdis
           && d'.u1addr == (if f.addr < 128 then f.addr else f.addr as int - 256)
         case CtsSetup | CtsAckSc => f' == f && d' == d
  {
    hide DevOk;
  }

  /** An event of endpoint 1 IN (0x81) arms the key, one of endpoint 2 OUT (0x02) the whole receive buffer, with DATA0 and
      DATA1 in turn; no other event does anything. */
  lemma {:induction false} EndpointServed(f: Fw, d: Dev, ep: int, key: byte)
    requires BoardOk(d) && f.inData <= 1 && f.outData <= 1
    ensures
      var (f', d') := ProcessEp(f, d, ep, key);
      && |d'.bdt| == 3 && |d'.bufs| == 4
      && if ep == 0x81 then
           && f' == f.(inData := 1 - f.inData) && !d'.pktdis
           && d'.bdt[1].inn == Entry(1, if f.inData == 1 then 0xC8 else 0x88, Buf(2)) && d'.bdt[1].out == d.bdt[1].out
           && d'.bufs[2] == [key] + d.bufs[2][1..] && d'.bufs == d.bufs[2 := d'.bufs[2]]
           && d'.bdt[0] == d.bdt[0] && d'.bdt[2] == d.bdt[2] && d'.u1addr == d.u1addr
         else if ep == 0x02 then
           && f' == f.(outData := 1 - f.outData) && !d'.pktdis
           && d'.bdt[2].out == Entry(64, if f.outData == 1 then 0xC8 else 0x88, Buf(3)) && d'.bdt[2].inn == d.bdt[2].inn
           && d'.bufs == d.bufs && d'.bdt[0] == d.bdt[0] && d'.bdt[1] == d.bdt[1] && d'.u1addr == d.u1addr
         else f' == f && d' == d
  {
    hide DevOk;
    ByteValues();
  }

  lemma {:induction false} ByteValues()
    ensures 0x48 | 0x80 == 0xC8 as bv8 && 0x08 | 0x80 == 0x88 as bv8
    ensures 0x88 | 0x80 == 0x88 as bv8 && 0xC8 | 0x80 == 0xC8 as bv8
  {
  }

  /** Events 0 and 0x80 go to the control transfer, all others to the data endpoints. */
  lemma {:induction false} EventsDispatched(f: Fw, d: Dev, ep: int, key: byte)
    requires BoardOk(d)
    ensures ep == 0x80 ==> Dispatch(f, d, ep, key) == ProcessStage(f, d)
    ensures ep == 0 && (d.bdt[0].out.stat >> 2) & 0x0F == 0x0D ==> Dispatch(f, d, ep, key) == ProcessSetup(f, d)
    ensures ep == 0 && (d.bdt[0].out.stat >> 2) & 0x0F != 0x0D ==> Dispatch(f, d, ep, key) == ProcessStage(f, d)
    ensures ep != 0 && ep != 0x80 ==> Dispatch(f, d, ep, key) == ProcessEp(f, d, ep, key)
  {
    hide DevOk, ProcessStage, ProcessSetup, ProcessEp;
  }

  /** After a bus reset the device is at address 0 and takes a SETUP packet of up to 64 bytes; nothing else is armed. */
  lemma {:induction false} ResetServed(d: Dev)
    requires BoardOk(d) && d.reset
    ensures
      var d' := PollReset(d);
      && BoardOk(d') && !d'.reset && !d'.pktdis && d'.u1addr == 0 && d'.bufs == d.bufs && d'.ring == d.ring
      && d'.bdt[0].out == Entry(64, 0x88, Buf(0)) && d'.bdt[0].inn.stat == 0
      && d'.bdt[1].out.stat == 0 && d'.bdt[1].inn.stat == 0 && d'.bdt[2].out.stat == 0 && d'.bdt[2].inn.stat == 0
  {
    hide DevOk;
    PollResetOk(d);
    ByteValues();
  }

  // ---------- what the descriptors say ----------

  /** The device descriptor, field by field (table 9-8 of USB 2.0). */
  lemma {:induction false} DeviceFields()
    ensures
      var d := DEVICE_DESCRIPTOR;
      && |d| == 18 && d[0] == 18 && d[1] == 1 && Word(d[2], d[3]) == 0x0110
      && d[4] == 0 && d[5] == 0 && d[6] == 0 && d[7] == 64
      && Word(d[8], d[9]) == 0x1111 && Word(d[10], d[11]) == 0x2222 && Word(d[12], d[13]) == 0x0100
      && d[14] == 0 && d[15] == 0 && d[16] == 0 && d[17] == 1
  {
  }

  /** The configuration, its interface and its two interrupt endpoints of ten bytes, 1 IN and 2 OUT (tables 9-10, 9-12
      and 9-13 of USB 2.0), and the debug word. */
  lemma {:induction false} ConfigurationFields()
    ensures
      var c := CONFIG_DESCRIPTOR;
      && |c| == 32 && c[0] == 9 && c[1] == 2 && Word(c[2], c[3]) == 32 && c[4] == 1 && c[5] == 1 && c[6] == 0
      && c[7] == 0x80 && c[8] == 50
      && c[9] == 9 && c[10] == 4 && c[11] == 0 && c[12] == 0 && c[13] == 2 && c[14] == 0xFF && c[15] == 0 && c[16] == 0
      && c[17] == 0
      && c[18] == 7 && c[19] == 5 && c[20] == 0x81 && c[21] == 3 && Word(c[22], c[23]) == 10 && c[24] == 1
      && c[25] == 7 && c[26] == 5 && c[27] == 0x02 && c[28] == 3 && Word(c[29], c[30]) == 10 && c[31] == 1
    ensures
      var w := DEBUG_DESCRIPTOR;
      |w| == 4 && Word(w[0], w[1]) + 65536 * Word(w[2], w[3]) == 0x0A04
  {
  }
}
