/** The device library in literal terms: the bits of the status byte, what each call arms or clears, and what each packet
    does to its entry (usb_lib_usbip.c). */
module DeviceLaws {
  import opened UsbTypes
  import opened EventRing
  import opened DeviceModel

  /** The entry of an endpoint's direction. */
  function EntryOf(d: Dev, ep: nat, dirIn: bool): Entry
    requires ep < |d.bdt|
  {
    if dirIn then d.bdt[ep].inn else d.bdt[ep].out
  }

  /** Every entry but this one is as it was. */
  predicate OthersKept(d: Dev, d': Dev, ep: nat, dirIn: bool)
    requires ep < |d.bdt|
  {
    && |d'.bdt| == |d.bdt| && (forall k :: 0 <= k < |d.bdt| && k != ep ==> d'.bdt[k] == d.bdt[k])
    && EntryOf(d', ep, !dirIn) == EntryOf(d, ep, !dirIn)
  }

  /** Bit 7 of the transfer type is the direction. The low byte of the size is the count; the next one is or'ed into the
      status byte, as is bit 7. Packets are enabled. */
  lemma {:induction false} Arms(d: Dev, ep: nat, transferType: bv8, buf: nat, size: nat)
    requires ep < |d.bdt|
    ensures
      var d' := StartTransfer(d, ep, transferType, buf, size);
      var dirIn := transferType & 0x80 != 0;
      && OthersKept(d, d', ep, dirIn) && d' == d.(bdt := d'.bdt, pktdis := false)
      && var e := EntryOf(d', ep, dirIn);
         && e.cnt == size % 256 && e.addr == Buf(buf)
         && e.stat == transferType | ((size / 256) % 256) as bv8 | 0x80
  {
    hide HighBits;
    SecondByte(size);
  }

  lemma {:induction false} SecondByte(size: nat)
    ensures HighBits(size) == ((size / 256) % 256) as bv8
  {
    if size < 256 {
      assert size / 256 == 0;
    }
  }

  /** usb_init_ep: counts and status bytes of both directions become zero; the addresses stay. */
  lemma {:induction false} Clears(d: Dev, ep: nat)
    requires ep < |d.bdt|
    ensures
      var d' := InitEp(d, ep);
      && d' == d.(bdt := d'.bdt) && |d'.bdt| == |d.bdt|
      && (forall k :: 0 <= k < |d.bdt| && k != ep ==> d'.bdt[k] == d.bdt[k])
      && d'.bdt[ep].out == Entry(0, 0, d.bdt[ep].out.addr) && d'.bdt[ep].inn == Entry(0, 0, d.bdt[ep].inn.addr)
  {
  }

  /** usb_reset and usb_set_address: the address register is a signed byte. */
  lemma {:induction false} Registers(d: Dev, addr: byte)
    ensures
      var d' := UsbReset(d);
      && d' == d.(pktdis := false, u1addr := 0, bdt := d'.bdt) && |d'.bdt| == |d.bdt|
      && forall k :: 0 <= k < |d.bdt| ==> d'.bdt[k] == EpDsc(Entry(0, 0, Null), Entry(0, 0, Null))
    ensures
      var d' := SetAddress(d, addr);
      d' == d.(u1addr := d'.u1addr) && -128 <= d'.u1addr < 128 && (d'.u1addr - addr) % 256 == 0
  {
  }

  /** What an acknowledged packet leaves in its entry, in bits: an OUT or SETUP entry stays owned, keeps bits 6, 1 and 0 and
      has the packet's code in bits 5 to 2 (0x0D, 0x03 or 0x0B) and its length as count; an IN entry is released and keeps
      bit 6 alone. */
  lemma {:induction false} PacketRecorded(d: Dev, p: Packet)
    requires DevOk(d) && p.ep < |d.bdt| && (!p.dirIn ==> p.size == |p.data|) && Transfer(d, p).1.Ack?
    requires p.pid.PidSetup? ==> !p.dirIn
    ensures
      var (d', r) := Transfer(d, p);
      var code: bv8 := if p.pid.PidSetup? then 0x0D else if p.pid.PidData0? then 0x03 else 0x0B;
      && OthersKept(d, d', p.ep, p.dirIn) && d'.pktdis == p.pid.PidSetup? && d'.u1addr == d.u1addr && d'.usben == d.usben
      && d'.reset == d.reset
      && var e, e' := EntryOf(d, p.ep, p.dirIn), EntryOf(d', p.ep, p.dirIn);
         && e.stat & 0x80 != 0 && e'.addr == e.addr && r.rlen == (if p.size < e.cnt then p.size else e.cnt)
         && (e'.stat >> 2) & 0x0F == code
         && (if p.dirIn then
               e'.cnt == 0 && e'.stat & 0x80 == 0 && e'.stat & 0x40 == e.stat & 0x40 && e'.stat & 3 == 0 && d'.bufs == d.bufs
             else
               && e'.cnt == r.rlen && e'.stat & 0xC3 == e.stat & 0xC3
               && e.addr.Buf? && e.addr.i < |d.bufs|
               && d'.bufs == d.bufs[e.addr.i := p.data[..r.rlen] + d.bufs[e.addr.i][r.rlen..]])
  {
    hide Post;
    var e := EntryOf(d, p.ep, p.dirIn);
    RecordedBits(e.stat, p.pid);
  }

  lemma {:induction false} RecordedBits(s: bv8, pid: PacketPid)
    ensures
      var code: bv8 := if pid.PidSetup? then 0x0D else if pid.PidData0? then 0x03 else 0x0B;
      var out, inn := (s & 0xC3) | (CodeOf(pid) << 2), (s & 0x40) | (CodeOf(pid) << 2);
      && (out >> 2) & 0x0F == code && out & 0xC3 == s & 0xC3
      && (inn >> 2) & 0x0F == code && inn & 0x80 == 0 && inn & 0x40 == s & 0x40 && inn & 3 == 0
  {
  }

  /** When a packet is not acknowledged, and what that changes: nothing, except that a SETUP that reaches the device disables
      packets. NAK means that the entry is not owned, ERR all the rest. */
  lemma {:induction false} PacketRefused(d: Dev, p: Packet)
    requires DevOk(d) && p.ep < |d.bdt| && (!p.dirIn ==> p.size == |p.data|) && (p.pid.PidSetup? ==> !p.dirIn)
    ensures
      var (d', r) := Transfer(d, p);
      var e := EntryOf(d, p.ep, p.dirIn);
      var reached := d.usben && p.addr == d.u1addr && !d.pktdis;
      && (r.Ack? || r.Nak? || r.Err?)
      && (r.Nak? <==> reached && e.stat & 0x80 == 0 && !p.pid.PidSetup?)
      && (r.Ack? <==>
            (&& reached && e.stat & 0x80 != 0 && e.addr.Buf?
             && (if p.dirIn then e.cnt <= |d.bufs[e.addr.i]|
                 else p.size <= |d.bufs[e.addr.i]| && !(e.stat & 0x08 != 0 && !p.pid.PidData1? && e.stat & 0x01 != 0))))
      && (!r.Ack? ==> d' == d.(pktdis := d'.pktdis) && (d'.pktdis <==> d.pktdis || (reached && p.pid.PidSetup?)))
  {
    hide Post;
    var s := EntryOf(d, p.ep, p.dirIn).stat;
    assert s & 0 == 0;
  }

  /** A bus reset is seen only by an enabled device at address 0 with packets enabled; the firmware then finds the flag. */
  lemma {:induction false} ResetSeen(d: Dev)
    ensures BusReset(d) == d.(reset := d.reset || (d.usben && d.u1addr == 0 && !d.pktdis))
  {
  }

  /** is_setup: an OUT event, and the packet code in bits 5 to 2 of the status byte is that of SETUP. */
  lemma {:induction false} SetupToldBy(d: Dev, dir: int)
    requires |d.bdt| > 0
    ensures IsSetup(d, dir) <==> dir == 0 && d.bdt[0].out.stat & 0x3C == 0x34
  {
    CodeBits(d.bdt[0].out.stat);
  }

  lemma {:induction false} CodeBits(s: bv8)
    ensures (s >> 2) & 0x0F == 0x0D <==> s & 0x3C == 0x34
  {
  }

  /** The event of a packet: the endpoint number, with bit 7 for IN. */
  lemma {:induction false} EventNames(ep: nat)
    ensures EventCode(ep, false) == ep && EventCode(ep, true) == ep + 128
  {
  }
}
