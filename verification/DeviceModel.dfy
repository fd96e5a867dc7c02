/** The device side of the bus (usb_lib_usbip.c) as functions on values: the buffer descriptor table with its
    status bytes, the address and packet-disable registers, the buffers and the event queue. */
module DeviceModel {
  import opened UsbTypes
  import opened EventRing

  const UOWN: bv8 := 0x80
  const DTS: bv8 := 0x08
  const TRN_SETUP: bv8 := 0x08
  const TRN_DATA0_OUT: bv8 := 0x08
  const TRN_DATA0_IN: bv8 := 0x88
  const TRN_DATA1_OUT: bv8 := 0x48
  const TRN_DATA1_IN: bv8 := 0xC8

  /** The address in a buffer descriptor: NULL after a reset, or one of the declared buffers. */
  datatype Pointer = Null | Buf(i: nat)

  datatype Entry = Entry(cnt: nat, stat: bv8, addr: Pointer)

  datatype EpDsc = EpDsc(out: Entry, inn: Entry)

  datatype Dev = Dev(usben: bool, u1addr: int, pktdis: bool, reset: bool,
                     bdt: seq<EpDsc>, bufs: seq<seq<byte>>, ring: Ring)

  function CodeOf(pid: PacketPid): bv8 {
    match pid
    case PidSetup => 0x0D
    case PidData0 => 0x03
    case PidData1 => 0x0B
  }

  /** The number by which an event names an endpoint: bit 7 is the direction. */
  function EventCode(ep: nat, dirIn: bool): int {
    if dirIn then ep + 0x80 else ep
  }

  predicate Owned(e: Entry) {
    e.stat & UOWN != 0
  }

  predicate EntryOk(d: Dev, e: Entry) {
    e.cnt < 256 && (e.addr.Buf? ==> e.addr.i < |d.bufs|) && (Owned(e) ==> e.addr.Buf?)
  }

  /** An entry owned by the serial interface engine points to a buffer. */
  predicate DevOk(d: Dev) {
    && RingOk(d.ring)
    && forall i :: 0 <= i < |d.bdt| ==> EntryOk(d, d.bdt[i].out) && EntryOk(d, d.bdt[i].inn)
  }

  // ---------- what the firmware calls ----------

  function SetOut(d: Dev, ep: nat, e: Entry): Dev
    requires ep < |d.bdt|
  {
    d.(bdt := d.bdt[ep := d.bdt[ep].(out := e)])
  }

  function SetIn(d: Dev, ep: nat, e: Entry): Dev
    requires ep < |d.bdt|
  {
    d.(bdt := d.bdt[ep := d.bdt[ep].(inn := e)])
  }

  /** The part of a size that usb_ep_transf_start puts into the status byte. */
  function HighBits(size: nat): bv8 {
    if size < 256 then 0 else ((size / 256) % 256) as bv8
  }

  /** usb_ep_transf_start. */
  function StartTransfer(d: Dev, ep: nat, transferType: bv8, buf: nat, size: nat): Dev
    requires ep < |d.bdt|
  {
    var e := Entry(size % 256, transferType | HighBits(size) | UOWN, Buf(buf));
    (if transferType & 0x80 != 0 then SetIn(d, ep, e) else SetOut(d, ep, e)).(pktdis := false)
  }

  /** usb_init_ep: the counts and status bytes are cleared, the addresses are not. */
  function InitEp(d: Dev, ep: nat): Dev
    requires ep < |d.bdt|
  {
    d.(bdt := d.bdt[ep := EpDsc(d.bdt[ep].out.(cnt := 0, stat := 0), d.bdt[ep].inn.(cnt := 0, stat := 0))])
  }

  /** usb_reset. */
  function UsbReset(d: Dev): Dev {
    var blank := Entry(0, 0, Null);
    d.(pktdis := false, u1addr := 0, bdt := seq(|d.bdt|, _ => EpDsc(blank, blank)))
  }

  /** usb_set_address: the register is a signed char. */
  function SetAddress(d: Dev, addr: byte): Dev {
    d.(u1addr := if addr < 128 then addr else addr - 256)
  }

  /** copy_to_buffer. */
  function WriteBuf(d: Dev, buf: nat, src: seq<byte>): Dev
    requires buf < |d.bufs| && |src| <= |d.bufs[buf]|
  {
    d.(bufs := d.bufs[buf := src + d.bufs[buf][|src|..]])
  }

  /** is_setup, after the event `dir` on endpoint 0. */
  predicate IsSetup(d: Dev, dir: int)
    requires |d.bdt| > 0
  {
    dir == 0 && (d.bdt[0].out.stat >> 2) & 0x0F == 0x0D
  }

  // ---------- what the host calls ----------

  /** The guard at the top of __usb_transfer. */
  predicate Reachable(d: Dev, addr: int) {
    d.usben && addr == d.u1addr && !d.pktdis
  }

  /** hcd_bus_reset, through __usb_transfer(0, 0, __USB_RESET): it passes the same guard. */
  function BusReset(d: Dev): Dev {
    if Reachable(d, 0) then d.(reset := true) else d
  }

  /** The data toggle test as the compiler reads it: == binds tighter than &. */
  predicate ToggleRejected(e: Entry, pid: PacketPid) {
    e.stat & DTS != 0 && e.stat & (if pid.PidData1? then 0 else 1) != 0
  }

  /** An OUT or SETUP packet that has passed the guard. */
  function TakeOut(d: Dev, p: Packet): (Dev, Reply)
    requires DevOk(d) && p.ep < |d.bdt| && p.size == |p.data|
  {
    var e := d.bdt[p.ep].out;
    if !Owned(e) then (d, Nak)
    else if ToggleRejected(e, p.pid) then (d, Err)
    else if p.size > |d.bufs[e.addr.i]| then (d, Err)
    else
      var sz := Min(e.cnt, p.size);
      var d1 := WriteBuf(d, e.addr.i, p.data[..sz]);
      var d2 := SetOut(d1, p.ep, e.(stat := (e.stat & 0xC3) | (CodeOf(p.pid) << 2), cnt := sz));
      (d2.(ring := Post(d2.ring, EventCode(p.ep, false))), Ack(sz, p.data[..sz]))
  }

  /** An IN packet that has passed the guard. */
  function GiveIn(d: Dev, p: Packet): (Dev, Reply)
    requires DevOk(d) && p.ep < |d.bdt|
  {
    var e := d.bdt[p.ep].inn;
    if !Owned(e) then (d, Nak)
    else if e.cnt > |d.bufs[e.addr.i]| then (d, Err)
    else
      var sz := Min(e.cnt, p.size);
      var d1 := SetIn(d, p.ep, e.(stat := (e.stat & 0x40) | (CodeOf(p.pid) << 2), cnt := 0));
      (d1.(ring := Post(d1.ring, EventCode(p.ep, true))), Ack(sz, d.bufs[e.addr.i][..sz]))
  }

  /** __usb_transfer for the packets the host controller sends. */
  function Transfer(d: Dev, p: Packet): (Dev, Reply)
    requires DevOk(d) && p.ep < |d.bdt| && (!p.dirIn ==> p.size == |p.data|)
  {
    if !Reachable(d, p.addr) then (d, Err)
    else
      var d1 := if p.pid.PidSetup? then d.(pktdis := true) else d;
      if p.pid.PidSetup? && !Owned(d1.bdt[p.ep].out) then (d1, Err)
      else if p.dirIn then GiveIn(d1, p) else TakeOut(d1, p)
  }

  // ---------- facts ----------

  lemma {:induction false} TakeOutFits(d: Dev, p: Packet)
    requires DevOk(d) && p.ep < |d.bdt| && p.size == |p.data|
    ensures var (d', r) := TakeOut(d, p); (r.Ack? ==> r.rlen <= p.size) && DevOk(d') && |d'.bdt| == |d.bdt|
  {
    hide Post, ToggleRejected;
    PostAppends(d.ring, EventCode(p.ep, false));
  }

  lemma {:induction false} GiveInFits(d: Dev, p: Packet)
    requires DevOk(d) && p.ep < |d.bdt|
    ensures
      var (d', r) := GiveIn(d, p);
      (r.Ack? ==> r.rlen <= p.size && |r.data| == r.rlen) && DevOk(d') && |d'.bdt| == |d.bdt|
  {
    hide Post;
    PostAppends(d.ring, EventCode(p.ep, true));
  }

  /** The device's replies are among those the host controller allows for. */
  lemma {:induction false} TransferFits(d: Dev, p: Packet)
    requires DevOk(d) && p.ep < |d.bdt| && (!p.dirIn ==> p.size == |p.data|)
    ensures ReplyFits(p, Transfer(d, p).1)
    ensures DevOk(Transfer(d, p).0) && |Transfer(d, p).0.bdt| == |d.bdt|
  {
    hide TakeOut, GiveIn, Owned, EntryOk;
    var d1 := if p.pid.PidSetup? then d.(pktdis := true) else d;
    assert DevOk(d1) by { PktdisOk(d, d1.pktdis); }
    if p.dirIn {
      GiveInFits(d1, p);
    } else {
      TakeOutFits(d1, p);
    }
  }

  lemma {:induction false} PktdisOk(d: Dev, b: bool)
    requires DevOk(d)
    ensures DevOk(d.(pktdis := b))
  {
  }

  /** One event is posted, naming the endpoint, exactly when the packet is acknowledged. */
  lemma {:induction false} AckPostsOnce(d: Dev, p: Packet)
    requires DevOk(d) && p.ep < |d.bdt| && (!p.dirIn ==> p.size == |p.data|)
    ensures
      var (d', r) := Transfer(d, p);
      d'.ring == if r.Ack? then Post(d.ring, EventCode(p.ep, p.dirIn)) else d.ring
  {
  }

  /** The wrong data toggle is never rejected for buffers armed with less than 256 bytes. */
  lemma {:induction false} ToggleTestInert(e: Entry, pid: PacketPid)
    ensures e.stat & 1 == 0 ==> !ToggleRejected(e, pid)
  {
    var s := e.stat;
    assert s & 0 == 0;
  }

  lemma {:induction false} WriteBufKeepsOk(d: Dev, buf: nat, src: seq<byte>)
    requires DevOk(d) && buf < |d.bufs| && |src| <= |d.bufs[buf]|
    ensures DevOk(WriteBuf(d, buf, src))
  {
  }
}
