/** Host and device toggles on the data endpoints over every lockstep run after SET_CONFIGURATION: bulk TDs of either
    direction and control TDs of any kind are linked at any moment, and the device may be anywhere or wedged meanwhile. */
module DataToggles {
  import opened UsbTypes
  import opened HcdModel
  import opened HcdLoop
  import opened EpdToggles
  import opened EventRing
  import opened DeviceModel
  import opened FirmwareModel
  import opened ControlDevice
  import opened Lockstep
  import opened ControlTransfers
  import opened ControlRead
  import opened Enumeration
  import HcdRuns
  import EpdTrack

  /** The packet kind a status byte is armed for. */
  function ArmedKind(stat: bv8): PacketPid {
    if stat & 0x40 == 0 then PidData0 else PidData1
  }

  /** The status byte of an armed endpoint 1 IN, and of an armed endpoint 2 OUT, for toggle t. */
  function InStat(t: nat): bv8 {
    if t == 1 then TRN_DATA1_IN else TRN_DATA0_IN
  }

  function OutStat(t: nat): bv8 {
    (if t == 1 then TRN_DATA1_OUT else TRN_DATA0_OUT) | UOWN
  }

  /** The device between packets: endpoint 1 IN and endpoint 2 OUT armed, for toggles t1 and t2, the firmware about to use
      the other ones; their other directions are not armed. */
  predicate DeviceSide(f: Fw, d: Dev, t1: nat, t2: nat) {
    && Drained(d) && d.usben && t1 <= 1 && t2 <= 1
    && f.inData == 1 - t1 && f.outData == 1 - t2
    && d.bdt[1].inn.stat == InStat(t1) && d.bdt[1].inn.addr == Buf(EP1_IN) && d.bdt[1].inn.cnt <= BUF_SIZE
    && d.bdt[2].out.stat == OutStat(t2) && d.bdt[2].out.addr == Buf(EP2_OUT) && d.bdt[2].out.cnt <= BUF_SIZE
    && !Owned(d.bdt[1].out) && !Owned(d.bdt[2].inn) && OwnBuffer0(d)
  }

  /** Endpoint 0 OUT is only ever armed with its own buffer. */
  predicate OwnBuffer0(d: Dev) {
    |d.bdt| > 0 && (Owned(d.bdt[0].out) ==> d.bdt[0].out.addr == Buf(EP0_OUT))
  }

  predicate WaitingTd(td: Td) {
    td.trace == [] && td.toggle >= 2
  }

  /** A bulk endpoint descriptor of the configured device whose next packet has toggle u1 or u2. */
  ghost predicate HostEpd(e: Epd, u1: nat, u2: nat) {
    && e.addr == 1 && (e.ep == 1 || e.ep == 2) && EpdOk(e) && HeadToggle(e)
    && (forall j :: 0 <= j < |e.queue| ==> !e.queue[j].pid.Setup?)
    && (forall j :: 1 <= j < |e.queue| ==> WaitingTd(e.queue[j]))
    && NextToggle(e) == (if e.ep == 1 then u1 else u2)
  }

  /** An endpoint not linked to yet starts with DATA0. */
  predicate Unlinked(l: seq<Epd>, ep: nat, u: nat) {
    FindFrom(l, 1, ep, 0) == |l| ==> u == 0
  }

  ghost predicate HostSide(h: Hcd, u1: nat, u2: nat) {
    && HcdOk(h) && UniqueKeys(h.bulk) && u1 <= 1 && u2 <= 1
    && (forall i :: 0 <= i < |h.control| && h.control[i].queue != [] ==> h.control[i].ep == 0)
    && (forall i :: 0 <= i < |h.bulk| ==> HostEpd(h.bulk[i], u1, u2))
    && Unlinked(h.bulk, 1, u1) && Unlinked(h.bulk, 2, u2)
  }

  /** u1, u2: the toggles the host uses next; t1, t2: those the device is armed for. */
  ghost predicate InStep(w: World, u1: nat, u2: nat, t1: nat, t2: nat) {
    HostSide(w.h, u1, u2) && DeviceSide(w.f, w.d, t1, t2)
  }

  // ---------- the device's side of one packet ----------

  lemma {:induction false} KindOfStat(t: nat)
    requires t <= 1
    ensures ArmedKind(InStat(t)) == DataPid(t) && ArmedKind(OutStat(t)) == DataPid(t)
    ensures InStat(t) & UOWN != 0 && OutStat(t) & UOWN != 0 && OutStat(t) & 1 == 0
  {
  }

  predicate DataPacket(p: Packet) {
    (p.ep == 1 || p.ep == 2) && !p.pid.PidSetup? && (!p.dirIn ==> p.size == |p.data|)
  }

  /** The packets the configured device acknowledges. */
  predicate Welcome(d: Dev, p: Packet) {
    Reachable(d, p.addr) && (p.dirIn <==> p.ep == 1) && (!p.dirIn ==> p.size <= BUF_SIZE)
  }

  /** A packet is acknowledged exactly if it is welcome; otherwise it leaves no trace. */
  lemma {:induction false} AckedIffWelcome(f: Fw, d: Dev, t1: nat, t2: nat, p: Packet)
    requires DeviceSide(f, d, t1, t2) && DataPacket(p)
    ensures BoardOk(d)
    ensures Transfer(d, p).1.Ack? <==> Welcome(d, p)
    ensures !Welcome(d, p) ==> Transfer(d, p).0 == d
  {
    hide Post;
    KindOfStat(t1);
    KindOfStat(t2);
    ToggleTestInert(d.bdt[2].out, p.pid);
  }

  lemma {:induction false} Refused(f: Fw, d: Dev, t1: nat, t2: nat, p: Packet, key: byte)
    requires DeviceSide(f, d, t1, t2) && DataPacket(p) && !Welcome(d, p)
    ensures BoardOk(d) && Serve(f, d, p, key) == (f, d)
  {
    hide Transfer, Drain, Welcome;
    AckedIffWelcome(f, d, t1, t2, p);
    DrainNone(f, d, key);
  }

  /** An IN packet on endpoint 1 that is acknowledged: the firmware arms the other toggle. */
  lemma {:induction false} InServed1(f: Fw, d: Dev, t1: nat, t2: nat, p: Packet, key: byte)
    requires DeviceSide(f, d, t1, t2) && DataPacket(p) && Welcome(d, p) && p.ep == 1
    ensures Transfer(d, p).1.Ack?
    ensures var (f', d') := Serve(f, d, p, key); DeviceSide(f', d', 1 - t1, t2)
  {
    hide Drain, Round, Post, Unread, DevOk;
    KindOfStat(t1);
    TransferBoard(d, p);
    var t := Transfer(d, p).0;
    assert DevOk(d);
    RingIsOk(d);
    RingIsOk(t);
    PostToDrained(d.ring, ENDPOINT_IN);
    assert t.ring == Post(d.ring, ENDPOINT_IN);
    DrainOne(f, t, ENDPOINT_IN, key);
  }

  /** An OUT packet on endpoint 2 that is acknowledged: the firmware arms the other toggle. */
  lemma {:induction false} OutServed2(f: Fw, d: Dev, t1: nat, t2: nat, p: Packet, key: byte)
    requires DeviceSide(f, d, t1, t2) && DataPacket(p) && Welcome(d, p) && p.ep == 2
    ensures Transfer(d, p).1.Ack?
    ensures var (f', d') := Serve(f, d, p, key); DeviceSide(f', d', t1, 1 - t2)
  {
    hide Drain, Round, Post, Unread, DevOk;
    KindOfStat(t2);
    TransferBoard(d, p);
    var t := Transfer(d, p).0;
    assert DevOk(d);
    RingIsOk(d);
    RingIsOk(t);
    PostToDrained(d.ring, ENDPOINT_OUT);
    ToggleTestInert(d.bdt[2].out, p.pid);
    assert t.ring == Post(d.ring, ENDPOINT_OUT);
    DrainOne(f, t, ENDPOINT_OUT, key);
  }

  // ---------- control packets ----------

  predicate ControlPacket(p: Packet) {
    p.ep == 0 && (!p.dirIn ==> p.size == |p.data|) && (p.pid.PidSetup? ==> !p.dirIn)
  }

  /** The device takes this SETUP packet, and the request then in its buffer is SET_CONFIGURATION. */
  predicate TakesRequest(d: Dev, p: Packet, b: byte) {
    && BoardOk(d) && ControlPacket(p) && p.pid.PidSetup?
    && Transfer(d, p).1.Ack? && |Transfer(d, p).0.bufs| == 4 && |Transfer(d, p).0.bufs[EP0_OUT]| == BUF_SIZE
    && Transfer(d, p).0.bufs[EP0_OUT][1] == b
  }

  /** What the data endpoints need is untouched. */
  predicate DataUntouched(f: Fw, d: Dev, f': Fw, d': Dev)
    requires BoardOk(d)
  {
    && Drained(d') && OwnBuffer0(d') && d'.usben == d.usben && d'.bdt[1] == d.bdt[1] && d'.bdt[2] == d.bdt[2]
    && d'.bufs[EP1_IN] == d.bufs[EP1_IN] && d'.bufs[EP2_OUT] == d.bufs[EP2_OUT]
    && f'.inData == f.inData && f'.outData == f.outData
  }

  lemma {:induction false} UntouchedSide(f: Fw, d: Dev, f': Fw, d': Dev, t1: nat, t2: nat)
    requires DeviceSide(f, d, t1, t2) && DataUntouched(f, d, f', d')
    ensures DeviceSide(f', d', t1, t2)
  {
  }

  /** A control packet, whatever it is, leaves the data endpoints alone unless it reconfigures the device. */
  lemma {:induction false} ControlServed(f: Fw, d: Dev, p: Packet, key: byte)
    requires Drained(d) && OwnBuffer0(d) && ControlPacket(p) && !TakesRequest(d, p, SET_CONFIGURATION)
    ensures BoardOk(d) && var (f', d') := Serve(f, d, p, key); DataUntouched(f, d, f', d')
  {
    hide Drain, Transfer, DevOk, Post, Unread, ProcessControl, Drained, OwnBuffer0;
    DrainedIs(d);
    TransferBoard(d, p);
    var (t, r) := Transfer(d, p);
    ControlTransferred(d, p);
    if r.Ack? {
      var code := if p.dirIn then 0x80 else 0;
      DrainOne(f, t, code, key);
      RingIsOk(t);
      var d1 := t.(ring := Advanced(t.ring));
      assert OwnBuffer0(d1) by { SameEntry0(t, d1); }
      ServedControl(f, d1, d, p, code);
      DispatchOk(f, d1, code, key);
    } else {
      DrainNone(f, t, key);
    }
  }

  /** A SETUP packet that makes the firmware serve a SET_CONFIGURATION: both data endpoints start again with DATA0. */
  lemma {:induction false} ReconfigureServed(f: Fw, d: Dev, t1: nat, t2: nat, p: Packet, key: byte)
    requires DeviceSide(f, d, t1, t2) && TakesRequest(d, p, SET_CONFIGURATION)
    ensures BoardOk(d) && var (f', d') := Serve(f, d, p, key); DeviceSide(f', d', 0, 0)
  {
    hide Drain, Transfer, DevOk, Post, Unread, Configure, Drained, OwnBuffer0;
    SideDrained(f, d, t1, t2);
    DrainedIs(d);
    TransferBoard(d, p);
    var t := Transfer(d, p).0;
    ControlTransferred(d, p);
    SetupIsSeen(d, p);
    DrainOne(f, t, 0, key);
    RingIsOk(t);
    var d1 := t.(ring := Advanced(t.ring));
    assert OwnBuffer0(d1) by { SameEntry0(t, d1); }
    Configured(f, d1, d1.bufs[EP0_OUT][2]);
    DispatchOk(f, d1, 0, key);
  }

  lemma {:induction false} SetupIsSeen(d: Dev, p: Packet)
    requires BoardOk(d) && ControlPacket(p) && p.pid.PidSetup? && Transfer(d, p).1.Ack?
    ensures |Transfer(d, p).0.bdt| == 3 && IsSetup(Transfer(d, p).0, 0)
  {
    hide Post, DevOk;
    TransferBoard(d, p);
    OutKind(d.bdt[0].out.stat, p.pid);
  }

  lemma {:induction false} Configured(f: Fw, d: Dev, value: byte)
    requires BoardOk(d) && OwnBuffer0(d)
    ensures
      var (f', d') := Configure(f, d, value);
      && BoardOk(d') && OwnBuffer0(d') && d'.usben == d.usben && f'.inData == 1 && f'.outData == 1
      && |d'.bdt| == 3
      && d'.bdt[1].inn == Entry(0, InStat(0), Buf(EP1_IN)) && d'.bdt[2].out == Entry(0, OutStat(0), Buf(EP2_OUT))
      && !Owned(d'.bdt[1].out) && !Owned(d'.bdt[2].inn)
  {
    hide DevOk;
    ConfigureOk(f, d, value);
    KindOfStat(0);
  }

  lemma {:induction false} DrainedIs(d: Dev)
    requires Drained(d)
    ensures BoardOk(d) && !d.reset && RingOk(d.ring) && !HasEvent(d.ring) && DevOk(d)
  {
  }

  /** What a control packet does before the firmware sees it. */
  lemma {:induction false} ControlTransferred(d: Dev, p: Packet)
    requires Drained(d) && OwnBuffer0(d) && ControlPacket(p) && BoardOk(d)
    ensures
      var (t, r) := Transfer(d, p);
      && BoardOk(t) && OwnBuffer0(t) && !t.reset && t.usben == d.usben && t.bdt[1] == d.bdt[1] && t.bdt[2] == d.bdt[2]
      && t.bufs[EP1_IN] == d.bufs[EP1_IN] && t.bufs[EP2_OUT] == d.bufs[EP2_OUT]
      && (r.Ack? ==> Unread(t.ring) == [if p.dirIn then 0x80 else 0] && (IsSetup(t, 0) && !p.dirIn ==> p.pid.PidSetup?))
      && (!r.Ack? ==> Drained(t))
  {
    hide Post, Unread, DevOk;
    TransferBoard(d, p);
    assert DevOk(d);
    RingIsOk(d);
    PostToDrained(d.ring, EventCode(0, p.dirIn));
    var e := d.bdt[0].out;
    OutKind(e.stat, p.pid);
  }

  lemma {:induction false} SameEntry0(d: Dev, d': Dev)
    requires OwnBuffer0(d) && d'.bdt == d.bdt
    ensures OwnBuffer0(d')
  {
  }

  /** is_setup recognises exactly the entries that took a SETUP last. */
  lemma {:induction false} OutKind(s: bv8, pid: PacketPid)
    ensures var s' := (s & 0xC3) | (CodeOf(pid) << 2);
      ((s' >> 2) & 0x0F == 0x0D <==> pid.PidSetup?) && (s' & UOWN != 0 <==> s & UOWN != 0)
  {
  }

  lemma {:induction false} ServedControl(f: Fw, d1: Dev, d: Dev, p: Packet, code: int)
    requires BoardOk(d) && BoardOk(d1) && OwnBuffer0(d1) && ControlPacket(p) && code == (if p.dirIn then 0x80 else 0)
    requires IsSetup(d1, code) ==> d1.bufs[EP0_OUT][1] != SET_CONFIGURATION
    requires d1.bdt[1] == d.bdt[1] && d1.bdt[2] == d.bdt[2]
    requires d1.bufs[EP1_IN] == d.bufs[EP1_IN] && d1.bufs[EP2_OUT] == d.bufs[EP2_OUT]
    ensures
      var (f', d') := ProcessControl(f, d1, code);
      && BoardOk(d') && OwnBuffer0(d') && d'.bdt[1] == d.bdt[1] && d'.bdt[2] == d.bdt[2]
      && d'.bufs[EP1_IN] == d.bufs[EP1_IN] && d'.bufs[EP2_OUT] == d.bufs[EP2_OUT]
      && f'.inData == f.inData && f'.outData == f.outData
  {
    hide DevOk, Descriptor;
    DispatchOk(f, d1, code, 0);
  }

  // ---------- the host's side of one packet ----------

  function BitOf(b: bool): nat {
    if b then 1 else 0
  }

  /** The reply gives a TD up after an odd number of acknowledged packets. */
  predicate Loses(e: Epd, r: Reply)
    requires EpdOk(e) && e.queue != [] && ReplyFits(PacketOf(e), r)
  {
    var o := Absorb(e, r);
    o.retired.Some? && OddLoss(o.retired.value)
  }

  /** The toggle the endpoint uses next, after a reply. */
  function NextAfter(u: nat, acked: bool, lost: bool): nat {
    (u + BitOf(acked) + BitOf(lost)) % 2
  }

  lemma {:induction false} HostMoves(e: Epd, r: Reply, u1: nat, u2: nat)
    requires HostEpd(e, u1, u2) && e.queue != [] && ReplyFits(PacketOf(e), r)
    ensures
      var e' := Absorb(e, r).epd;
      if e.ep == 1 then HostEpd(e', NextAfter(u1, r.Ack?, Loses(e, r)), u2)
      else HostEpd(e', u1, NextAfter(u2, r.Ack?, Loses(e, r)))
    ensures Absorb(e, r).epd.ep == e.ep && Absorb(e, r).epd.addr == e.addr
  {
    hide HeadToggle, NextToggle, PacketOf, Absorb, OddLoss;
    AbsorbToggle(e, r);
    AbsorbKeepsOk(e, r);
    AbsorbKeepsKey(e, r);
    QueueAfter(e, r);
  }

  lemma {:induction false} QueueAfter(e: Epd, r: Reply)
    requires EpdOk(e) && e.queue != [] && ReplyFits(PacketOf(e), r)
    ensures
      var e' := Absorb(e, r).epd;
      && (e'.queue == e.queue[1..] || (e'.queue != [] && e'.queue[1..] == e.queue[1..] && e'.queue[0].pid == e.queue[0].pid))
  {
  }

  /** The packet of a bulk endpoint: right address and endpoint, the next toggle. */
  lemma {:induction false} HostPacket(e: Epd, u1: nat, u2: nat)
    requires HostEpd(e, u1, u2) && e.queue != [] && u1 <= 1 && u2 <= 1
    ensures
      var p := PacketOf(e);
      && p.addr == 1 && p.ep == e.ep && DataPacket(p) && SetupAssertion(e)
      && p.pid == DataPid(if e.ep == 1 then u1 else u2) && p.dirIn == e.queue[0].pid.In?
  {
    PidIsNextToggle(e);
    PacketShape(e);
  }

  // ---------- the next packet of the loop ----------

  /** The packet the next iteration of the loop sends, if any. */
  function NextPacket(w: World): Option<Packet> {
    if w.h.notify == 0 || !AttemptOf(w.phase).Sending? || !CanSend(w, AttemptOf(w.phase).kind) then None
    else
      var l := ListOf(w.h, AttemptOf(w.phase).kind);
      Outgoing(l, l != [])
  }

  /** The list and the descriptor it comes from. */
  function NextKind(w: World): ListKind {
    if AttemptOf(w.phase).Sending? then AttemptOf(w.phase).kind else Control
  }

  function NextIndex(w: World): nat {
    FirstEligible(ListOf(w.h, NextKind(w)), 0)
  }

  /** An iteration that sends nothing leaves the device, the bus and the endpoint descriptors alone. */
  lemma {:induction false} SilentTurn(w: World, key: byte)
    requires NextPacket(w).None?
    ensures
      var w' := LoopStep(w, key);
      && w'.d == w.d && w'.f == w.f && w'.wire == w.wire && w'.h.control == w.h.control && w'.h.bulk == w.h.bulk
      && (HcdOk(w.h) ==> HcdOk(w'.h))
  {
    hide Transfer, Serve, PacketOf, BoardOk;
  }

  /** An iteration that sends a packet: from which descriptor, and what it does. */
  lemma {:induction false} PacketTurn(w: World, key: byte)
    requires NextPacket(w).Some?
    ensures
      var kind, i := NextKind(w), NextIndex(w);
      var l := ListOf(w.h, kind);
      && i < |l| && EpdOk(l[i]) && Eligible(l[i]) && SetupAssertion(l[i]) && l[i].ep < 3 && BoardOk(w.d) && DevOk(w.d)
      && NextPacket(w).value == PacketOf(l[i])
      && var p := PacketOf(l[i]);
         && p.ep == l[i].ep && p.addr == l[i].addr && (!p.dirIn ==> p.size == |p.data|)
         && ReplyFits(p, Transfer(w.d, p).1)
         && var w' := LoopStep(w, key);
            var (f, d) := Serve(w.f, w.d, p, key);
            && w'.f == f && w'.d == d && w'.wire == w.wire + [Sent(p, Transfer(w.d, p).1, w.d.u1addr)]
            && HcdOk(w'.h)
            && ListOf(w'.h, kind) == l[i := Absorb(l[i], Transfer(w.d, p).1).epd]
            && (kind.Control? ==> w'.h.bulk == w.h.bulk) && (kind.Bulk? ==> w'.h.control == w.h.control)
  {
    hide Transfer, Serve, PacketOf, Absorb, DevOk, EpdOk;
    var kind, i := NextKind(w), NextIndex(w);
    var l := ListOf(w.h, kind);
    assert EpdOk(l[i]);
    assert DevOk(w.d) by { BoardDev(w.d); }
    PacketShape(l[i]);
    TransferBoard(w.d, PacketOf(l[i]));
    SendKeepsOk(w.h, kind, true, Transfer(w.d, PacketOf(l[i])).1);
  }

  lemma {:induction false} BoardDev(d: Dev)
    requires BoardOk(d)
    ensures DevOk(d)
  {
  }

  // ---------- links ----------

  /** A bulk link of the configured device, as sys_urb_submit makes it: "toggle from EPD". */
  predicate DataLink(req: LinkReq) {
    req.addr == 1 && !req.setup && req.toggle == 2 && (req.ep % 16 == 1 || req.ep % 16 == 2)
  }

  /** Any link on endpoint 0 of any address. */
  predicate ControlLink(req: LinkReq) {
    req.ep % 16 == 0
  }

  lemma {:induction false} LinkStaysInStep(w: World, req: LinkReq, u1: nat, u2: nat, t1: nat, t2: nat)
    requires InStep(w, u1, u2, t1, t2) && (DataLink(req) || ControlLink(req))
    ensures InStep(LinkInWorld(w, req), u1, u2, t1, t2)
  {
    hide DeviceSide, HeadToggle, NextToggle, EpdOk, HostEpd;
    if LinkAllowed(w.h, req) {
      LinkKeepsOk(w.h, req);
      if ControlLink(req) {
        ControlLinkInStep(w.h, req, u1, u2);
      } else {
        DataLinkInStep(w.h, req, u1, u2);
      }
    }
  }

  lemma {:induction false} ControlLinkInStep(h: Hcd, req: LinkReq, u1: nat, u2: nat)
    requires HostSide(h, u1, u2) && ControlLink(req) && HcdOk(Link(h, req))
    ensures HostSide(Link(h, req), u1, u2)
  {
    hide HostEpd, EpdOk;
  }

  lemma {:induction false} DataLinkInStep(h: Hcd, req: LinkReq, u1: nat, u2: nat)
    requires HostSide(h, u1, u2) && DataLink(req) && HcdOk(Link(h, req))
    ensures HostSide(Link(h, req), u1, u2)
  {
    hide HostEpd, EpdOk;
    var ep, l, l' := req.ep % 16, h.bulk, Link(h, req).bulk;
    var td := NewTd(h.nextId, req);
    HcdRuns.LinkExtends(l, 1, ep, req.mps, td);
    var i := FindFrom(l, 1, ep, 0);
    forall j | 0 <= j < |l'| ensures HostEpd(l'[j], u1, u2) {
      if j == i {
        var e := if i < |l| then l[i] else NewEpd(1, ep, req.mps);
        if i == |l| {
          NewInStep(ep, req.mps, u1, u2);
        }
        EnqueueStaysInStep(e, td, u1, u2);
      } else {
        assert l'[j] == l[j];
      }
    }
    LinkedNow(l, l', 1);
    LinkedNow(l, l', 2);
  }

  lemma {:induction false} LinkedNow(l: seq<Epd>, l': seq<Epd>, ep: nat)
    requires HcdRuns.Extends(l, l')
    ensures FindFrom(l', 1, ep, 0) == |l'| ==> FindFrom(l, 1, ep, 0) == |l|
  {
    if FindFrom(l', 1, ep, 0) == |l'| {
      forall j | 0 <= j < |l| ensures !(l[j].addr == 1 && l[j].ep == ep) {
        assert !(l'[j].addr == 1 && l'[j].ep == ep);
      }
    }
  }

  lemma {:induction false} EnqueueStaysInStep(e: Epd, td: Td, u1: nat, u2: nat)
    requires HostEpd(e, u1, u2) && TdOk(td) && WaitingTd(td) && !td.pid.Setup?
    ensures HostEpd(Enqueue(e, td), u1, u2)
  {
  }

  lemma {:induction false} NewInStep(ep: nat, mps: nat, u1: nat, u2: nat)
    requires (ep == 1 && u1 == 0) || (ep == 2 && u2 == 0)
    ensures HostEpd(NewEpd(1, ep, mps), u1, u2)
  {
  }

  // ---------- iterations ----------

  /** Whether the next iteration gives a TD of this data endpoint up after an odd number of acknowledged packets. */
  predicate LosesNext(w: World, ep: nat) {
    NextPacket(w).Some? && NextKind(w).Bulk? &&
    var i, l := NextIndex(w), w.h.bulk;
    && i < |l| && l[i].ep == ep && EpdOk(l[i]) && l[i].queue != [] && BoardOk(w.d)
    && var p := PacketOf(l[i]);
       p.ep < 3 && (!p.dirIn ==> p.size == |p.data|) && ReplyFits(p, Transfer(w.d, p).1) && Loses(l[i], Transfer(w.d, p).1)
  }

  /** Whether the next iteration makes the device take a SET_CONFIGURATION. */
  predicate RequestNext(w: World, b: byte) {
    NextPacket(w).Some? && NextPacket(w).value.ep == 0 && TakesRequest(w.d, NextPacket(w).value, b)
  }

  /** Whether the next iteration's packet is one of this endpoint and is acknowledged. */
  predicate AckedNext(w: World, ep: nat) {
    NextPacket(w).Some? && BoardOk(w.d) &&
    var p := NextPacket(w).value;
    p.ep == ep && p.ep < 3 && (!p.dirIn ==> p.size == |p.data|) && Transfer(w.d, p).1.Ack?
  }

  /** The host's toggle moves with acknowledged packets and odd losses. */
  function HostAfter(w: World, u: nat, ep: nat): nat {
    (u + BitOf(AckedNext(w, ep)) + BitOf(LosesNext(w, ep))) % 2
  }

  /** The device's moves with acknowledged packets alone, and starts again with a SET_CONFIGURATION. */
  function DeviceAfter(w: World, t: nat, ep: nat): nat {
    if RequestNext(w, SET_CONFIGURATION) then 0 else (t + BitOf(AckedNext(w, ep))) % 2
  }

  lemma {:induction false} LoopInStep(w: World, key: byte, u1: nat, u2: nat, t1: nat, t2: nat)
    requires InStep(w, u1, u2, t1, t2)
    ensures InStep(LoopStep(w, key), HostAfter(w, u1, 1), HostAfter(w, u2, 2), DeviceAfter(w, t1, 1), DeviceAfter(w, t2, 2))
  {
    hide LoopStep, HostSide, DeviceSide, NextPacket, Transfer, Serve, PacketOf, Absorb, Loses, DevOk;
    InStepBits(w, u1, u2, t1, t2);
    if NextPacket(w).None? {
      SilentTurn(w, key);
      SilentInStep(w.h, LoopStep(w, key).h, u1, u2);
    } else if NextKind(w).Control? {
      ControlTurn(w, key, u1, u2, t1, t2);
    } else {
      BulkTurn(w, key, u1, u2, t1, t2);
    }
  }

  lemma {:induction false} InStepBits(w: World, u1: nat, u2: nat, t1: nat, t2: nat)
    requires InStep(w, u1, u2, t1, t2)
    ensures u1 <= 1 && u2 <= 1 && t1 <= 1 && t2 <= 1
  {
  }

  lemma {:induction false} SilentInStep(h: Hcd, h': Hcd, u1: nat, u2: nat)
    requires HostSide(h, u1, u2) && h'.control == h.control && h'.bulk == h.bulk && (HcdOk(h) ==> HcdOk(h'))
    ensures HostSide(h', u1, u2)
  {
    hide HostEpd;
  }

  lemma {:induction false} ControlTurn(w: World, key: byte, u1: nat, u2: nat, t1: nat, t2: nat)
    requires InStep(w, u1, u2, t1, t2) && NextPacket(w).Some? && NextKind(w).Control?
    ensures NextPacket(w).value.ep == 0 && ControlPacket(NextPacket(w).value)
    ensures
      if RequestNext(w, SET_CONFIGURATION) then InStep(LoopStep(w, key), u1, u2, 0, 0)
      else InStep(LoopStep(w, key), u1, u2, t1, t2) && DataUntouched(w.f, w.d, LoopStep(w, key).f, LoopStep(w, key).d)
  {
    hide LoopStep, NextPacket, Transfer, Serve, Absorb, DevOk, HostEpd, HostSide, DeviceSide, DataUntouched, TakesRequest;
    PacketTurn(w, key);
    var i, l := NextIndex(w), w.h.control;
    var p := PacketOf(l[i]);
    ControlIsZero(w.h, i, u1, u2);
    SideDrained(w.f, w.d, t1, t2);
    assert ControlPacket(p);
    if TakesRequest(w.d, p, SET_CONFIGURATION) {
      ReconfigureServed(w.f, w.d, t1, t2, p, key);
    } else {
      ControlServed(w.f, w.d, p, key);
      UntouchedSide(w.f, w.d, LoopStep(w, key).f, LoopStep(w, key).d, t1, t2);
    }
    AbsorbKeepsKey(l[i], Transfer(w.d, p).1);
    ControlInStep(w.h, LoopStep(w, key).h, i, Absorb(l[i], Transfer(w.d, p).1).epd, u1, u2);
  }

  lemma {:induction false} SideDrained(f: Fw, d: Dev, t1: nat, t2: nat)
    requires DeviceSide(f, d, t1, t2)
    ensures Drained(d) && OwnBuffer0(d) && BoardOk(d) && t1 <= 1 && t2 <= 1
  {
  }

  lemma {:induction false} ControlIsZero(h: Hcd, i: nat, u1: nat, u2: nat)
    requires HostSide(h, u1, u2) && i < |h.control| && h.control[i].queue != []
    ensures h.control[i].ep == 0
  {
  }

  lemma {:induction false} AbsorbKeepsKey(e: Epd, r: Reply)
    requires EpdOk(e) && e.queue != [] && ReplyFits(PacketOf(e), r)
    ensures Absorb(e, r).epd.addr == e.addr && Absorb(e, r).epd.ep == e.ep
  {
  }

  lemma {:induction false} ControlInStep(h: Hcd, h': Hcd, i: nat, e: Epd, u1: nat, u2: nat)
    requires HostSide(h, u1, u2) && i < |h.control| && e.ep == 0 && HcdOk(h')
    requires h'.bulk == h.bulk && h'.control == h.control[i := e]
    ensures HostSide(h', u1, u2)
  {
    hide HostEpd;
  }

  lemma {:induction false} BulkTurn(w: World, key: byte, u1: nat, u2: nat, t1: nat, t2: nat)
    requires InStep(w, u1, u2, t1, t2) && NextPacket(w).Some? && NextKind(w).Bulk?
    ensures !RequestNext(w, SET_CONFIGURATION) && t1 <= 1 && t2 <= 1
    ensures InStep(LoopStep(w, key), HostAfter(w, u1, 1), HostAfter(w, u2, 2), DeviceAfter(w, t1, 1), DeviceAfter(w, t2, 2))
  {
    hide LoopStep, NextPacket, HostSide, DeviceSide, HostAfter, DeviceAfter, RequestNext;
    BulkDevice(w, key, u1, u2, t1, t2);
    BulkHost(w, key, u1, u2, t1, t2);
  }

  lemma {:induction false} BulkDevice(w: World, key: byte, u1: nat, u2: nat, t1: nat, t2: nat)
    requires InStep(w, u1, u2, t1, t2) && NextPacket(w).Some? && NextKind(w).Bulk?
    ensures !RequestNext(w, SET_CONFIGURATION) && t1 <= 1 && t2 <= 1
    ensures DeviceSide(LoopStep(w, key).f, LoopStep(w, key).d, DeviceAfter(w, t1, 1), DeviceAfter(w, t2, 2))
  {
    hide LoopStep, NextPacket, Transfer, Serve, PacketOf, Absorb, DevOk, HostEpd, HostSide, DeviceSide, Welcome;
    PacketTurn(w, key);
    var p := NextPacket(w).value;
    HostBounds(w.h, NextIndex(w), u1, u2);
    HostPacket(w.h.bulk[NextIndex(w)], u1, u2);
    SideDrained(w.f, w.d, t1, t2);
    AckedIffWelcome(w.f, w.d, t1, t2, p);
    if !Welcome(w.d, p) {
      Refused(w.f, w.d, t1, t2, p, key);
    } else if p.ep == 1 {
      InServed1(w.f, w.d, t1, t2, p, key);
    } else {
      OutServed2(w.f, w.d, t1, t2, p, key);
    }
  }

  lemma {:induction false} BulkHost(w: World, key: byte, u1: nat, u2: nat, t1: nat, t2: nat)
    requires InStep(w, u1, u2, t1, t2) && NextPacket(w).Some? && NextKind(w).Bulk?
    ensures HostSide(LoopStep(w, key).h, HostAfter(w, u1, 1), HostAfter(w, u2, 2))
  {
    hide LoopStep, NextPacket, Transfer, Serve, PacketOf, Absorb, DevOk, HostEpd, HostSide, DeviceSide, Loses;
    PacketTurn(w, key);
    var i, l := NextIndex(w), w.h.bulk;
    var e := l[i];
    var r := Transfer(w.d, PacketOf(e)).1;
    HostBounds(w.h, i, u1, u2);
    HostPacket(e, u1, u2);
    HostMoves(e, r, u1, u2);
    BulkInStep(w.h, LoopStep(w, key).h, i, Absorb(e, r).epd, u1, u2, HostAfter(w, u1, 1), HostAfter(w, u2, 2));
  }

  lemma {:induction false} HostBounds(h: Hcd, i: nat, u1: nat, u2: nat)
    requires HostSide(h, u1, u2) && i < |h.bulk|
    ensures HostEpd(h.bulk[i], u1, u2) && u1 <= 1 && u2 <= 1 && (h.bulk[i].ep == 1 || h.bulk[i].ep == 2)
  {
  }

  /** The other bulk endpoint keeps its toggle. */
  lemma {:induction false} BulkInStep(h: Hcd, h': Hcd, i: nat, e: Epd, u1: nat, u2: nat, v1: nat, v2: nat)
    requires HostSide(h, u1, u2) && i < |h.bulk| && HcdOk(h') && v1 <= 1 && v2 <= 1
    requires h'.control == h.control && h'.bulk == h.bulk[i := e]
    requires HostEpd(e, v1, v2) && e.ep == h.bulk[i].ep && e.addr == h.bulk[i].addr
    requires e.ep == 1 ==> v2 == u2
    requires e.ep == 2 ==> v1 == u1
    ensures HostSide(h', v1, v2)
  {
    hide HostEpd, EpdOk;
    var l, l' := h.bulk, h'.bulk;
    HostKey(l[i], u1, u2);
    forall j | 0 <= j < |l'| ensures HostEpd(l'[j], v1, v2) {
      if j != i {
        HostKey(l[j], u1, u2);
        KeepsStep(l[j], u1, u2, v1, v2);
      }
    }
    SameKeysFind(l, l', 1);
    SameKeysFind(l, l', 2);
    StillLinked(l', i);
  }

  lemma {:induction false} SameKeysFind(l: seq<Epd>, l': seq<Epd>, ep: nat)
    requires |l'| == |l| && forall j :: 0 <= j < |l| ==> l'[j].addr == l[j].addr && l'[j].ep == l[j].ep
    ensures FindFrom(l', 1, ep, 0) == |l'| ==> FindFrom(l, 1, ep, 0) == |l|
  {
    if FindFrom(l', 1, ep, 0) == |l'| {
      forall j | 0 <= j < |l| ensures !(l[j].addr == 1 && l[j].ep == ep) {
        assert !(l'[j].addr == 1 && l'[j].ep == ep);
      }
    }
  }

  lemma {:induction false} HostKey(e: Epd, u1: nat, u2: nat)
    requires HostEpd(e, u1, u2)
    ensures e.addr == 1 && (e.ep == 1 || e.ep == 2)
  {
  }

  lemma {:induction false} KeepsStep(e: Epd, u1: nat, u2: nat, v1: nat, v2: nat)
    requires HostEpd(e, u1, u2) && (e.ep == 1 ==> v1 == u1) && (e.ep == 2 ==> v2 == u2)
    ensures HostEpd(e, v1, v2)
  {
  }

  lemma {:induction false} StillLinked(l: seq<Epd>, i: nat)
    requires i < |l| && l[i].addr == 1
    ensures FindFrom(l, 1, l[i].ep, 0) < |l|
  {
  }
}
