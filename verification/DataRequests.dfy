/** Which links keep the configured device from serving a given request, SET_CONFIGURATION above all: a condition on the
    linked TDs alone. */
module DataRequests {
  import opened UsbTypes
  import opened HcdModel
  import opened EventRing
  import opened DeviceModel
  import opened FirmwareModel
  import opened ControlDevice
  import opened Lockstep
  import opened ControlTransfers
  import opened Enumeration
  import opened DataToggles
  import opened DataRuns
  import HcdRuns

  // ---------- links ----------

  /** A link whose bytes cannot be taken for request b; `seen` tells whether a SETUP TD for address 1 was
      linked before. */
  predicate PoliteLink(b: byte, req: LinkReq, seen: bool) {
    DataLink(req) ||
    (&& ControlLink(req) && req.addr <= 127 && req.mps <= 1024 && req.toggle <= 3
     && (req.setup ==> !req.dirIn && |req.data| == SETUP_SIZE && req.data[1] != b)
     && (PidOf(req).Out? ==> b !in req.data && (req.addr == 1 ==> seen)))
  }

  predicate OpensWith(op: DataOp) {
    op.LinkOp? && ControlLink(op.req) && op.req.setup && op.req.addr == 1
  }

  predicate SetupLinked(ops: seq<DataOp>) {
    exists k :: 0 <= k < |ops| && OpensWith(ops[k])
  }

  predicate Polite(b: byte, ops: seq<DataOp>) {
    forall k :: 0 <= k < |ops| && ops[k].LinkOp? ==> PoliteLink(b, ops[k].req, SetupLinked(ops[..k]))
  }

  lemma {:induction false} PoliteInit(b: byte, ops: seq<DataOp>)
    requires Polite(b, ops) && ops != []
    ensures Polite(b, ops[..|ops| - 1])
    ensures var op := ops[|ops| - 1]; op.LinkOp? ==> PoliteLink(b, op.req, SetupLinked(ops[..|ops| - 1]))
    ensures SetupLinked(ops) <==> SetupLinked(ops[..|ops| - 1]) || OpensWith(ops[|ops| - 1])
  {
    hide PoliteLink, OpensWith;
    var ops0 := ops[..|ops| - 1];
    forall k | 0 <= k < |ops0| && ops0[k].LinkOp? ensures PoliteLink(b, ops0[k].req, SetupLinked(ops0[..k])) {
      assert ops0[..k] == ops[..k] && ops0[k] == ops[k];
    }
    if SetupLinked(ops) {
      var k :| 0 <= k < |ops| && OpensWith(ops[k]);
      assert k < |ops0| ==> OpensWith(ops0[k]);
    }
    if SetupLinked(ops0) {
      var k :| 0 <= k < |ops0| && OpensWith(ops0[k]);
      assert OpensWith(ops[k]);
    }
  }

  // ---------- queues ----------

  predicate PoliteTd(b: byte, td: Td) {
    match td.pid
    case Setup => |td.buffer| == SETUP_SIZE && td.buffer[1] != b
    case Out => b !in td.buffer
    case In => true
  }

  predicate PoliteQueue(b: byte, q: seq<Td>) {
    forall j :: 0 <= j < |q| ==> PoliteTd(b, q[j])
  }

  predicate PoliteQueues(b: byte, l: seq<Epd>) {
    forall i :: 0 <= i < |l| ==> PoliteQueue(b, l[i].queue)
  }

  /** The kind of the first TD of a queue that is no IN. */
  function FirstOut(q: seq<Td>): Option<TdPid> {
    if q == [] then None else if q[0].pid.In? then FirstOut(q[1..]) else Some(q[0].pid)
  }

  lemma {:induction false} FirstOutGrows(q: seq<Td>, td: Td)
    ensures FirstOut(q + [td]) == if FirstOut(q).Some? || td.pid.In? then FirstOut(q) else Some(td.pid)
  {
    if q == [] {
      assert [td][1..] == [];
    } else {
      assert (q + [td])[1..] == q[1..] + [td];
      FirstOutGrows(q[1..], td);
    }
  }

  /** The packet of a polite queue: no byte b at the second place. */
  predicate PolitePacket(b: byte, p: Packet) {
    (p.pid.PidSetup? ==> !p.dirIn && |p.data| == SETUP_SIZE) && (!p.dirIn && |p.data| > 1 ==> p.data[1] != b)
  }

  lemma {:induction false} PoliteSends(b: byte, e: Epd)
    requires EpdOk(e) && e.queue != [] && PoliteQueue(b, e.queue) && SetupAssertion(e)
    ensures PolitePacket(b, PacketOf(e)) && (PacketOf(e).pid.PidSetup? <==> e.queue[0].pid.Setup?)
    ensures PacketOf(e).dirIn <==> e.queue[0].pid.In?
  {
    var td := e.queue[0];
    assert PoliteTd(b, td);
    if td.pid.Setup? {
      assert td.buffer[td.pos..] == td.buffer;
    } else if td.pid.Out? {
      var p := PacketOf(e);
      assert forall k :: 0 <= k < |p.data| ==> p.data[k] in td.buffer;
    }
  }

  lemma {:induction false} AbsorbPolite(b: byte, e: Epd, r: Reply)
    requires EpdOk(e) && e.queue != [] && ReplyFits(PacketOf(e), r) && PoliteQueue(b, e.queue)
    ensures var q := Absorb(e, r).epd.queue; PoliteQueue(b, q) && (e.queue[0].pid.In? ==> FirstOut(q) == FirstOut(e.queue))
  {
    hide PacketOf, PoliteTd;
    HeadKept(e, r);
    var q := Absorb(e, r).epd.queue;
    if q != e.queue[1..] {
      SameTdPolite(b, e.queue[0], q[0]);
      forall j | 0 <= j < |q| ensures PoliteTd(b, q[j]) {
        assert j > 0 ==> q[j] == q[1..][j - 1] && e.queue[1..][j - 1] == e.queue[j];
      }
    }
  }

  lemma {:induction false} SameTdPolite(b: byte, td: Td, td': Td)
    requires PoliteTd(b, td) && td'.pid == td.pid && (!td.pid.In? ==> td'.buffer == td.buffer)
    ensures PoliteTd(b, td')
  {
  }

  lemma {:induction false} HeadKept(e: Epd, r: Reply)
    requires EpdOk(e) && e.queue != [] && ReplyFits(PacketOf(e), r)
    ensures
      var q := Absorb(e, r).epd.queue;
      q == e.queue[1..] ||
      (&& q != [] && q[1..] == e.queue[1..] && q[0].pid == e.queue[0].pid
       && (!q[0].pid.In? ==> q[0].buffer == e.queue[0].buffer))
  {
    hide PacketOf;
  }

  // ---------- the device ----------

  /** The second byte of the receive buffer of endpoint 0, where a SETUP event finds its request. */
  function RequestByte(d: Dev): byte
    requires BoardOk(d)
  {
    d.bufs[EP0_OUT][1]
  }

  /** The main loop never writes to the receive buffer of endpoint 0. */
  lemma {:induction false} DispatchKeepsRequest(f: Fw, d: Dev, code: int, key: byte)
    requires BoardOk(d)
    ensures var d' := Dispatch(f, d, code, key).1; BoardOk(d') && d'.bufs[EP0_OUT] == d.bufs[EP0_OUT]
  {
    hide DevOk, Descriptor;
    DispatchOk(f, d, code, key);
  }

  lemma {:induction false} TransferRequest(b: byte, d: Dev, p: Packet)
    requires Drained(d) && OwnBuffer0(d) && (ControlPacket(p) || DataPacket(p)) && PolitePacket(b, p)
    requires p.ep == 2 && Owned(d.bdt[2].out) ==> d.bdt[2].out.addr == Buf(EP2_OUT)
    requires p.ep == 1 ==> !Owned(d.bdt[1].out)
    ensures BoardOk(Transfer(d, p).0)
    ensures
      var d' := Transfer(d, p).0;
      && (RequestByte(d') == RequestByte(d) || RequestByte(d') != b)
      && (p.ep == 0 && p.pid.PidSetup? && Armed0(d) && d.u1addr == p.addr ==>
            Transfer(d, p).1.Ack? && RequestByte(d') == p.data[1])
  {
    hide Post, DevOk;
    TransferBoard(d, p);
    ToggleTestInert(d.bdt[0].out, p.pid);
  }

  lemma {:induction false} ServeRequest(f: Fw, d: Dev, p: Packet, key: byte)
    requires Drained(d) && p.ep < 3 && (!p.dirIn ==> p.size == |p.data|)
    ensures BoardOk(Transfer(d, p).0) && BoardOk(Serve(f, d, p, key).1)
    ensures RequestByte(Serve(f, d, p, key).1) == RequestByte(Transfer(d, p).0)
  {
    hide Drain, Dispatch, Transfer, DevOk, Unread, Post;
    DrainedIs(d);
    TransferBoard(d, p);
    var (t, r) := Transfer(d, p);
    AckPostsOnce(d, p);
    if r.Ack? {
      var code := EventCode(p.ep, p.dirIn);
      PostToDrained(d.ring, code);
      TransferNoReset(d, p);
      DrainOne(f, t, code, key);
      DispatchKeepsRequest(f, t.(ring := Advanced(t.ring)), code, key);
    } else {
      TransferNoReset(d, p);
      assert Drained(t) by { StillDrained(d, t); }
      DrainNone(f, t, key);
    }
  }

  lemma {:induction false} StillDrained(d: Dev, t: Dev)
    requires Drained(d) && BoardOk(t) && t.ring == d.ring && !t.reset
    ensures Drained(t)
  {
  }

  lemma {:induction false} TransferNoReset(d: Dev, p: Packet)
    requires DevOk(d) && p.ep < |d.bdt| && (!p.dirIn ==> p.size == |p.data|)
    ensures Transfer(d, p).0.reset == d.reset
  {
    hide DevOk, Post;
  }

  // ---------- before the first SETUP ----------

  /** Since the SET_CONFIGURATION, no SETUP packet has reached the device, and the next one will: on the descriptors
      of address 1, no OUT TD comes before a SETUP. */
  predicate Pristine(w: World, seen: bool) {
    && w.f.state == CtsAckSc && Armed0(w.d) && w.d.u1addr == 1
    && NoOutFirst(w.h.control) && (seen ==> SetupWaits(w.h.control))
  }

  /** No OUT TD of address 1 comes before a SETUP. */
  predicate NoOutFirst(l: seq<Epd>) {
    forall i :: 0 <= i < |l| && l[i].addr == 1 ==> FirstOut(l[i].queue) != Some(Out)
  }

  predicate SetupWaits(l: seq<Epd>) {
    var i := FindFrom(l, 1, 0, 0);
    i < |l| && FirstOut(l[i].queue) == Some(Setup)
  }

  predicate PoliteInv(b: byte, w: World, seen: bool) {
    BoardOk(w.d) && PoliteQueues(b, w.h.control) && (RequestByte(w.d) != b || Pristine(w, seen))
  }

  /** An IN packet of endpoint 0, or any packet to another address, finds the device with nothing to do. */
  lemma {:induction false} PristineServed(f: Fw, d: Dev, p: Packet, key: byte)
    requires Drained(d) && Armed0(d) && d.u1addr == 1 && f.state == CtsAckSc && ControlPacket(p)
    requires p.addr != 1 || p.dirIn
    ensures var (f', d') := Serve(f, d, p, key); f' == f && Armed0(d') && d'.u1addr == 1
  {
    hide Drain, DevOk, Unread, Post;
    DrainedIs(d);
    TransferBoard(d, p);
    var (t, r) := Transfer(d, p);
    if r.Ack? {
      PostToDrained(d.ring, 0x80);
      DrainOne(f, t, 0x80, key);
    } else {
      DrainNone(f, t, key);
    }
  }

  /** The data endpoints are served without touching endpoint 0. */
  lemma {:induction false} BulkServed(f: Fw, d: Dev, t1: nat, t2: nat, p: Packet, key: byte)
    requires DeviceSide(f, d, t1, t2) && DataPacket(p)
    ensures BoardOk(d)
    ensures var (f', d') := Serve(f, d, p, key);
      f'.state == f.state && d'.u1addr == d.u1addr && (Armed0(d) ==> Armed0(d'))
  {
    hide Drain, DevOk, Unread, Post, Welcome;
    AckedIffWelcome(f, d, t1, t2, p);
    if !Welcome(d, p) {
      Refused(f, d, t1, t2, p, key);
    } else {
      DrainedIs(d);
      TransferBoard(d, p);
      var t := Transfer(d, p).0;
      var code := EventCode(p.ep, p.dirIn);
      AckPostsOnce(d, p);
      PostToDrained(d.ring, code);
      DrainOne(f, t, code, key);
      assert code == ENDPOINT_IN || code == ENDPOINT_OUT by { WelcomeWay(d, p); }
    }
  }

  lemma {:induction false} WelcomeWay(d: Dev, p: Packet)
    requires DataPacket(p) && Welcome(d, p)
    ensures EventCode(p.ep, p.dirIn) == if p.ep == 1 then ENDPOINT_IN else ENDPOINT_OUT
  {
  }

  // ---------- links keep the invariant ----------

  lemma {:induction false} FirstOutKind(q: seq<Td>)
    ensures FirstOut(q) != Some(In)
  {
    if q != [] && q[0].pid.In? {
      FirstOutKind(q[1..]);
    }
  }

  lemma {:induction false} LinkPolite(b: byte, w: World, req: LinkReq, seen: bool)
    requires PoliteInv(b, w, seen) && PoliteLink(b, req, seen)
    ensures PoliteInv(b, LinkInWorld(w, req), seen || OpensWith(DataOp.LinkOp(req)))
  {
    hide BoardOk, Armed0, PoliteTd;
    if !ControlLink(req) || DataLink(req) {
    } else {
      var l, td := w.h.control, NewTd(w.h.nextId, req);
      assert PoliteTd(b, td) by { LinkedTd(b, req, w.h.nextId, seen); }
      LinkedPolite(b, l, req, td);
      if RequestByte(w.d) == b {
        assert LinkInWorld(w, req).h.control == LinkInto(l, req.addr, 0, req.mps, td);
        LinkedPristine(b, l, req, td, seen);
      }
    }
  }

  lemma {:induction false} LinkedTd(b: byte, req: LinkReq, id: nat, seen: bool)
    requires PoliteLink(b, req, seen) && !DataLink(req)
    ensures PoliteTd(b, NewTd(id, req))
  {
  }

  lemma {:induction false} LinkedPolite(b: byte, l: seq<Epd>, req: LinkReq, td: Td)
    requires PoliteQueues(b, l) && PoliteTd(b, td)
    ensures PoliteQueues(b, LinkInto(l, req.addr, req.ep % 16, req.mps, td))
  {
    hide PoliteTd;
    var l' := LinkInto(l, req.addr, req.ep % 16, req.mps, td);
    var i := FindFrom(l, req.addr, req.ep % 16, 0);
    forall j | 0 <= j < |l'| ensures PoliteQueue(b, l'[j].queue) {
      if j != i {
        assert l'[j] == l[j];
      } else {
        var q := if i < |l| then l[i].queue else [];
        assert PoliteQueue(b, q) && l'[j].queue == q + [td];
      }
    }
  }

  lemma {:induction false} LinkedPristine(b: byte, l: seq<Epd>, req: LinkReq, td: Td, seen: bool)
    requires NoOutFirst(l) && (seen ==> SetupWaits(l)) && PoliteLink(b, req, seen) && !DataLink(req) && td.pid == PidOf(req)
    ensures
      var l' := LinkInto(l, req.addr, 0, req.mps, td);
      NoOutFirst(l') && (seen || OpensWith(DataOp.LinkOp(req)) ==> SetupWaits(l'))
  {
    var l' := LinkInto(l, req.addr, 0, req.mps, td);
    HcdRuns.LinkExtends(l, req.addr, 0, req.mps, td);
    var i := FindFrom(l, req.addr, 0, 0);
    var q := if i < |l| then l[i].queue else [];
    FirstOutGrows(q, td);
    FirstOutKind(q);
    assert l'[i].queue == q + [td];
    forall j | 0 <= j < |l'| && l'[j].addr == 1 ensures FirstOut(l'[j].queue) != Some(Out) {
      if j != i {
        assert l'[j] == l[j];
      }
    }
    if seen || OpensWith(DataOp.LinkOp(req)) {
      FoundAgain(l, l', req.addr, i);
      var k := FindFrom(l, 1, 0, 0);
      if req.addr != 1 {
        assert seen && l'[k] == l[k];
      } else if seen {
        assert k == i && FirstOut(q) == Some(Setup);
      } else {
        assert td.pid == Setup && FirstOut(q) != Some(Out);
        assert FirstOut(q).Some? ==> FirstOut(q).value.Setup?;
      }
    }
  }

  /** The descriptor of (1, 0) is found where it was, or where the link put it. */
  lemma {:induction false} FoundAgain(l: seq<Epd>, l': seq<Epd>, addr: nat, i: nat)
    requires HcdRuns.Extends(l, l') && i == FindFrom(l, addr, 0, 0) && i < |l'| && l'[i].addr == addr && l'[i].ep == 0
    requires |l'| == if i < |l| then |l| else |l| + 1
    ensures FindFrom(l, 1, 0, 0) < |l| ==> FindFrom(l', 1, 0, 0) == FindFrom(l, 1, 0, 0)
    ensures addr == 1 ==> FindFrom(l', 1, 0, 0) == i
  {
    var k, k' := FindFrom(l, 1, 0, 0), FindFrom(l', 1, 0, 0);
    assert forall j :: 0 <= j < |l| ==> l'[j].addr == l[j].addr && l'[j].ep == l[j].ep;
  }

  // ---------- iterations keep the invariant ----------

  lemma {:induction false} LoopPolite(b: byte, w: World, key: byte, seen: bool, u1: nat, u2: nat, t1: nat, t2: nat)
    requires InStep(w, u1, u2, t1, t2) && PoliteInv(b, w, seen)
    ensures !RequestNext(w, b) && PoliteInv(b, LoopStep(w, key), seen)
  {
    hide LoopStep, HostSide, DeviceSide, NextPacket, Transfer, Serve, Absorb, DevOk, Armed0, PoliteQueues, SetupWaits,
         FirstOut, TakesRequest;
    SideDrained(w.f, w.d, t1, t2);
    if NextPacket(w).None? {
      SilentTurn(w, key);
    } else if NextKind(w).Control? {
      ControlPolite(b, w, key, seen, u1, u2, t1, t2);
    } else {
      BulkPolite(b, w, key, seen, u1, u2, t1, t2);
    }
  }

  lemma {:induction false} BulkPolite(b: byte, w: World, key: byte, seen: bool, u1: nat, u2: nat, t1: nat, t2: nat)
    requires InStep(w, u1, u2, t1, t2) && PoliteInv(b, w, seen) && NextPacket(w).Some? && NextKind(w).Bulk?
    ensures !RequestNext(w, b) && PoliteInv(b, LoopStep(w, key), seen)
  {
    hide LoopStep, HostSide, DeviceSide, NextPacket, Transfer, Serve, PacketOf, Absorb, DevOk, Armed0, PoliteQueues,
         SetupWaits, FirstOut, HostEpd, BoardOk;
    BulkTurn(w, key, u1, u2, t1, t2);
    PacketTurn(w, key);
    HostBounds(w.h, NextIndex(w), u1, u2);
    HostPacket(w.h.bulk[NextIndex(w)], u1, u2);
    var p := NextPacket(w).value;
    SideDrained(w.f, w.d, t1, t2);
    BulkServed(w.f, w.d, t1, t2, p, key);
    BulkRequest(w.f, w.d, t1, t2, p, key);
  }

  /** A data packet leaves the receive buffer of endpoint 0 alone. */
  lemma {:induction false} BulkRequest(f: Fw, d: Dev, t1: nat, t2: nat, p: Packet, key: byte)
    requires DeviceSide(f, d, t1, t2) && DataPacket(p)
    ensures BoardOk(d) && BoardOk(Serve(f, d, p, key).1)
    ensures RequestByte(Serve(f, d, p, key).1) == RequestByte(d)
  {
    hide Serve, DevOk, Post;
    TransferBoard(d, p);
    ServeRequest(f, d, p, key);
  }

  lemma {:induction false} ControlPolite(b: byte, w: World, key: byte, seen: bool, u1: nat, u2: nat, t1: nat, t2: nat)
    requires InStep(w, u1, u2, t1, t2) && PoliteInv(b, w, seen) && NextPacket(w).Some? && NextKind(w).Control?
    ensures !RequestNext(w, b) && PoliteInv(b, LoopStep(w, key), seen)
  {
    hide LoopStep, HostSide, DeviceSide, NextPacket, Transfer, Serve, Absorb, DevOk, Armed0, PoliteTd,
         FirstOut, PacketOf, BoardOk, Drained, PolitePacket, ControlPacket;
    ControlTurn(w, key, u1, u2, t1, t2);
    PacketTurn(w, key);
    SideDrained(w.f, w.d, t1, t2);
    var i, l := NextIndex(w), w.h.control;
    var e, p := l[i], NextPacket(w).value;
    var r := Transfer(w.d, p).1;
    PoliteSends(b, e);
    TransferRequest(b, w.d, p);
    ServeRequest(w.f, w.d, p, key);
    AbsorbPolite(b, e, r);
    AbsorbKeepsKey(e, r);
    if r.Ack? {
      OnlyReachedAcks(w.d, p);
    }
    var w' := LoopStep(w, key);
    assert PoliteQueues(b, w'.h.control);
    if RequestByte(w.d) == b && RequestByte(w'.d) == b {
      if p.addr == 1 && !p.dirIn {
        HeadIsFirst(e.queue);
      }
      assert p.addr != 1 || p.dirIn;
      PristineServed(w.f, w.d, p, key);
      StillNoOut(l, i, Absorb(e, r).epd, seen);
    }
  }

  lemma {:induction false} HeadIsFirst(q: seq<Td>)
    requires q != [] && !q[0].pid.In?
    ensures FirstOut(q) == Some(q[0].pid)
  {
  }

  lemma {:induction false} OnlyReachedAcks(d: Dev, p: Packet)
    requires DevOk(d) && p.ep < |d.bdt| && (!p.dirIn ==> p.size == |p.data|) && Transfer(d, p).1.Ack?
    ensures p.addr == d.u1addr
  {
  }

  lemma {:induction false} StillNoOut(l: seq<Epd>, i: nat, e: Epd, seen: bool)
    requires NoOutFirst(l) && (seen ==> SetupWaits(l)) && i < |l| && e.addr == l[i].addr && e.ep == l[i].ep
    requires e.addr == 1 ==> FirstOut(e.queue) == FirstOut(l[i].queue)
    ensures NoOutFirst(l[i := e]) && (seen ==> SetupWaits(l[i := e]))
  {
    var l' := l[i := e];
    forall j | 0 <= j < |l'| && l'[j].addr == 1 ensures FirstOut(l'[j].queue) != Some(Out) {
      if j != i {
        assert l'[j] == l[j];
      }
    }
    if seen {
      var k, k' := FindFrom(l, 1, 0, 0), FindFrom(l', 1, 0, 0);
      assert forall j :: 0 <= j < |l| ==> l'[j].addr == l[j].addr && l'[j].ep == l[j].ep;
      assert k' == k;
    }
  }

  // ---------- runs ----------

  lemma {:induction false} StartPolite(b: byte, w: World)
    requires JustConfigured(w)
    ensures PoliteInv(b, w, false) && !SetupLinked([])
  {
  }

  lemma {:induction false} RunPolite(b: byte, w: World, ops: seq<DataOp>)
    requires JustConfigured(w) && Polite(b, ops)
    ensures NeverRequested(w, ops, b) && PoliteInv(b, RunData(w, ops), SetupLinked(ops))
  {
    hide LoopStep, LinkInWorld, InStep, PoliteInv, PoliteLink, HostToggle, DeviceToggle, RequestNext, Polite,
         JustConfigured, SetupLinked;
    if ops == [] {
      StartPolite(b, w);
    } else {
      var ops0, op := ops[..|ops| - 1], ops[|ops| - 1];
      var w1 := RunData(w, ops0);
      PoliteInit(b, ops);
      RunPolite(b, w, ops0);
      match op
      case LinkOp(req) => LinkPolite(b, w1, req, SetupLinked(ops0));
      case LoopOp(key) =>
        RunStaysInStep(w, ops0);
        LoopPolite(b, w1, key, SetupLinked(ops0), HostToggle(w, ops0, 1), HostToggle(w, ops0, 2),
                   DeviceToggle(w, ops0, 1), DeviceToggle(w, ops0, 2));
    }
  }

  /** With such links, an acknowledged packet of endpoint 1 IN or 2 OUT has the kind the firmware armed if and only if an
      even number of the endpoint's TDs were given up after an odd number of acknowledged packets. */
  lemma {:induction false} TogglesAgreePolite(w: World, ops: seq<DataOp>)
    requires JustConfigured(w) && Polite(SET_CONFIGURATION, ops)
    ensures
      var w' := RunData(w, ops);
      && HcdOk(w'.h) && BoardOk(w'.d)
      && (NextPacket(w').Some? && NextPacket(w').value.ep != 0 ==>
            var p := NextPacket(w').value;
            && DataPacket(p)
            && (Transfer(w'.d, p).1.Ack? ==>
                  (p.dirIn <==> p.ep == 1) && (p.pid == ArmedKind(StatFor(w'.d, p)) <==> Losses(w, ops, p.ep) % 2 == 0)))
  {
    hide RunData, NextPacket, Transfer, JustConfigured, Polite, ArmedKind, HcdOk;
    RunPolite(SET_CONFIGURATION, w, ops);
    TogglesAgreeIff(w, ops);
    LagIsLosses(w, ops, 1);
    LagIsLosses(w, ops, 2);
  }

  /** Enumeration, from any quiet system without bulk endpoints, is such a start. */
  lemma {:induction false} TogglesAgreeOnceEnumerated(w: World, devDsc: seq<byte>, cfgDsc: seq<byte>, ts: nat -> Timing,
                                                      ops: seq<DataOp>)
    requires Quiet(w) && w.h.bulk == [] && Reachable(w.d, 0) && Sizes(devDsc, cfgDsc) && TimingsOk(ts)
    requires Polite(SET_CONFIGURATION, ops)
    ensures Sizes(FirstHalf(w, devDsc, cfgDsc, ts).devDsc, FirstHalf(w, devDsc, cfgDsc, ts).cfgDsc)
    ensures
      var w0 := SecondHalf(FirstHalf(w, devDsc, cfgDsc, ts), ts).w;
      var w' := RunData(w0, ops);
      && JustConfigured(w0) && HcdOk(w'.h) && BoardOk(w'.d)
      && (NextPacket(w').Some? && NextPacket(w').value.ep != 0 ==>
            var p := NextPacket(w').value;
            && DataPacket(p)
            && (Transfer(w'.d, p).1.Ack? ==>
                  (p.dirIn <==> p.ep == 1) && (p.pid == ArmedKind(StatFor(w'.d, p)) <==> Losses(w0, ops, p.ep) % 2 == 0)))
  {
    hide FirstHalf, SecondHalf, DataEndpointsArmed, RunData, Transfer, NextPacket, Polite, ArmedKind, HcdOk, Losses;
    EnumerationAgrees(w, devDsc, cfgDsc, ts);
    TogglesAgreePolite(SecondHalf(FirstHalf(w, devDsc, cfgDsc, ts), ts).w, ops);
  }

  /** Why an OUT TD must not come first: an empty OUT packet leaves no room in the still owned receive entry, and the
      firmware serves the SETUP after it, whatever it asks, as the old SET_CONFIGURATION. */
  lemma {:induction false} StaleRequest(f: Fw, d: Dev, setup: seq<byte>, key: byte)
    requires Drained(d) && OwnBuffer0(d) && Armed0(d) && d.u1addr == 1 && f.state == CtsAckSc && |setup| == SETUP_SIZE
    requires RequestByte(d) == SET_CONFIGURATION
    ensures
      var (f1, d1) := Serve(f, d, StatusOutPacket(1), key);
      && f1 == f && Drained(d1) && Transfer(d1, SetupPacket(1, setup)).1 == Ack(0, [])
      && TakesRequest(d1, SetupPacket(1, setup), SET_CONFIGURATION)
  {
    hide Drain, DevOk, Unread, Post;
    var p, q := StatusOutPacket(1), SetupPacket(1, setup);
    DrainedIs(d);
    TransferBoard(d, p);
    var t := Transfer(d, p).0;
    var e := d.bdt[0].out;
    OutKind(e.stat, PidData1);
    ToggleTestInert(e, PidData1);
    assert t.bufs[EP0_OUT] == d.bufs[EP0_OUT];
    PostToDrained(d.ring, 0);
    DrainOne(f, t, 0, key);
    ServeDrains(f, d, p, key);
    var d1 := Serve(f, d, p, key).1;
    Emptied(e.stat);
    assert d1.bdt[0].out.cnt == 0 && d1.bdt[0].out.stat & 1 == 0;
    TransferBoard(d1, q);
    ToggleTestInert(d1.bdt[0].out, PidSetup);
  }

  lemma {:induction false} Emptied(s: bv8)
    requires s & UOWN != 0 && s & 1 == 0
    ensures var s' := (s & 0xC3) | (CodeOf(PidData1) << 2); s' & UOWN != 0 && s' & 1 == 0
  {
  }
}
