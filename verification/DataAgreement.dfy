/** The toggles of the data endpoints agree on every acknowledged packet, whatever control transfers go on beside, as long
    as none of them sets the configuration or the address again. */
module DataAgreement {
  import opened UsbTypes
  import opened HcdModel
  import opened EpdToggles
  import opened EpdTrack
  import opened EventRing
  import opened DeviceModel
  import opened FirmwareModel
  import opened ControlDevice
  import opened Lockstep
  import opened ControlTransfers
  import opened Enumeration
  import opened DataToggles
  import opened DataRuns
  import opened DataRequests

  // ---------- the address stays ----------

  /** The device is at address 1 and not about to change it. */
  predicate Settled(f: Fw, d: Dev) {
    d.u1addr == 1 && f.state != CtsAckAd
  }

  lemma {:induction false} ControlSettled(f: Fw, d: Dev, p: Packet, key: byte)
    requires Drained(d) && OwnBuffer0(d) && ControlPacket(p) && !TakesRequest(d, p, SET_ADDRESS) && Settled(f, d)
    ensures BoardOk(d) && var (f', d') := Serve(f, d, p, key); Settled(f', d')
  {
    hide Drain, Transfer, DevOk, Post, Unread, ProcessControl, Drained, OwnBuffer0;
    DrainedIs(d);
    TransferBoard(d, p);
    var (t, r) := Transfer(d, p);
    ControlTransferred(d, p);
    SameAddress(d, p);
    if r.Ack? {
      var code := if p.dirIn then 0x80 else 0;
      DrainOne(f, t, code, key);
      RingIsOk(t);
      DispatchSettled(f, t.(ring := Advanced(t.ring)), code);
    } else {
      DrainNone(f, t, key);
    }
  }

  lemma {:induction false} SameAddress(d: Dev, p: Packet)
    requires DevOk(d) && p.ep < |d.bdt| && (!p.dirIn ==> p.size == |p.data|)
    ensures Transfer(d, p).0.u1addr == d.u1addr
  {
    hide DevOk, Post;
  }

  lemma {:induction false} DispatchSettled(f: Fw, d: Dev, code: int)
    requires BoardOk(d) && Settled(f, d) && (IsSetup(d, code) ==> d.bufs[EP0_OUT][1] != SET_ADDRESS)
    ensures var (f', d') := ProcessControl(f, d, code); Settled(f', d')
  {
    hide DevOk, Descriptor;
  }

  /** Out of reach at its own address, it never hears of another packet. */
  lemma {:induction false} OutOfReach(f: Fw, d: Dev, p: Packet, key: byte)
    requires Drained(d) && d.u1addr == 1 && !Reachable(d, 1) && p.ep < 3 && (!p.dirIn ==> p.size == |p.data|)
    ensures BoardOk(d) && Serve(f, d, p, key) == (f, d)
  {
    hide Drain;
    DrainNone(f, d, key);
  }

  // ---------- no loss while the device is in reach ----------

  lemma {:induction false} AckOrNak(f: Fw, d: Dev, t1: nat, t2: nat, p: Packet)
    requires DeviceSide(f, d, t1, t2) && DataPacket(p) && Reachable(d, p.addr) && (!p.dirIn ==> p.size <= BUF_SIZE)
    ensures BoardOk(d) && (Transfer(d, p).1.Ack? || Transfer(d, p).1.Nak?)
  {
    hide Post;
    KindOfStat(t1);
    KindOfStat(t2);
    ToggleTestInert(d.bdt[2].out, p.pid);
  }

  /** A half-sent OUT TD has packets the device's buffer can take. */
  predicate SmallHead(e: Epd) {
    e.queue != [] ==>
      var td := e.queue[0];
      td.pid.Out? && AckCount(td.trace) > 0 ==> Min(e.mps, |td.buffer| - td.pos) <= BUF_SIZE
  }

  predicate SmallHeads(l: seq<Epd>) {
    forall i :: 0 <= i < |l| ==> SmallHead(l[i])
  }

  /** The TD that stays at the head has recorded its packet, and has no more left to send than before. */
  lemma {:induction false} HeadLeft(e: Epd, r: Reply)
    requires EpdOk(e) && e.queue != [] && ReplyFits(PacketOf(e), r)
    ensures
      var q, td := Absorb(e, r).epd.queue, e.queue[0];
      && Absorb(e, r).epd.mps == e.mps
      && (q == e.queue[1..] ||
          (&& q != [] && q[0].pid == td.pid && q[0].trace == td.trace + [Exchange(PacketOf(e), r)]
           && |q[0].buffer| == |td.buffer| && q[0].pos >= td.pos))
  {
  }

  lemma {:induction false} AbsorbSmall(e: Epd, r: Reply, u1: nat, u2: nat)
    requires HostEpd(e, u1, u2) && e.queue != [] && ReplyFits(PacketOf(e), r) && SmallHead(e)
    requires r.Ack? && !PacketOf(e).dirIn ==> PacketOf(e).size <= BUF_SIZE
    ensures SmallHead(Absorb(e, r).epd)
  {
    hide HeadToggle, NextToggle, Absorb, PacketOf, AckedPids;
    HeadLeft(e, r);
    PidsGrow(e.queue[0].trace, Exchange(PacketOf(e), r));
    NoTraceNoAck();
    if e.queue[0].pid.Out? {
      OutSize(e);
    }
    if |e.queue| > 1 {
      assert WaitingTd(e.queue[1]);
    }
  }

  lemma {:induction false} OutSize(e: Epd)
    requires EpdOk(e) && e.queue != [] && e.queue[0].pid.Out?
    ensures !PacketOf(e).dirIn && PacketOf(e).size == Min(e.mps, |e.queue[0].buffer| - e.queue[0].pos)
  {
  }

  lemma {:induction false} NoTraceNoAck()
    ensures AckCount([]) == 0
  {
  }

  lemma {:induction false} LinkSmall(h: Hcd, req: LinkReq)
    requires SmallHeads(h.bulk)
    ensures SmallHeads(Link(h, req).bulk)
  {
    NoTraceNoAck();
    var l, l' := h.bulk, Link(h, req).bulk;
    var i := FindFrom(l, req.addr, req.ep % 16, 0);
    forall j | 0 <= j < |l'| ensures SmallHead(l'[j]) {
      if KindOf(req).Bulk? && j == i {
        assert l'[j].queue == (if i < |l| then l[i].queue else []) + [NewTd(h.nextId, req)];
      } else {
        assert l'[j] == l[j];
      }
    }
  }

  /** While the device is in reach, no TD of a data endpoint is given up after an acknowledged packet. */
  lemma {:induction false} NothingLost(w: World, u1: nat, u2: nat, t1: nat, t2: nat, ep: nat)
    requires InStep(w, u1, u2, t1, t2) && Reachable(w.d, 1) && SmallHeads(w.h.bulk)
    ensures !LosesNext(w, ep)
  {
    hide HostSide, DeviceSide, NextPacket, Transfer, HostEpd, Absorb;
    if LosesNext(w, ep) {
      PacketTurn(w, 0);
      var e, p := w.h.bulk[NextIndex(w)], NextPacket(w).value;
      var r := Transfer(w.d, p).1;
      HostBounds(w.h, NextIndex(w), u1, u2);
      HostPacket(e, u1, u2);
      LossNeeds(e, r, u1, u2);
      assert SmallHead(e);
      AckOrNak(w.f, w.d, t1, t2, p);
    }
  }

  lemma {:induction false} LossNeeds(e: Epd, r: Reply, u1: nat, u2: nat)
    requires HostEpd(e, u1, u2) && e.queue != [] && ReplyFits(PacketOf(e), r) && Loses(e, r)
    ensures !r.Ack? && !r.Nak? && AckCount(e.queue[0].trace) > 0
    ensures SmallHead(e) && !PacketOf(e).dirIn ==> PacketOf(e).size <= BUF_SIZE
  {
    hide HeadToggle, NextToggle;
    PidsGrow(e.queue[0].trace, Exchange(PacketOf(e), r));
  }

  // ---------- runs ----------

  ghost predicate AgreeInv(w: World, lost: nat) {
    Settled(w.f, w.d) && SmallHeads(w.h.bulk) && (Reachable(w.d, 1) ==> lost == 0)
  }

  lemma {:induction false} LoopAgrees(w: World, key: byte, u1: nat, u2: nat, t1: nat, t2: nat, lost: nat)
    requires InStep(w, u1, u2, t1, t2) && AgreeInv(w, lost) && !RequestNext(w, SET_ADDRESS)
    ensures AgreeInv(LoopStep(w, key), lost + BitOf(LosesNext(w, 1)) + BitOf(LosesNext(w, 2)))
  {
    hide LoopStep, HostSide, DeviceSide, NextPacket, Transfer, Serve, PacketOf, HostEpd, Absorb, DevOk, LosesNext,
         TakesRequest, SmallHead, Reachable, Settled;
    if Reachable(w.d, 1) {
      NothingLost(w, u1, u2, t1, t2, 1);
      NothingLost(w, u1, u2, t1, t2, 2);
    }
    if NextPacket(w).None? {
      SilentTurn(w, key);
    } else {
      PacketTurn(w, key);
      DeviceAgrees(w, key, u1, u2, t1, t2);
      if NextKind(w).Bulk? {
        BulkSmall(w, u1, u2, t1, t2);
      }
    }
  }

  lemma {:induction false} BulkSmall(w: World, u1: nat, u2: nat, t1: nat, t2: nat)
    requires InStep(w, u1, u2, t1, t2) && NextPacket(w).Some? && NextKind(w).Bulk? && SmallHeads(w.h.bulk)
    ensures var i := NextIndex(w);
      && i < |w.h.bulk| && EpdOk(w.h.bulk[i]) && w.h.bulk[i].queue != []
      && BoardOk(w.d) && var p := PacketOf(w.h.bulk[i]);
      && p.ep < 3 && (!p.dirIn ==> p.size == |p.data|) && ReplyFits(p, Transfer(w.d, p).1)
      && SmallHead(Absorb(w.h.bulk[i], Transfer(w.d, p).1).epd)
  {
    hide HostSide, DeviceSide, NextPacket, Transfer, PacketOf, HostEpd, Absorb, SmallHead;
    PacketTurn(w, 0);
    var e, p := w.h.bulk[NextIndex(w)], NextPacket(w).value;
    HostBounds(w.h, NextIndex(w), u1, u2);
    HostPacket(e, u1, u2);
    AckedIffWelcome(w.f, w.d, t1, t2, p);
    AbsorbSmall(e, Transfer(w.d, p).1, u1, u2);
  }

  lemma {:induction false} DeviceAgrees(w: World, key: byte, u1: nat, u2: nat, t1: nat, t2: nat)
    requires InStep(w, u1, u2, t1, t2) && NextPacket(w).Some? && Settled(w.f, w.d) && !RequestNext(w, SET_ADDRESS)
    ensures var w' := LoopStep(w, key); Settled(w'.f, w'.d) && (Reachable(w'.d, 1) ==> Reachable(w.d, 1))
  {
    hide LoopStep, HostSide, DeviceSide, NextPacket, Transfer, Serve, PacketOf, HostEpd, Absorb, DevOk, TakesRequest, Armed0;
    PacketTurn(w, key);
    SideDrained(w.f, w.d, t1, t2);
    var p := NextPacket(w).value;
    if !Reachable(w.d, 1) {
      OutOfReach(w.f, w.d, p, key);
    } else if NextKind(w).Control? {
      ControlTurn(w, key, u1, u2, t1, t2);
      ControlSettled(w.f, w.d, p, key);
    } else {
      HostBounds(w.h, NextIndex(w), u1, u2);
      HostPacket(w.h.bulk[NextIndex(w)], u1, u2);
      BulkServed(w.f, w.d, t1, t2, p, key);
    }
  }

  lemma {:induction false} RunAgrees(w: World, ops: seq<DataOp>)
    requires JustConfigured(w) && NeverRequested(w, ops, SET_ADDRESS)
    ensures AgreeInv(RunData(w, ops), Losses(w, ops, 1) + Losses(w, ops, 2))
  {
    hide InStep, LoopStep, JustConfigured, HostToggle, DeviceToggle, Link, SmallHeads, RequestNext, LosesNext;
    if ops == [] {
      StartAgrees(w);
    } else {
      var ops0, op := ops[..|ops| - 1], ops[|ops| - 1];
      var w1 := RunData(w, ops0);
      RunAgrees(w, ops0);
      match op
      case LinkOp(req) =>
        LinkSmall(w1.h, req);
      case LoopOp(key) =>
        RunStaysInStep(w, ops0);
        LoopAgrees(w1, key, HostToggle(w, ops0, 1), HostToggle(w, ops0, 2), DeviceToggle(w, ops0, 1),
                   DeviceToggle(w, ops0, 2), Losses(w, ops0, 1) + Losses(w, ops0, 2));
    }
  }

  lemma {:induction false} StartAgrees(w: World)
    requires JustConfigured(w)
    ensures AgreeInv(w, 0)
  {
  }

  /** Every acknowledged packet of a data endpoint has the kind the firmware armed, in every run after SET_CONFIGURATION
      whose control transfers leave configuration and address alone, be they served, unknown or fatal to the device. */
  lemma {:induction false} AckedAgrees(w: World, ops: seq<DataOp>)
    requires JustConfigured(w) && Polite(SET_CONFIGURATION, ops) && Polite(SET_ADDRESS, ops)
    ensures
      var w' := RunData(w, ops);
      && BoardOk(w'.d) && HcdOk(w'.h)
      && (NextPacket(w').Some? && NextPacket(w').value.ep != 0 ==>
            var p := NextPacket(w').value;
            && DataPacket(p)
            && (Transfer(w'.d, p).1.Ack? ==> (p.dirIn <==> p.ep == 1) && p.pid == ArmedKind(StatFor(w'.d, p))))
  {
    hide RunData, NextPacket, Transfer, JustConfigured, Polite, ArmedKind, HcdOk, Settled, SmallHeads, Losses;
    TogglesAgreePolite(w, ops);
    RunPolite(SET_ADDRESS, w, ops);
    RunAgrees(w, ops);
    TogglesAgreeIff(w, ops);
  }
}
