/** Lockstep runs after SET_CONFIGURATION: which kind the next packet of a data endpoint has, and which one is armed. */
module DataRuns {
  import opened UsbTypes
  import opened HcdModel
  import opened DeviceModel
  import opened FirmwareModel
  import opened ControlDevice
  import opened Lockstep
  import opened ControlTransfers
  import opened Enumeration
  import opened DataToggles

  /** A TD is linked, by any thread, or the loop runs one iteration; `key` is the key pressed should it serve endpoint 1. */
  datatype DataOp = LinkOp(req: LinkReq) | LoopOp(key: byte)

  predicate LinkKnown(req: LinkReq) {
    DataLink(req) || ControlLink(req)
  }

  function RunData(w: World, ops: seq<DataOp>): World {
    if ops == [] then w
    else
      var w1, op := RunData(w, ops[..|ops| - 1]), ops[|ops| - 1];
      match op
      case LinkOp(req) => if LinkKnown(req) then LinkInWorld(w1, req) else w1
      case LoopOp(key) => LoopStep(w1, key)
  }

  /** The start: SET_CONFIGURATION has just completed at address 1, and no bulk TD was linked yet. */
  predicate JustConfigured(w: World) {
    && Quiet(w) && w.h.bulk == [] && Armed0(w.d) && w.d.u1addr == 1 && DataEndpointsArmed(w.d)
    && w.f.inData == 1 && w.f.outData == 1 && w.f.state == CtsAckSc
  }

  /** The acknowledged packets of an endpoint. */
  function Acks(w: World, ops: seq<DataOp>, ep: nat): nat {
    if ops == [] then 0
    else
      var ops0, op := ops[..|ops| - 1], ops[|ops| - 1];
      Acks(w, ops0, ep) + (if op.LoopOp? then BitOf(AckedNext(RunData(w, ops0), ep)) else 0)
  }

  /** The TDs of an endpoint given up after an odd number of acknowledged packets. */
  function Losses(w: World, ops: seq<DataOp>, ep: nat): nat {
    if ops == [] then 0
    else
      var ops0, op := ops[..|ops| - 1], ops[|ops| - 1];
      Losses(w, ops0, ep) + (if op.LoopOp? then BitOf(LosesNext(RunData(w, ops0), ep)) else 0)
  }

  /** By how many packets the host is ahead of the device: the odd losses, and what a SET_CONFIGURATION makes the device
      forget. */
  function Lag(w: World, ops: seq<DataOp>, ep: nat): nat {
    if ops == [] then 0
    else
      var ops0, op := ops[..|ops| - 1], ops[|ops| - 1];
      if op.LinkOp? then Lag(w, ops0, ep)
      else if RequestNext(RunData(w, ops0), SET_CONFIGURATION) then Acks(w, ops0, ep) + Losses(w, ops0, ep)
      else Lag(w, ops0, ep) + BitOf(LosesNext(RunData(w, ops0), ep))
  }

  /** The device takes no SET_CONFIGURATION in the run. */
  predicate NeverRequested(w: World, ops: seq<DataOp>, b: byte) {
    ops == [] ||
    (&& NeverRequested(w, ops[..|ops| - 1], b)
     && (ops[|ops| - 1].LoopOp? ==> !RequestNext(RunData(w, ops[..|ops| - 1]), b)))
  }

  /** The toggles after a run: the host's, and the device's. */
  function HostToggle(w: World, ops: seq<DataOp>, ep: nat): nat {
    (Acks(w, ops, ep) + Losses(w, ops, ep)) % 2
  }

  function DeviceToggle(w: World, ops: seq<DataOp>, ep: nat): nat {
    (Acks(w, ops, ep) + Losses(w, ops, ep) + Lag(w, ops, ep)) % 2
  }

  lemma {:induction false} StartInStep(w: World)
    requires JustConfigured(w)
    ensures InStep(w, 0, 0, 0, 0)
  {
    KindOfStat(0);
  }

  lemma {:induction false} ReconfigureIsControl(w: World, ep: nat, u1: nat, u2: nat, t1: nat, t2: nat)
    requires InStep(w, u1, u2, t1, t2) && RequestNext(w, SET_CONFIGURATION) && ep > 0
    ensures !AckedNext(w, ep) && !LosesNext(w, ep)
  {
    hide InStep, TakesRequest, NextPacket, Transfer, PacketOf, Loses;
    if NextKind(w).Bulk? {
      BulkTurn(w, 0, u1, u2, t1, t2);
    }
  }

  /** One more iteration moves both toggles as counted. */
  lemma {:induction false} TogglesCounted(w: World, ops: seq<DataOp>, key: byte, ep: nat, u1: nat, u2: nat, t1: nat, t2: nat)
    requires InStep(RunData(w, ops), u1, u2, t1, t2) && ep > 0
    ensures
      var w1, ops' := RunData(w, ops), ops + [LoopOp(key)];
      && HostToggle(w, ops', ep) == HostAfter(w1, HostToggle(w, ops, ep), ep)
      && DeviceToggle(w, ops', ep) == DeviceAfter(w1, DeviceToggle(w, ops, ep), ep)
  {
    hide InStep, LoopStep, RunData, RequestNext, AckedNext, LosesNext, Acks, Losses, Lag, BitOf;
    var w1 := RunData(w, ops);
    var acks, losses, lag := Acks(w, ops, ep), Losses(w, ops, ep), Lag(w, ops, ep);
    var a, l := BitOf(AckedNext(w1, ep)), BitOf(LosesNext(w1, ep));
    CountsGrow(w, ops, key, ep);
    Parity(acks + losses, a + l);
    if RequestNext(w1, SET_CONFIGURATION) {
      ReconfigureIsControl(w1, ep, u1, u2, t1, t2);
      assert a == 0 && l == 0 by { NoBit(); }
      Doubled(acks + losses);
    } else {
      Parity(acks + losses + lag, a);
      Doubled(l);
      Parity(acks + losses + lag + a, l + l);
    }
  }

  lemma {:induction false} NoBit()
    ensures BitOf(false) == 0
  {
  }

  lemma {:induction false} CountsGrow(w: World, ops: seq<DataOp>, key: byte, ep: nat)
    ensures
      var w1, ops' := RunData(w, ops), ops + [LoopOp(key)];
      && Acks(w, ops', ep) == Acks(w, ops, ep) + BitOf(AckedNext(w1, ep))
      && Losses(w, ops', ep) == Losses(w, ops, ep) + BitOf(LosesNext(w1, ep))
      && Lag(w, ops', ep) == if RequestNext(w1, SET_CONFIGURATION) then Acks(w, ops, ep) + Losses(w, ops, ep)
                             else Lag(w, ops, ep) + BitOf(LosesNext(w1, ep))
  {
    hide RunData, RequestNext, AckedNext, LosesNext;
    var ops' := ops + [LoopOp(key)];
    assert ops'[..|ops'| - 1] == ops;
  }

  lemma {:induction false} Parity(n: nat, m: nat)
    ensures (n + m) % 2 == (n % 2 + m) % 2
  {
  }

  lemma {:induction false} Doubled(n: nat)
    ensures (n + n) % 2 == 0
  {
  }

  lemma {:induction false} RunStaysInStep(w: World, ops: seq<DataOp>)
    requires JustConfigured(w)
    ensures InStep(RunData(w, ops), HostToggle(w, ops, 1), HostToggle(w, ops, 2),
                   DeviceToggle(w, ops, 1), DeviceToggle(w, ops, 2))
  {
    hide LoopStep, LinkInWorld, InStep, HostAfter, DeviceAfter, RequestNext, AckedNext, LosesNext;
    if ops == [] {
      StartInStep(w);
    } else {
      var ops0, op := ops[..|ops| - 1], ops[|ops| - 1];
      var w1 := RunData(w, ops0);
      var u1, u2 := HostToggle(w, ops0, 1), HostToggle(w, ops0, 2);
      var t1, t2 := DeviceToggle(w, ops0, 1), DeviceToggle(w, ops0, 2);
      RunStaysInStep(w, ops0);
      match op
      case LinkOp(req) =>
        if LinkKnown(req) {
          LinkStaysInStep(w1, req, u1, u2, t1, t2);
        }
      case LoopOp(key) =>
        assert ops0 + [LoopOp(key)] == ops;
        TogglesCounted(w, ops0, key, 1, u1, u2, t1, t2);
        TogglesCounted(w, ops0, key, 2, u1, u2, t1, t2);
        LoopInStep(w1, key, u1, u2, t1, t2);
    }
  }

  // ---------- the next packet of a data endpoint ----------

  /** The status byte of the direction a packet goes. */
  function StatFor(d: Dev, p: Packet): bv8
    requires p.ep < |d.bdt|
  {
    if p.dirIn then d.bdt[p.ep].inn.stat else d.bdt[p.ep].out.stat
  }

  lemma {:induction false} NextInStep(w: World, u1: nat, u2: nat, t1: nat, t2: nat)
    requires InStep(w, u1, u2, t1, t2) && NextPacket(w).Some? && NextPacket(w).value.ep != 0
    ensures BoardOk(w.d)
    ensures
      var p := NextPacket(w).value;
      && DataPacket(p) && p.addr == 1 && (Transfer(w.d, p).1.Ack? <==> Welcome(w.d, p))
      && p.pid == DataPid(if p.ep == 1 then u1 else u2)
      && ((p.dirIn <==> p.ep == 1) ==> ArmedKind(StatFor(w.d, p)) == DataPid(if p.ep == 1 then t1 else t2))
  {
    hide HostSide, DeviceSide, NextPacket, Transfer, PacketOf, HostEpd, Welcome;
    if NextKind(w).Control? {
      ControlTurn(w, 0, u1, u2, t1, t2);
    } else {
      PacketTurn(w, 0);
      HostBounds(w.h, NextIndex(w), u1, u2);
      HostPacket(w.h.bulk[NextIndex(w)], u1, u2);
      AckedIffWelcome(w.f, w.d, t1, t2, NextPacket(w).value);
      ArmedAre(w.f, w.d, t1, t2);
    }
  }

  lemma {:induction false} ArmedAre(f: Fw, d: Dev, t1: nat, t2: nat)
    requires DeviceSide(f, d, t1, t2)
    ensures |d.bdt| == 3 && ArmedKind(d.bdt[1].inn.stat) == DataPid(t1) && ArmedKind(d.bdt[2].out.stat) == DataPid(t2)
  {
    KindOfStat(t1);
    KindOfStat(t2);
  }

  /** The next packet of a data endpoint, after any run: it goes to address 1, is acknowledged exactly if the device is
      reachable there and the packet has the endpoint's direction and at most 64 bytes, and then has the DATA0/DATA1 kind
      the firmware armed if and only if the host is an even number of packets ahead. */
  lemma {:induction false} TogglesAgreeIff(w: World, ops: seq<DataOp>)
    requires JustConfigured(w)
    ensures
      var w' := RunData(w, ops);
      && HcdOk(w'.h) && BoardOk(w'.d)
      && (NextPacket(w').Some? && NextPacket(w').value.ep != 0 ==>
            var p := NextPacket(w').value;
            && DataPacket(p) && p.addr == 1 && (Transfer(w'.d, p).1.Ack? <==> Welcome(w'.d, p))
            && ((p.dirIn <==> p.ep == 1) ==> (p.pid == ArmedKind(StatFor(w'.d, p)) <==> Lag(w, ops, p.ep) % 2 == 0)))
  {
    hide RunData, Transfer, NextPacket, HostSide, DeviceSide, Welcome, ArmedKind;
    RunStaysInStep(w, ops);
    var w' := RunData(w, ops);
    assert HcdOk(w'.h) by { HostOk(w'.h, HostToggle(w, ops, 1), HostToggle(w, ops, 2)); }
    SideDrained(w'.f, w'.d, DeviceToggle(w, ops, 1), DeviceToggle(w, ops, 2));
    if NextPacket(w').Some? && NextPacket(w').value.ep != 0 {
      NextInStep(w', HostToggle(w, ops, 1), HostToggle(w, ops, 2), DeviceToggle(w, ops, 1), DeviceToggle(w, ops, 2));
      var ep := NextPacket(w').value.ep;
      SameKindIff(Acks(w, ops, ep) + Losses(w, ops, ep), Lag(w, ops, ep));
    }
  }

  lemma {:induction false} SameKindIff(n: nat, lag: nat)
    ensures DataPid(n % 2) == DataPid((n + lag) % 2) <==> lag % 2 == 0
  {
  }

  lemma {:induction false} HostOk(h: Hcd, u1: nat, u2: nat)
    requires HostSide(h, u1, u2)
    ensures HcdOk(h)
  {
  }

  /** Without a further SET_CONFIGURATION the host is ahead by the odd losses. */
  lemma {:induction false} LagIsLosses(w: World, ops: seq<DataOp>, ep: nat)
    requires NeverRequested(w, ops, SET_CONFIGURATION)
    ensures Lag(w, ops, ep) == Losses(w, ops, ep)
  {
    hide RunData, RequestNext, LosesNext;
    if ops != [] {
      LagIsLosses(w, ops[..|ops| - 1], ep);
    }
  }
}
