/** PKTDIS: a SETUP disables all packets until the firmware arms a transfer. Exactly the requests the firmware knows
    are followed by an arming; any other request leaves the device unreachable for good. */
module Wedge {
  import opened UsbTypes
  import opened EventRing
  import opened DeviceModel
  import opened FirmwareModel
  import opened ControlDevice

  /** The requests process_control_transfer answers. */
  predicate Known(s: seq<byte>)
    requires |s| == 8
  {
    (s[1] == GET_DESCRIPTOR && HasDescriptor(s[3])) || s[1] == SET_ADDRESS || s[1] == SET_CONFIGURATION
  }

  lemma {:induction false} SetupEnables(f: Fw, d1: Dev)
    requires BoardOk(d1)
    ensures ProcessSetup(f, d1).1.pktdis == (d1.pktdis && !Known(d1.bufs[EP0_OUT][..8]))
  {
    hide DevOk;
  }

  /** After a SETUP packet was acknowledged and served, packets are enabled again if and only if the request is known. */
  lemma {:induction false} EnabledIffKnown(f: Fw, d: Dev, s: seq<byte>, key: byte)
    requires Drained(d) && Armed0(d) && d.u1addr >= 0 && |s| == 8
    ensures
      var d' := Serve(f, d, SetupPacket(d.u1addr, s), key).1;
      Drained(d') && (!d'.pktdis <==> Known(s))
  {
    hide Serve, ProcessSetup, DevOk;
    var d1 := SetupServed(f, d, s, d.u1addr, key);
    SetupEnables(f, d1);
    assert d1.bufs[EP0_OUT][..8] == s;
    ServeDrains(f, d, SetupPacket(d.u1addr, s), key);
  }

  // ---------- what the host can still do ----------

  datatype HostAct = Send(p: Packet) | ResetBus

  predicate ActOk(a: HostAct) {
    a.Send? ==> a.p.ep < 3 && (!a.p.dirIn ==> a.p.size == |a.p.data|)
  }

  /** A host act and the work it causes on the device; a bus reset has no reply. */
  function Act(f: Fw, d: Dev, a: HostAct, key: byte): (Fw, Dev, Option<Reply>)
    requires BoardOk(d) && ActOk(a)
  {
    match a
    case Send(p) =>
      var (f', d') := Serve(f, d, p, key);
      (f', d', Some(Transfer(d, p).1))
    case ResetBus =>
      BusResetBoard(d);
      var (f', d') := Drain(f, BusReset(d), key);
      (f', d', None)
  }

  predicate ActsOk(acts: seq<HostAct>) {
    forall i :: 0 <= i < |acts| ==> ActOk(acts[i])
  }

  lemma {:induction false} WedgedStep(f: Fw, d: Dev, a: HostAct, key: byte)
    requires Drained(d) && d.pktdis && ActOk(a)
    ensures Act(f, d, a, key) == (f, d, if a.Send? then Some(Err) else None)
  {
    DrainNone(f, d, key);
  }

  /** The replies to a sequence of host acts. */
  function Replies(f: Fw, d: Dev, acts: seq<HostAct>, key: byte): seq<Option<Reply>>
    requires BoardOk(d) && ActsOk(acts)
    decreases |acts|
  {
    if acts == [] then []
    else
      var (f', d', r) := Act(f, d, acts[0], key);
      ActBoard(f, d, acts[0], key);
      [r] + Replies(f', d', acts[1..], key)
  }

  lemma {:induction false} ActBoard(f: Fw, d: Dev, a: HostAct, key: byte)
    requires BoardOk(d) && ActOk(a)
    ensures BoardOk(Act(f, d, a, key).1)
  {
    match a
    case Send(p) => ServeDrains(f, d, p, key);
    case ResetBus =>
      BusResetBoard(d);
      DrainOk(f, BusReset(d), key);
  }

  /** With packets disabled and nothing left to do, every packet gets ERR for ever: bus resets pass the same guard,
      so they cannot help. */
  lemma {:induction false} WedgedForever(f: Fw, d: Dev, acts: seq<HostAct>, key: byte, i: nat)
    requires Drained(d) && d.pktdis && ActsOk(acts) && i < |acts|
    ensures |Replies(f, d, acts, key)| == |acts|
    ensures Replies(f, d, acts, key)[i] == if acts[i].Send? then Some(Err) else None
    decreases |acts|
  {
    hide Drained, Act;
    assert BoardOk(d) by { DrainedBoard(d); }
    WedgedStep(f, d, acts[0], key);
    if |acts| == 1 {
      assert acts[1..] == [];
    } else {
      WedgedForever(f, d, acts[1..], key, if i > 0 then i - 1 else 0);
    }
  }

  lemma {:induction false} DrainedBoard(d: Dev)
    requires Drained(d)
    ensures BoardOk(d)
  {
  }

  /** system_loop ends its sequence with SET_INTERFACE, which the firmware does not know: from then on the device
      answers nothing. */
  lemma {:induction false} SetInterfaceWedges(f: Fw, d: Dev, key: byte, acts: seq<HostAct>, i: nat)
    requires Drained(d) && Armed0(d) && d.u1addr >= 0 && ActsOk(acts) && i < |acts|
    ensures
      var (f', d') := Serve(f, d, SetupPacket(d.u1addr, [0x01, 0x0B, 0, 0, 0, 0, 0, 0]), key);
      && BoardOk(d') && |Replies(f', d', acts, key)| == |acts|
      && (acts[i].Send? ==> Replies(f', d', acts, key)[i] == Some(Err))
  {
    hide Serve, Drained, Replies;
    DrainedBoard(d);
    var s: seq<byte> := [0x01, 0x0B, 0, 0, 0, 0, 0, 0];
    assert |s| == 8 && s[1] == 0x0B;
    EnabledIffKnown(f, d, s, key);
    var (f', d') := Serve(f, d, SetupPacket(d.u1addr, s), key);
    DrainedBoard(d');
    WedgedForever(f', d', acts, key, i);
  }
}
