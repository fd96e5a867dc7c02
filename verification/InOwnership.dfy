/** Ownership of IN buffers over every interleaving of firmware calls and host packets: each arming of an IN entry is
    consumed by at most one acknowledged packet, and that packet carries a prefix of what is in the buffer. */
module InOwnership {
  import opened UsbTypes
  import opened EventRing
  import opened DeviceModel

  datatype DevOp =
    | ArmOp(ep: nat, transferType: bv8, buf: nat, size: nat)
    | InitOp(ep: nat)
    | ResetOp
    | AddressOp(addr: byte)
    | WriteOp(buf: nat, src: seq<byte>)
    | ReadOp
    | HostOp(p: Packet)
    | HostResetOp

  predicate Possible(d: Dev, op: DevOp) {
    DevOk(d) &&
    match op
    case ArmOp(ep, _, buf, _) => ep < |d.bdt| && buf < |d.bufs|
    case InitOp(ep) => ep < |d.bdt|
    case WriteOp(buf, src) => buf < |d.bufs| && |src| <= |d.bufs[buf]|
    case ReadOp => HasEvent(d.ring)
    case HostOp(p) => p.ep < |d.bdt| && (!p.dirIn ==> p.size == |p.data|)
    case _ => true
  }

  function Apply(d: Dev, op: DevOp): Dev
    requires Possible(d, op)
  {
    match op
    case ArmOp(ep, transferType, buf, size) => StartTransfer(d, ep, transferType, buf, size)
    case InitOp(ep) => InitEp(d, ep)
    case ResetOp => UsbReset(d)
    case AddressOp(addr) => SetAddress(d, addr)
    case WriteOp(buf, src) => WriteBuf(d, buf, src)
    case ReadOp => d.(ring := Advanced(d.ring))
    case HostOp(p) => Transfer(d, p).0
    case HostResetOp => BusReset(d)
  }

  /** What an observer of arming calls and acknowledged packets knows about one IN endpoint: the buffer and the size
      armed (only its low byte reaches the count), and the bytes armed, as long as nothing has been written there since. */
  datatype InPhase = Idle | Loaded(buf: nat, size: nat, contents: Option<seq<byte>>) | Broken

  /** The packet is a prefix of the buffer as it is now, of at most the armed size, and of the bytes armed. */
  predicate Fits(ph: InPhase, d: Dev, data: seq<byte>)
    requires ph.Loaded?
  {
    && ph.buf < |d.bufs| && data <= d.bufs[ph.buf] && |data| <= ph.size
    && (ph.contents.Some? ==> data <= ph.contents.value)
  }

  function Observe(ph: InPhase, d: Dev, op: DevOp, ep: nat): InPhase
    requires Possible(d, op)
  {
    if ph.Broken? then Broken
    else if op.ArmOp? && op.ep == ep && op.transferType & 0x80 != 0 then
      Loaded(op.buf, op.size % 256, Some(d.bufs[op.buf][..Min(op.size % 256, |d.bufs[op.buf]|)]))
    else if op.HostOp? && op.p.dirIn && op.p.ep == ep && Transfer(d, op.p).1.Ack? then
      if ph.Loaded? && Fits(ph, d, Transfer(d, op.p).1.data) then Idle else Broken
    else if ph.Loaded? && ph.buf < |d.bufs| && Apply(d, op).bufs[ph.buf] != d.bufs[ph.buf] then ph.(contents := None)
    else ph
  }

  /** An owned entry is one the observer has seen armed, with those bytes. */
  ghost predicate Explained(ph: InPhase, d: Dev, ep: nat)
    requires ep < |d.bdt| && DevOk(d)
  {
    var e := d.bdt[ep].inn;
    && !ph.Broken?
    && (Owned(e) ==>
          && ph.Loaded? && e.addr == Buf(ph.buf) && e.cnt == ph.size
          && (ph.contents.Some? ==> ph.contents.value == d.bufs[ph.buf][..Min(e.cnt, |d.bufs[ph.buf]|)]))
  }

  lemma {:induction false} ApplyKeepsOk(d: Dev, op: DevOp)
    requires Possible(d, op)
    ensures DevOk(Apply(d, op)) && |Apply(d, op).bdt| == |d.bdt| && |Apply(d, op).bufs| == |d.bufs|
  {
    match op
    case HostOp(p) => TransferFits(d, p);
    case ReadOp => GetTakesOldest(d.ring);
    case _ =>
  }

  lemma {:induction false} HostInExplained(ph: InPhase, d: Dev, p: Packet, ep: nat)
    requires Possible(d, HostOp(p)) && ep < |d.bdt| && Explained(ph, d, ep) && p.dirIn
    ensures DevOk(Transfer(d, p).0) && |Transfer(d, p).0.bdt| == |d.bdt|
    ensures Explained(Observe(ph, d, HostOp(p), ep), Transfer(d, p).0, ep)
  {
    hide Post, DevOk, ToggleRejected;
    TransferFits(d, p);
    assert EntryOk(d, d.bdt[p.ep].inn) by { EntriesOk(d, p.ep); }
    var s := d.bdt[p.ep].inn.stat;
    assert ((s & 0x40) | (CodeOf(p.pid) << 2)) & UOWN == 0 by { StatusReleased(s, p.pid); }
  }

  lemma {:induction false} EntriesOk(d: Dev, ep: nat)
    requires DevOk(d) && ep < |d.bdt|
    ensures EntryOk(d, d.bdt[ep].inn) && EntryOk(d, d.bdt[ep].out)
  {
  }

  /** An acknowledged IN packet leaves its entry with the processor, an OUT packet leaves it with the interface engine. */
  lemma {:induction false} StatusReleased(s: bv8, pid: PacketPid)
    ensures ((s & 0x40) | (CodeOf(pid) << 2)) & UOWN == 0
    ensures ((s & 0xC3) | (CodeOf(pid) << 2)) & UOWN == s & UOWN
  {
  }

  lemma {:induction false} HostOutExplained(ph: InPhase, d: Dev, p: Packet, ep: nat)
    requires Possible(d, HostOp(p)) && ep < |d.bdt| && Explained(ph, d, ep) && !p.dirIn
    ensures DevOk(Transfer(d, p).0) && |Transfer(d, p).0.bdt| == |d.bdt|
    ensures Explained(Observe(ph, d, HostOp(p), ep), Transfer(d, p).0, ep)
  {
    hide Post, DevOk, ToggleRejected;
    TransferFits(d, p);
    EntriesOk(d, p.ep);
    EntriesOk(d, ep);
  }

  lemma {:induction false} StepExplained(ph: InPhase, d: Dev, op: DevOp, ep: nat)
    requires Possible(d, op) && ep < |d.bdt| && Explained(ph, d, ep)
    ensures DevOk(Apply(d, op)) && |Apply(d, op).bdt| == |d.bdt|
    ensures Explained(Observe(ph, d, op, ep), Apply(d, op), ep)
  {
    ApplyKeepsOk(d, op);
    if op.HostOp? {
      if op.p.dirIn {
        HostInExplained(ph, d, op.p, ep);
      } else {
        HostOutExplained(ph, d, op.p, ep);
      }
    } else {
      LocalExplained(ph, d, op, ep);
    }
  }

  lemma {:induction false} LocalExplained(ph: InPhase, d: Dev, op: DevOp, ep: nat)
    requires Possible(d, op) && ep < |d.bdt| && Explained(ph, d, ep) && !op.HostOp?
    requires DevOk(Apply(d, op)) && |Apply(d, op).bdt| == |d.bdt| && |Apply(d, op).bufs| == |d.bufs|
    ensures Explained(Observe(ph, d, op, ep), Apply(d, op), ep)
  {
    hide DevOk, Transfer;
    EntriesOk(d, ep);
    EntriesOk(Apply(d, op), ep);
  }

  // ---------- runs ----------

  function Device(d0: Dev, ops: seq<DevOp>): Dev {
    if ops == [] then d0
    else
      var d := Device(d0, ops[..|ops| - 1]);
      if Possible(d, ops[|ops| - 1]) then Apply(d, ops[|ops| - 1]) else d
  }

  function Observed(d0: Dev, ops: seq<DevOp>, ep: nat): InPhase {
    if ops == [] then Idle
    else
      var d, ph := Device(d0, ops[..|ops| - 1]), Observed(d0, ops[..|ops| - 1], ep);
      if Possible(d, ops[|ops| - 1]) then Observe(ph, d, ops[|ops| - 1], ep) else ph
  }

  /** From a device with no IN entry armed, whatever the firmware and the host do in whatever order: no packet is
      acknowledged without an arming since the last one, and each carries a prefix of the buffer, of at most the size
      armed, and of the bytes armed unless the buffer has been written since. */
  lemma {:induction false} InNeverBroken(d0: Dev, ops: seq<DevOp>, ep: nat)
    requires DevOk(d0) && ep < |d0.bdt| && !Owned(d0.bdt[ep].inn)
    ensures var d := Device(d0, ops); DevOk(d) && |d.bdt| == |d0.bdt| && Explained(Observed(d0, ops, ep), d, ep)
    ensures !Observed(d0, ops, ep).Broken?
  {
    hide Explained, Observe, Apply;
    if ops == [] {
      assert Explained(Idle, d0, ep) by { StartExplained(d0, ep); }
      NotBroken(Idle, d0, ep);
    } else {
      var ops0, op := ops[..|ops| - 1], ops[|ops| - 1];
      InNeverBroken(d0, ops0, ep);
      if Possible(Device(d0, ops0), op) {
        StepExplained(Observed(d0, ops0, ep), Device(d0, ops0), op, ep);
      }
      NotBroken(Observed(d0, ops, ep), Device(d0, ops), ep);
    }
  }

  lemma {:induction false} StartExplained(d: Dev, ep: nat)
    requires DevOk(d) && ep < |d.bdt| && !Owned(d.bdt[ep].inn)
    ensures Explained(Idle, d, ep)
  {
  }

  lemma {:induction false} NotBroken(ph: InPhase, d: Dev, ep: nat)
    requires DevOk(d) && ep < |d.bdt| && Explained(ph, d, ep)
    ensures !ph.Broken?
  {
  }
}
