/** The data toggle test of __usb_transfer: when it gives the verdict it is there for, and why it never rejects a packet,
    whatever the firmware and the host do. */
module ToggleTest {
  import opened UsbTypes
  import opened EventRing
  import opened DeviceModel
  import opened FirmwareModel
  import opened ControlDevice

  predicate ArmedForData1(e: Entry) {
    e.stat & 0x40 != 0
  }

  /** The verdict of section 8.6 of USB 2.0: an entry with the test enabled takes only the kind it is armed for. A SETUP
      packet counts as DATA0. */
  predicate ShouldReject(e: Entry, pid: PacketPid) {
    e.stat & 0x08 != 0 && (ArmedForData1(e) <==> !pid.PidData1?)
  }

  /** The test gives that verdict if and only if it is not enabled, or, for DATA1, the entry is armed for DATA1, or, for the
      other kinds, bit 0 of the status byte says the same as the armed kind. */
  lemma {:induction false} VerdictIff(e: Entry, pid: PacketPid)
    ensures (ToggleRejected(e, pid) <==> ShouldReject(e, pid)) <==>
            e.stat & 0x08 == 0 || (if pid.PidData1? then ArmedForData1(e) else (e.stat & 1 != 0 <==> ArmedForData1(e)))
  {
    ZeroMask(e.stat);
  }

  lemma {:induction false} ZeroMask(s: bv8)
    ensures s & 0 == 0
  {
  }

  /** With bit 0 clear that leaves only the packets there is no reason to reject. */
  lemma {:induction false} VerdictIffClear(e: Entry, pid: PacketPid)
    requires e.stat & 1 == 0
    ensures !ToggleRejected(e, pid)
    ensures (ToggleRejected(e, pid) <==> ShouldReject(e, pid)) <==> !ShouldReject(e, pid)
  {
    ToggleTestInert(e, pid);
  }

  // ---------- every run of the firmware ----------

  datatype Op = PacketOp(p: Packet) | ResetOp | RoundOp(key: byte)

  predicate OpOk(op: Op) {
    op.PacketOp? ==> op.p.ep < 3 && (!op.p.dirIn ==> op.p.size == |op.p.data|)
  }

  /** A packet, a bus reset, or a round of the firmware's main loop, in any order. */
  function Step(f: Fw, d: Dev, op: Op): (Fw, Dev)
    requires BoardOk(d) && OpOk(op)
  {
    match op
    case PacketOp(p) => (f, Transfer(d, p).0)
    case ResetOp => (f, BusReset(d))
    case RoundOp(key) => Round(f, d, key)
  }

  /** Bit 0 of every OUT status byte. */
  predicate BitClear(d: Dev) {
    forall i :: 0 <= i < |d.bdt| ==> d.bdt[i].out.stat & 1 == 0
  }

  lemma {:induction false} StatusKeepsBit(s: bv8, pid: PacketPid)
    requires s & 1 == 0
    ensures ((s & 0xC3) | (CodeOf(pid) << 2)) & 1 == 0
  {
  }

  lemma {:induction false} PacketKeepsBit(d: Dev, p: Packet)
    requires BoardOk(d) && p.ep < 3 && (!p.dirIn ==> p.size == |p.data|) && BitClear(d)
    ensures BoardOk(Transfer(d, p).0) && BitClear(Transfer(d, p).0)
  {
    hide Post, DevOk;
    TransferBoard(d, p);
    StatusKeepsBit(d.bdt[p.ep].out.stat, p.pid);
  }

  lemma {:induction false} ArmingKeepsBit(d: Dev, ep: nat, transferType: bv8, buf: nat, size: nat)
    requires BoardOk(d) && ep < 3 && buf < 4 && size < 256 && BitClear(d)
    requires transferType & 0x80 == 0 ==> transferType & 1 == 0
    ensures var d' := StartTransfer(d, ep, transferType, buf, size); BoardOk(d') && BitClear(d')
  {
    hide DevOk;
    StartKeepsOk(d, ep, transferType, buf, size);
    OwnKeepsBit(transferType);
  }

  lemma {:induction false} OwnKeepsBit(tt: bv8)
    ensures (tt | 0 | UOWN) & 1 == tt & 1
  {
  }

  lemma {:induction false} InitKeepsBit(d: Dev, ep: nat)
    requires BoardOk(d) && ep < 3 && BitClear(d)
    ensures BoardOk(InitEp(d, ep)) && BitClear(InitEp(d, ep))
  {
  }

  lemma {:induction false} ConfigureKeepsBit(f: Fw, d: Dev, value: byte)
    requires BoardOk(d) && BitClear(d)
    ensures BitClear(Configure(f, d, value).1)
  {
    hide StartTransfer, DevOk, BitClear;
    InitKeepsBit(d, 1);
    InitKeepsBit(InitEp(d, 1), 2);
    var d1 := InitEp(InitEp(d, 1), 2);
    ArmingKeepsBit(d1, 2, TRN_DATA0_OUT, EP2_OUT, 0);
    var d2 := StartTransfer(d1, 2, TRN_DATA0_OUT, EP2_OUT, 0);
    ArmingKeepsBit(d2, 1, TRN_DATA0_IN, EP1_IN, 0);
    ArmingKeepsBit(StartTransfer(d2, 1, TRN_DATA0_IN, EP1_IN, 0), 0, TRN_DATA1_IN, EP0_IN, 0);
  }

  lemma {:induction false} SameTable(d: Dev, d': Dev)
    requires BitClear(d) && d'.bdt == d.bdt
    ensures BitClear(d')
  {
  }

  lemma {:induction false} SetupKeepsBit(f: Fw, d: Dev)
    requires BoardOk(d) && BitClear(d)
    ensures BitClear(ProcessSetup(f, d).1)
  {
    hide StartTransfer, Configure, Descriptor, DevOk, BitClear;
    var req := d.bufs[EP0_OUT];
    if req[1] == GET_DESCRIPTOR && HasDescriptor(req[3]) {
      var dsc := Descriptor(req[3]);
      var d1 := WriteBuf(d, EP0_IN, dsc);
      WriteBufKeepsOk(d, EP0_IN, dsc);
      SameTable(d, d1);
      ArmingKeepsBit(d1, 0, TRN_DATA1_IN, EP0_IN, Min(|dsc|, Word(req[6], req[7])));
    }
    ArmingKeepsBit(d, 0, TRN_DATA1_IN, EP0_IN, 0);
    ConfigureKeepsBit(f, d, req[2]);
  }

  lemma {:induction false} StageKeepsBit(f: Fw, d: Dev)
    requires BoardOk(d) && BitClear(d)
    ensures BitClear(ProcessStage(f, d).1)
  {
    hide StartTransfer, DevOk, BitClear;
    ArmingKeepsBit(d, 0, TRN_DATA1_OUT, EP0_OUT, BUF_SIZE);
    ArmingKeepsBit(d, 0, TRN_SETUP, EP0_OUT, BUF_SIZE);
    var d1 := SetAddress(d, f.addr);
    SameTable(d, d1);
    assert BoardOk(d1) by { AddressBoard(d, f.addr); }
    ArmingKeepsBit(d1, 0, TRN_SETUP, EP0_OUT, BUF_SIZE);
  }

  lemma {:induction false} AddressBoard(d: Dev, addr: byte)
    requires BoardOk(d)
    ensures BoardOk(SetAddress(d, addr))
  {
  }

  lemma {:induction false} DataKeepsBit(f: Fw, d: Dev, ep: int, key: byte)
    requires BoardOk(d) && BitClear(d)
    ensures BitClear(ProcessEp(f, d, ep, key).1)
  {
    hide StartTransfer, DevOk, BitClear;
    var d1 := WriteBuf(d, EP1_IN, [key]);
    WriteBufKeepsOk(d, EP1_IN, [key]);
    SameTable(d, d1);
    ArmingKeepsBit(d1, 1, TRN_DATA1_IN, EP1_IN, 1);
    ArmingKeepsBit(d1, 1, TRN_DATA0_IN, EP1_IN, 1);
    ArmingKeepsBit(d, 2, TRN_DATA1_OUT, EP2_OUT, BUF_SIZE);
    ArmingKeepsBit(d, 2, TRN_DATA0_OUT, EP2_OUT, BUF_SIZE);
  }

  lemma {:induction false} RoundKeepsBit(f: Fw, d: Dev, key: byte)
    requires BoardOk(d) && BitClear(d)
    ensures BoardOk(Round(f, d, key).1) && BitClear(Round(f, d, key).1)
  {
    hide ProcessSetup, ProcessStage, ProcessEp, PollReset, Unread, DevOk, BitClear;
    RoundOk(f, d, key);
    PollResetOk(d);
    PollKeepsBit(d);
    var d1 := PollReset(d);
    RingIsOk(d1);
    if HasEvent(d1.ring) {
      EventTaken(d1);
      var d2 := d1.(ring := Advanced(d1.ring));
      SameTable(d1, d2);
      SetupKeepsBit(f, d2);
      StageKeepsBit(f, d2);
      DataKeepsBit(f, d2, d1.ring.slots[d1.ring.front], key);
    }
  }

  lemma {:induction false} EventTaken(d: Dev)
    requires BoardOk(d) && HasEvent(d.ring)
    ensures RingOk(d.ring) && d.ring.front < |d.ring.slots| && BoardOk(d.(ring := Advanced(d.ring)))
  {
    GetTakesOldest(d.ring);
  }

  lemma {:induction false} PollKeepsBit(d: Dev)
    requires BoardOk(d) && BitClear(d)
    ensures BitClear(PollReset(d))
  {
    hide StartTransfer, DevOk;
    if d.reset {
      var d1 := InitEp(UsbReset(d.(reset := false)), 0);
      assert BoardOk(d1) && BitClear(d1) by { ResetBoardClear(d); }
      ArmingKeepsBit(d1, 0, TRN_SETUP, EP0_OUT, BUF_SIZE);
    }
  }

  lemma {:induction false} ResetBoardClear(d: Dev)
    requires BoardOk(d)
    ensures var d1 := InitEp(UsbReset(d.(reset := false)), 0); BoardOk(d1) && BitClear(d1)
  {
  }

  function Run(f: Fw, d: Dev, ops: seq<Op>): (Fw, Dev)
    requires BoardOk(d)
  {
    if ops == [] then (f, d)
    else
      var (f1, d1) := Run(f, d, ops[..|ops| - 1]);
      var op := ops[|ops| - 1];
      if BoardOk(d1) && OpOk(op) then Step(f1, d1, op) else (f1, d1)
  }

  /** Bit 0 of every OUT status byte stays clear, in every run of firmware and host. */
  lemma {:induction false} BitStaysClear(f: Fw, d: Dev, ops: seq<Op>)
    requires BoardOk(d) && BitClear(d)
    ensures BoardOk(Run(f, d, ops).1) && BitClear(Run(f, d, ops).1)
  {
    hide Round, Transfer, BoardOk, BitClear;
    if ops != [] {
      BitStaysClear(f, d, ops[..|ops| - 1]);
      var (f1, d1) := Run(f, d, ops[..|ops| - 1]);
      match ops[|ops| - 1]
      case PacketOp(p) =>
        if OpOk(ops[|ops| - 1]) {
          PacketKeepsBit(d1, p);
        }
      case ResetOp =>
        BusResetBoard(d1);
        SameTable(d1, BusReset(d1));
      case RoundOp(key) => RoundKeepsBit(f1, d1, key);
    }
  }

  /** So at any moment of any run a data packet gets the same reply, moves the same bytes and posts the same event
      whichever of the two data kinds it is sent as. */
  lemma {:induction false} KindIgnored(f: Fw, d: Dev, ops: seq<Op>, p: Packet)
    requires BoardOk(d) && BitClear(d) && p.ep < 3 && (!p.dirIn ==> p.size == |p.data|)
    ensures
      var d1 := Run(f, d, ops).1;
      BoardOk(d1) &&
      var (a, ra) := Transfer(d1, p.(pid := PidData0));
      var (b, rb) := Transfer(d1, p.(pid := PidData1));
      ra == rb && a.bufs == b.bufs && a.ring == b.ring && a.pktdis == b.pktdis
  {
    hide Run, Post;
    BitStaysClear(f, d, ops);
    var e := Run(f, d, ops).1.bdt[p.ep].out;
    VerdictIffClear(e, PidData0);
    VerdictIffClear(e, PidData1);
  }

  /** A packet of the wrong kind that is taken: endpoint 2 is armed for DATA1, the packet is DATA0. */
  lemma {:induction false} WrongKindTaken(d: Dev)
    requires BoardOk(d) && d.usben && d.u1addr == 1
    ensures
      var d1 := StartTransfer(d, 2, TRN_DATA1_OUT, EP2_OUT, BUF_SIZE);
      && BoardOk(d1) && ShouldReject(d1.bdt[2].out, PidData0)
      && Transfer(d1, Packet(1, 2, false, PidData0, [65], 1)).1 == Ack(1, [65])
  {
    hide Post, DevOk;
    StartKeepsOk(d, 2, TRN_DATA1_OUT, EP2_OUT, BUF_SIZE);
    var d1 := StartTransfer(d, 2, TRN_DATA1_OUT, EP2_OUT, BUF_SIZE);
    ArmedByte();
    assert [65][..1] == [65 as byte];
    assert DevOk(d1);
  }

  lemma {:induction false} ArmedByte()
    ensures
      var s := TRN_DATA1_OUT | 0 | UOWN;
      s & 0x80 != 0 && s & 0x08 != 0 && s & 0x40 != 0 && s & 1 == 0
  {
  }
}
