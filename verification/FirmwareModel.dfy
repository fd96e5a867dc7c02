/** The device firmware (pic_usb_device.X/main.c) as functions on values: the control transfer state machine,
    the two data endpoints and the event loop. */
module FirmwareModel {
  import opened UsbTypes
  import opened EventRing
  import opened DeviceModel

  /** CTS_SETUP .. CTS_DBGDSC. */
  datatype Cts = CtsSetup | CtsDevDsc | CtsAckIn | CtsAckAd | CtsCfgDsc | CtsAckSc | CtsDbgDsc

  datatype Fw = Fw(state: Cts, addr: byte, configuration: byte, inData: nat, outData: nat)

  // the declared buffers, all of 64 bytes
  const EP0_OUT: nat := 0
  const EP0_IN: nat := 1
  const EP1_IN: nat := 2
  const EP2_OUT: nat := 3
  const BUF_SIZE: nat := 64

  const ENDPOINT_IN: int := 0x81
  const ENDPOINT_OUT: int := 0x02

  const GET_DESCRIPTOR: byte := 6
  const SET_ADDRESS: byte := 5
  const SET_CONFIGURATION: byte := 9

  /** devdsc, packed little-endian. */
  const DEVICE_DESCRIPTOR: seq<byte> := [18, 1, 0x10, 0x01, 0, 0, 0, 64, 0x11, 0x11, 0x22, 0x22, 0x00, 0x01, 0, 0, 0, 1]

  /** CONFIG: configuration, interface and two endpoint descriptors. */
  const CONFIG_DESCRIPTOR: seq<byte> := [
    9, 2, 32, 0, 1, 1, 0, 0x80, 50,
    9, 4, 0, 0, 2, 0xFF, 0, 0, 0,
    7, 5, 0x81, 3, 10, 0, 1,
    7, 5, 0x02, 3, 10, 0, 1]

  /** DEBUG, an unsigned int of four bytes. */
  const DEBUG_DESCRIPTOR: seq<byte> := [0x04, 0x0A, 0, 0]

  predicate HasDescriptor(t: byte) {
    t == 1 || t == 2 || t == 0xA
  }

  function Descriptor(t: byte): (s: seq<byte>)
    ensures 0 < |s| <= BUF_SIZE
  {
    if t == 1 then DEVICE_DESCRIPTOR else if t == 2 then CONFIG_DESCRIPTOR else DEBUG_DESCRIPTOR
  }

  function StateFor(t: byte): Cts {
    if t == 1 then CtsDevDsc else if t == 2 then CtsCfgDsc else CtsDbgDsc
  }

  /** The device as the firmware declares it: three endpoints, four buffers of 64 bytes. */
  predicate BoardOk(d: Dev) {
    && DevOk(d) && |d.bdt| == 3 && |d.bufs| == 4
    && |d.bufs[0]| == BUF_SIZE && |d.bufs[1]| == BUF_SIZE && |d.bufs[2]| == BUF_SIZE && |d.bufs[3]| == BUF_SIZE
  }

  function Word(lo: byte, hi: byte): nat {
    lo + 256 * hi
  }

  /** The GET_DESCRIPTOR arm of process_control_transfer for descriptor type t. */
  function SendDescriptor(f: Fw, d: Dev, t: byte, wLength: nat): (Fw, Dev)
    requires BoardOk(d) && HasDescriptor(t)
  {
    var dsc := Descriptor(t);
    var d1 := WriteBuf(d, EP0_IN, dsc);
    (f.(state := StateFor(t)), StartTransfer(d1, 0, TRN_DATA1_IN, EP0_IN, Min(|dsc|, wLength)))
  }

  /** The SET_CONFIGURATION arm. */
  function Configure(f: Fw, d: Dev, value: byte): (Fw, Dev)
    requires BoardOk(d)
  {
    var d1 := InitEp(InitEp(d, 1), 2);
    var d2 := StartTransfer(d1, 2, TRN_DATA0_OUT, EP2_OUT, 0);
    var d3 := StartTransfer(d2, 1, TRN_DATA0_IN, EP1_IN, 0);
    var d4 := StartTransfer(d3, 0, TRN_DATA1_IN, EP0_IN, 0);
    (f.(configuration := value, inData := 1, outData := 1, state := CtsAckSc), d4)
  }

  /** process_control_transfer on a SETUP event: the request is read from the EP0 OUT buffer. */
  function ProcessSetup(f: Fw, d: Dev): (Fw, Dev)
    requires BoardOk(d)
  {
    var req := d.bufs[EP0_OUT];
    if req[1] == GET_DESCRIPTOR then
      if HasDescriptor(req[3]) then SendDescriptor(f, d, req[3], Word(req[6], req[7])) else (f, d)
    else if req[1] == SET_ADDRESS then
      (f.(addr := req[2], state := CtsAckAd), StartTransfer(d, 0, TRN_DATA1_IN, EP0_IN, 0))
    else if req[1] == SET_CONFIGURATION then Configure(f, d, req[2])
    else (f, d)
  }

  /** process_control_transfer on any other event of endpoint 0. */
  function ProcessStage(f: Fw, d: Dev): (Fw, Dev)
    requires BoardOk(d)
  {
    match f.state
    case CtsDevDsc | CtsCfgDsc | CtsDbgDsc =>
      (f.(state := CtsAckIn), StartTransfer(d, 0, TRN_DATA1_OUT, EP0_OUT, BUF_SIZE))
    case CtsAckIn => (f.(state := CtsSetup), StartTransfer(d, 0, TRN_SETUP, EP0_OUT, BUF_SIZE))
    case CtsAckAd => (f, StartTransfer(SetAddress(d, f.addr), 0, TRN_SETUP, EP0_OUT, BUF_SIZE))
    case CtsSetup => (f, d)
    case CtsAckSc => (f, d)
  }

  function ProcessControl(f: Fw, d: Dev, ep: int): (Fw, Dev)
    requires BoardOk(d)
  {
    if IsSetup(d, ep) then ProcessSetup(f, d) else ProcessStage(f, d)
  }

  function Flip(n: nat): nat {
    if n == 0 then 1 else 0
  }

  /** process_ep_transfer; `key` is the key pressed when endpoint 1 IN is served. */
  function ProcessEp(f: Fw, d: Dev, ep: int, key: byte): (Fw, Dev)
    requires BoardOk(d)
  {
    if ep == ENDPOINT_IN then
      var d1 := WriteBuf(d, EP1_IN, [key]);
      (f.(inData := Flip(f.inData)),
       StartTransfer(d1, 1, if f.inData == 1 then TRN_DATA1_IN else TRN_DATA0_IN, EP1_IN, 1))
    else if ep == ENDPOINT_OUT then
      (f.(outData := Flip(f.outData)),
       StartTransfer(d, 2, if f.outData == 1 then TRN_DATA1_OUT else TRN_DATA0_OUT, EP2_OUT, BUF_SIZE))
    else (f, d)
  }

  /** One event of the main loop. */
  function Dispatch(f: Fw, d: Dev, ep: int, key: byte): (Fw, Dev)
    requires BoardOk(d)
  {
    if ep == 0 || ep == 0x80 then ProcessControl(f, d, ep) else ProcessEp(f, d, ep, key)
  }

  /** The reset branch of the main loop. */
  function PollReset(d: Dev): Dev
    requires BoardOk(d)
  {
    if d.reset then StartTransfer(InitEp(UsbReset(d.(reset := false)), 0), 0, TRN_SETUP, EP0_OUT, BUF_SIZE) else d
  }

  /** One round of the main loop: the reset flag, then at most one event. */
  function Round(f: Fw, d: Dev, key: byte): (Fw, Dev)
    requires BoardOk(d)
  {
    var d1 := PollReset(d);
    PollResetOk(d);
    if HasEvent(d1.ring) then
      var ep := d1.ring.slots[d1.ring.front];
      GetTakesOldest(d1.ring);
      Dispatch(f, d1.(ring := Advanced(d1.ring)), ep, key)
    else (f, d1)
  }

  lemma {:induction false} PollResetOk(d: Dev)
    requires BoardOk(d)
    ensures BoardOk(PollReset(d)) && PollReset(d).ring == d.ring && !PollReset(d).reset
  {
  }

  lemma {:induction false} StartKeepsOk(d: Dev, ep: nat, transferType: bv8, buf: nat, size: nat)
    requires BoardOk(d) && ep < 3 && buf < 4
    ensures var d' := StartTransfer(d, ep, transferType, buf, size);
      BoardOk(d') && d'.ring == d.ring && d'.reset == d.reset && !d'.pktdis && d'.usben == d.usben && d'.bufs == d.bufs
      && d'.u1addr == d.u1addr
  {
  }

  /** Nothing the firmware does for an event changes the event queue, the reset flag or the enable flag. */
  predicate Kept(d: Dev, d': Dev) {
    BoardOk(d') && d'.ring == d.ring && d'.reset == d.reset && d'.usben == d.usben
  }

  lemma {:induction false} StartKept(d0: Dev, d: Dev, ep: nat, transferType: bv8, buf: nat, size: nat)
    requires BoardOk(d) && Kept(d0, d) && ep < 3 && buf < 4
    ensures Kept(d0, StartTransfer(d, ep, transferType, buf, size))
  {
    hide DevOk, StartTransfer;
    StartKeepsOk(d, ep, transferType, buf, size);
  }

  lemma {:induction false} WriteKept(d: Dev, buf: nat, src: seq<byte>)
    requires BoardOk(d) && buf < 4 && |src| <= BUF_SIZE
    ensures Kept(d, WriteBuf(d, buf, src))
  {
  }

  lemma {:induction false} ConfigureOk(f: Fw, d: Dev, value: byte)
    requires BoardOk(d)
    ensures Kept(d, Configure(f, d, value).1)
  {
    hide StartTransfer, Kept;
    var d1 := InitEp(InitEp(d, 1), 2);
    assert Kept(d, d1) by { InitKept(d); }
    StartKept(d, d1, 2, TRN_DATA0_OUT, EP2_OUT, 0);
    var d2 := StartTransfer(d1, 2, TRN_DATA0_OUT, EP2_OUT, 0);
    KeptBoard(d, d2);
    StartKept(d, d2, 1, TRN_DATA0_IN, EP1_IN, 0);
    var d3 := StartTransfer(d2, 1, TRN_DATA0_IN, EP1_IN, 0);
    KeptBoard(d, d3);
    StartKept(d, d3, 0, TRN_DATA1_IN, EP0_IN, 0);
  }

  lemma {:induction false} InitKept(d: Dev)
    requires BoardOk(d)
    ensures Kept(d, InitEp(InitEp(d, 1), 2))
  {
  }

  lemma {:induction false} KeptBoard(d: Dev, d': Dev)
    requires Kept(d, d')
    ensures BoardOk(d')
  {
  }

  lemma {:induction false} SendDescriptorOk(f: Fw, d: Dev, t: byte, wLength: nat)
    requires BoardOk(d) && HasDescriptor(t)
    ensures Kept(d, SendDescriptor(f, d, t, wLength).1)
  {
    hide StartTransfer, Kept, Descriptor, WriteBuf;
    var dsc := Descriptor(t);
    WriteKept(d, EP0_IN, dsc);
    var d1 := WriteBuf(d, EP0_IN, dsc);
    KeptBoard(d, d1);
    StartKept(d, d1, 0, TRN_DATA1_IN, EP0_IN, Min(|dsc|, wLength));
  }

  lemma {:induction false} SetupOk(f: Fw, d: Dev)
    requires BoardOk(d)
    ensures Kept(d, ProcessSetup(f, d).1)
  {
    hide StartTransfer, Configure, SendDescriptor, HasDescriptor, DevOk;
    var req := d.bufs[EP0_OUT];
    if req[1] == GET_DESCRIPTOR && HasDescriptor(req[3]) {
      SendDescriptorOk(f, d, req[3], Word(req[6], req[7]));
    }
    ConfigureOk(f, d, req[2]);
    StartKept(d, d, 0, TRN_DATA1_IN, EP0_IN, 0);
  }

  lemma {:induction false} StageOk(f: Fw, d: Dev)
    requires BoardOk(d)
    ensures Kept(d, ProcessStage(f, d).1)
  {
    hide StartTransfer;
    StartKept(d, d, 0, TRN_DATA1_OUT, EP0_OUT, BUF_SIZE);
    StartKept(d, d, 0, TRN_SETUP, EP0_OUT, BUF_SIZE);
    StartKept(d, SetAddress(d, f.addr), 0, TRN_SETUP, EP0_OUT, BUF_SIZE);
  }

  lemma {:induction false} EpOk(f: Fw, d: Dev, ep: int, key: byte)
    requires BoardOk(d)
    ensures Kept(d, ProcessEp(f, d, ep, key).1)
  {
    hide StartTransfer, WriteBuf, DevOk;
    if ep == ENDPOINT_IN {
      WriteKept(d, EP1_IN, [key]);
      StartKept(d, WriteBuf(d, EP1_IN, [key]), 1, if f.inData == 1 then TRN_DATA1_IN else TRN_DATA0_IN, EP1_IN, 1);
    } else if ep == ENDPOINT_OUT {
      StartKept(d, d, 2, if f.outData == 1 then TRN_DATA1_OUT else TRN_DATA0_OUT, EP2_OUT, BUF_SIZE);
    }
  }

  lemma {:induction false} DispatchOk(f: Fw, d: Dev, ep: int, key: byte)
    requires BoardOk(d)
    ensures var d' := Dispatch(f, d, ep, key).1;
      BoardOk(d') && d'.ring == d.ring && d'.reset == d.reset && d'.usben == d.usben
  {
    hide ProcessSetup, ProcessStage, ProcessEp, DevOk;
    SetupOk(f, d);
    StageOk(f, d);
    EpOk(f, d, ep, key);
  }

  lemma {:induction false} RoundOk(f: Fw, d: Dev, key: byte)
    requires BoardOk(d)
    ensures var d' := Round(f, d, key).1;
      && BoardOk(d') && !d'.reset && d'.usben == d.usben
      && |Unread(d'.ring)| == if Unread(d.ring) == [] then 0 else |Unread(d.ring)| - 1
  {
    hide Dispatch, PollReset, Unread;
    PollResetOk(d);
    var d1 := PollReset(d);
    GetTakesOldest(d1.ring);
    assert d1.usben == d.usben by { assert PollReset(d).usben == d.usben by { PollKeepsEnabled(d); } }
    if HasEvent(d1.ring) {
      DispatchOk(f, d1.(ring := Advanced(d1.ring)), d1.ring.slots[d1.ring.front], key);
    }
  }

  lemma {:induction false} PollKeepsEnabled(d: Dev)
    requires BoardOk(d)
    ensures PollReset(d).usben == d.usben
  {
  }

  /** The device left alone: rounds of the main loop until no event is left. */
  function Drain(f: Fw, d: Dev, key: byte): (Fw, Dev)
    requires BoardOk(d)
    decreases |Unread(d.ring)|
  {
    RoundOk(f, d, key);
    var (f1, d1) := Round(f, d, key);
    GetTakesOldest(d1.ring);
    if HasEvent(d1.ring) then Drain(f1, d1, key) else (f1, d1)
  }

  lemma {:induction false} DrainOk(f: Fw, d: Dev, key: byte)
    requires BoardOk(d)
    ensures var d' := Drain(f, d, key).1; BoardOk(d') && !d'.reset && !HasEvent(d'.ring) && d'.usben == d.usben
    decreases |Unread(d.ring)|
  {
    hide Round;
    RoundOk(f, d, key);
    var (f1, d1) := Round(f, d, key);
    GetTakesOldest(d1.ring);
    if HasEvent(d1.ring) {
      DrainOk(f1, d1, key);
    }
  }
}
