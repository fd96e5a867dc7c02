/** usb_lib_usbip.c as it is written: registers, buffer descriptors and buffers updated in place.
    Every method is proved to compute the function of module DeviceModel that carries its name. */
module UsbLib {
  import opened UsbTypes
  import opened EventRing
  import opened DeviceModel

  class Device {
    var usben: bool
    var u1addr: int
    var pktdis: bool
    var resetFlag: bool
    const bdt: array<EpDsc>
    const bufs: seq<array<byte>>
    const events: EventQueue
    ghost var mem: seq<seq<byte>>

    ghost predicate Valid()
      reads this, bdt, bufs, events, events.queue
    {
      && events.Valid() && |mem| == |bufs|
      && (forall i :: 0 <= i < |bufs| ==> bufs[i][..] == mem[i])
      && (forall i, j :: 0 <= i < j < |bufs| ==> bufs[i] != bufs[j])
      && DevOk(Value())
    }

    ghost function Value(): Dev
      reads this, bdt, events, events.queue
      requires events.Valid()
    {
      Dev(usben, u1addr, pktdis, resetFlag, bdt[..], mem, events.Value())
    }

    /** usb_init for a device with the given number of endpoint descriptors and the given declared buffers. */
    constructor (eps: nat, bufs: seq<array<byte>>)
      requires forall i, j :: 0 <= i < j < |bufs| ==> bufs[i] != bufs[j]
      ensures Valid() && this.bufs == bufs && fresh(bdt) && fresh(events) && fresh(events.queue)
      ensures !usben && u1addr == 0 && !pktdis && !resetFlag && bdt.Length == eps
      ensures forall i :: 0 <= i < eps ==> bdt[i] == EpDsc(Entry(0, 0, Null), Entry(0, 0, Null))
    {
      usben, u1addr, pktdis, resetFlag := false, 0, false, false;
      bdt := new EpDsc[eps](_ => EpDsc(Entry(0, 0, Null), Entry(0, 0, Null)));
      this.bufs := bufs;
      events := new EventQueue();
      mem := seq(|bufs|, i requires 0 <= i < |bufs| reads bufs => bufs[i][..]);
    }

    method StartTransfer(ep: nat, transferType: bv8, buf: nat, size: nat)
      requires Valid() && ep < bdt.Length && buf < |bufs|
      modifies this`pktdis, bdt
      ensures Valid() && Value() == DeviceModel.StartTransfer(old(Value()), ep, transferType, buf, size)
    {
      var dsc := bdt[ep];
      if transferType & 0x80 != 0 {
        bdt[ep] := dsc.(inn := Entry(size % 256, transferType | HighBits(size) | UOWN, Buf(buf)));
      } else {
        bdt[ep] := dsc.(out := Entry(size % 256, transferType | HighBits(size) | UOWN, Buf(buf)));
      }
      pktdis := false;
    }

    method InitEp(ep: nat)
      requires Valid() && ep < bdt.Length
      modifies bdt
      ensures Valid() && Value() == DeviceModel.InitEp(old(Value()), ep)
    {
      var dsc := bdt[ep];
      bdt[ep] := EpDsc(dsc.out.(cnt := 0, stat := 0), dsc.inn.(cnt := 0, stat := 0));
    }

    method UsbReset()
      requires Valid()
      modifies this`pktdis, this`u1addr, bdt
      ensures Valid() && Value() == DeviceModel.UsbReset(old(Value()))
    {
      pktdis := false;
      u1addr := 0;
      var blank := Entry(0, 0, Null);
      var i := 0;
      while i < bdt.Length
        invariant i <= bdt.Length && forall j :: 0 <= j < i ==> bdt[j] == EpDsc(blank, blank)
        modifies bdt
      {
        bdt[i] := EpDsc(blank, blank);
        i := i + 1;
      }
      assert bdt[..] == DeviceModel.UsbReset(old(Value())).bdt;
    }

    method SetAddress(addr: byte)
      requires Valid()
      modifies this`u1addr
      ensures Valid() && Value() == DeviceModel.SetAddress(old(Value()), addr)
    {
      u1addr := if addr < 128 then addr else addr - 256;
    }

    /** copy_to_buffer, and the memcpy of an OUT packet. */
    method CopyToBuffer(buf: nat, src: seq<byte>)
      requires Valid() && buf < |bufs| && |src| <= |mem[buf]|
      modifies this`mem, bufs[buf]
      ensures Valid() && Value() == WriteBuf(old(Value()), buf, src)
    {
      hide DevOk;
      var a := bufs[buf];
      CopyInto(a, src);
      mem := mem[buf := a[..]];
      WriteBufKeepsOk(old(Value()), buf, src);
    }

    static method CopyInto(a: array<byte>, src: seq<byte>)
      requires |src| <= a.Length
      modifies a
      ensures a[..] == src + old(a[..])[|src|..]
    {
      var i := 0;
      while i < |src|
        invariant i <= |src| && (forall j :: 0 <= j < i ==> a[j] == src[j])
        invariant forall j :: i <= j < a.Length ==> a[j] == old(a[j])
      {
        a[i] := src[i];
        i := i + 1;
      }
    }

    /** copy_from_buffer. */
    method CopyFromBuffer(buf: nat, size: nat) returns (dest: seq<byte>)
      requires Valid() && buf < |bufs| && size <= |mem[buf]|
      ensures dest == Value().bufs[buf][..size]
    {
      dest := [];
      var i := 0;
      while i < size
        invariant i <= size && dest == bufs[buf][..i]
      {
        dest := dest + [bufs[buf][i]];
        i := i + 1;
      }
    }

    method IsReset() returns (r: bool)
      requires Valid()
      modifies this`resetFlag
      ensures Valid() && r == old(resetFlag) && Value() == old(Value()).(reset := false)
    {
      r := resetFlag;
      if resetFlag {
        resetFlag := false;
      }
    }

    method BusReset()
      requires Valid()
      modifies this`resetFlag
      ensures Valid() && Value() == DeviceModel.BusReset(old(Value()))
    {
      if usben && u1addr == 0 && !pktdis {
        resetFlag := true;
      }
    }

    method Transfer(p: Packet) returns (r: Reply)
      requires Valid() && p.ep < bdt.Length && (!p.dirIn ==> p.size == |p.data|)
      modifies this`pktdis, this`mem, bdt, bufs, events, events.queue
      ensures Valid() && (Value(), r) == DeviceModel.Transfer(old(Value()), p)
    {
      if !usben || p.addr != u1addr || pktdis {
        return Err;
      }
      if p.pid.PidSetup? {
        pktdis := true;
        if bdt[p.ep].out.stat & UOWN == 0 {
          return Err;
        }
      }
      if !p.dirIn {
        r := TakeOut(p);
      } else {
        r := GiveIn(p);
      }
    }

    method TakeOut(p: Packet) returns (r: Reply)
      requires Valid() && p.ep < bdt.Length && p.size == |p.data|
      modifies this`mem, bdt, bufs, events, events.queue
      ensures Valid() && (Value(), r) == DeviceModel.TakeOut(old(Value()), p)
    {
      hide Post, DeviceModel.ToggleRejected;
      var e := bdt[p.ep].out;
      if e.stat & UOWN == 0 {
        return Nak;
      }
      if ToggleRejected(e, p.pid) {
        return Err;
      }
      var capacity := bufs[e.addr.i].Length;
      if p.size > capacity {
        return Err;
      }
      var sz := Min(e.cnt, p.size);
      CopyToBuffer(e.addr.i, p.data[..sz]);
      WriteBufKeepsOk(old(Value()), e.addr.i, p.data[..sz]);
      ReturnOut(p.ep, (e.stat & 0xC3) | (CodeOf(p.pid) << 2), sz);
      r := Ack(sz, p.data[..sz]);
    }

    /** The out entry goes back with a new status byte and count, and the firmware is told. */
    method ReturnOut(ep: nat, stat: bv8, cnt: nat)
      requires Valid() && ep < bdt.Length && cnt < 256 && bdt[ep].out.addr.Buf?
      modifies bdt, events, events.queue
      ensures Valid()
      ensures
        var d := old(Value());
        Value() == SetOut(d, ep, d.bdt[ep].out.(stat := stat, cnt := cnt)).(ring := Post(d.ring, EventCode(ep, false)))
    {
      hide Post;
      bdt[ep] := bdt[ep].(out := bdt[ep].out.(stat := stat, cnt := cnt));
      events.NotifyEp(EventCode(ep, false));
    }

    method GiveIn(p: Packet) returns (r: Reply)
      requires Valid() && p.ep < bdt.Length
      modifies bdt, events, events.queue
      ensures Valid() && (Value(), r) == DeviceModel.GiveIn(old(Value()), p)
    {
      var e := bdt[p.ep].inn;
      if e.stat & UOWN == 0 {
        return Nak;
      }
      var capacity := bufs[e.addr.i].Length;
      if e.cnt > capacity {
        return Err;
      }
      var sz := Min(e.cnt, p.size);
      var data := CopyFromBuffer(e.addr.i, sz);
      bdt[p.ep] := bdt[p.ep].(inn := e.(stat := (e.stat & 0x40) | (CodeOf(p.pid) << 2), cnt := 0));
      events.NotifyEp(EventCode(p.ep, true));
      r := Ack(sz, data);
    }
  }
}
