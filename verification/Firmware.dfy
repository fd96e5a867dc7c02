/** pic_usb_device.X/main.c as it is written: the static and global variables of the firmware updated in place,
    on top of the device library. Every method is proved to compute the function of module FirmwareModel it names. */
module Firmware {
  import opened UsbTypes
  import opened EventRing
  import opened DeviceModel
  import opened FirmwareModel
  import opened ControlDevice
  import UsbLib

  class Board {
    const usb: UsbLib.Device
    var state: Cts
    var addr: byte
    var configuration: byte
    var inData: nat
    var outData: nat

    /** The objects of the device side. */
    ghost function Footprint(): set<object> {
      {this, usb, usb.bdt, usb.events, usb.events.queue} + set b | b in usb.bufs
    }

    ghost predicate Valid()
      reads Footprint()
    {
      usb.Valid() && BoardOk(usb.Value())
    }

    /** The variables of main.c. */
    ghost function Vars(): Fw
      reads this
    {
      Fw(state, addr, configuration, inData, outData)
    }

    ghost function Usb(): Dev
      reads usb.events, usb.events.queue, Footprint()
      requires usb.events.Valid()
    {
      usb.Value()
    }

    constructor (usb: UsbLib.Device)
      requires usb.Valid() && BoardOk(usb.Value())
      ensures Valid() && this.usb == usb && Vars() == Fw(CtsSetup, 0, 0, 0, 0)
    {
      this.usb := usb;
      state, addr, configuration, inData, outData := CtsSetup, 0, 0, 0, 0;
    }

    /** usb_ep_transf_start on one of the board's endpoints and buffers. */
    method Start(ep: nat, transferType: bv8, buf: nat, size: nat)
      requires Valid() && ep < 3 && buf < 4
      modifies usb`pktdis, usb.bdt
      ensures Valid() && Usb() == StartTransfer(old(Usb()), ep, transferType, buf, size)
    {
      hide DevOk;
      StartKeepsOk(usb.Value(), ep, transferType, buf, size);
      usb.StartTransfer(ep, transferType, buf, size);
    }

    /** process_control_transfer. */
    method ProcessControlTransfer(ep: int)
      requires Valid()
      modifies this, usb, usb.bdt, usb.bufs
      ensures Valid() && (Vars(), Usb()) == ProcessControl(old(Vars()), old(Usb()), ep)
    {
      hide BoardOk, UsbLib.Device.Valid, ProcessSetup, ProcessStage;
      var setup := IsSetup(ep);
      if setup {
        Request();
      } else {
        NextStage();
      }
    }

    method IsSetup(dir: int) returns (r: bool)
      requires Valid()
      ensures r == DeviceModel.IsSetup(Usb(), dir)
    {
      if dir != 0 {
        return false;
      }
      r := (usb.bdt[0].out.stat >> 2) & 0x0F == 0x0D;
    }

    /** The switch on bRequest. */
    method Request()
      requires Valid()
      modifies this, usb, usb.bdt, usb.bufs
      ensures Valid() && (Vars(), Usb()) == ProcessSetup(old(Vars()), old(Usb()))
    {
      hide StartTransfer, DevOk, Configure, SendDescriptor;
      var req := usb.CopyFromBuffer(EP0_OUT, 8);
      assert req == usb.Value().bufs[EP0_OUT][..8];
      if req[1] == GET_DESCRIPTOR {
        if HasDescriptor(req[3]) {
          Offer(req[3], Word(req[6], req[7]));
        }
      } else if req[1] == SET_ADDRESS {
        addr := req[2];
        Start(0, TRN_DATA1_IN, EP0_IN, 0);
        state := CtsAckAd;
      } else if req[1] == SET_CONFIGURATION {
        SetConfiguration(req[2]);
      }
    }

    /** The switch on the state. */
    method NextStage()
      requires Valid()
      modifies this, usb, usb.bdt
      ensures Valid() && (Vars(), Usb()) == ProcessStage(old(Vars()), old(Usb()))
    {
      hide StartTransfer, DevOk;
      match state
      case CtsDevDsc | CtsCfgDsc | CtsDbgDsc =>
        Start(0, TRN_DATA1_OUT, EP0_OUT, BUF_SIZE);
        state := CtsAckIn;
      case CtsAckIn =>
        Start(0, TRN_SETUP, EP0_OUT, BUF_SIZE);
        state := CtsSetup;
      case CtsAckAd =>
        usb.SetAddress(addr);
        Start(0, TRN_SETUP, EP0_OUT, BUF_SIZE);
      case CtsSetup =>
      case CtsAckSc =>
    }

    /** The GET_DESCRIPTOR cases. */
    method Offer(t: byte, wLength: nat)
      requires Valid() && HasDescriptor(t)
      modifies this`state, usb, usb.bdt, usb.bufs
      ensures Valid() && (Vars(), Usb()) == SendDescriptor(old(Vars()), old(Usb()), t, wLength)
    {
      hide StartTransfer, DevOk, Descriptor;
      var dsc := Descriptor(t);
      usb.CopyToBuffer(EP0_IN, dsc);
      Start(0, TRN_DATA1_IN, EP0_IN, Min(|dsc|, wLength));
      state := StateFor(t);
    }

    /** The SET_CONFIGURATION case. */
    method SetConfiguration(value: byte)
      requires Valid()
      modifies this, usb`pktdis, usb.bdt
      ensures Valid() && (Vars(), Usb()) == Configure(old(Vars()), old(Usb()), value)
    {
      hide StartTransfer, DeviceModel.InitEp, BoardOk, UsbLib.Device.Valid;
      configuration := value;
      InitDataEndpoints();
      inData := 0;
      outData := 0;
      Start(2, TRN_DATA0_OUT, EP2_OUT, 0);
      outData := Flip(outData);
      Start(1, TRN_DATA0_IN, EP1_IN, 0);
      inData := Flip(inData);
      Start(0, TRN_DATA1_IN, EP0_IN, 0);
      state := CtsAckSc;
    }

    method InitDataEndpoints()
      requires Valid()
      modifies usb.bdt
      ensures Valid() && Usb() == DeviceModel.InitEp(DeviceModel.InitEp(old(Usb()), 1), 2)
    {
      usb.InitEp(1);
      usb.InitEp(2);
    }

    /** process_ep_transfer: sends the key on endpoint 1 IN, or takes what endpoint 2 OUT received. */
    method ProcessEpTransfer(ep: int, key: byte) returns (received: seq<byte>)
      requires Valid()
      modifies this`inData, this`outData, usb, usb.bdt, usb.bufs
      ensures Valid() && (Vars(), Usb()) == ProcessEp(old(Vars()), old(Usb()), ep, key)
      ensures received == if ep == ENDPOINT_OUT then old(Usb()).bufs[EP2_OUT] else []
    {
      hide StartTransfer, DevOk;
      received := [];
      if ep == ENDPOINT_IN {
        usb.CopyToBuffer(EP1_IN, [key]);
        Start(1, if inData == 1 then TRN_DATA1_IN else TRN_DATA0_IN, EP1_IN, 1);
        inData := Flip(inData);
      } else if ep == ENDPOINT_OUT {
        received := usb.CopyFromBuffer(EP2_OUT, BUF_SIZE);
        Start(2, if outData == 1 then TRN_DATA1_OUT else TRN_DATA0_OUT, EP2_OUT, BUF_SIZE);
        outData := Flip(outData);
      }
    }

    /** The reset branch of the loop in main. */
    method CheckReset()
      requires Valid()
      modifies usb, usb.bdt
      ensures Valid() && Usb() == PollReset(old(Usb()))
    {
      hide StartTransfer;
      PollResetOk(usb.Value());
      var reset := usb.IsReset();
      if reset {
        usb.UsbReset();
        usb.InitEp(0);
        Start(0, TRN_SETUP, EP0_OUT, BUF_SIZE);
      }
    }

    /** get_trn_status. */
    method NextEvent() returns (ep: int)
      requires Valid() && HasEvent(Usb().ring)
      modifies usb.events
      ensures Valid() && Usb() == old(Usb()).(ring := Advanced(old(Usb()).ring))
      ensures var r := old(Usb()).ring; r.front < |r.slots| && ep == r.slots[r.front]
    {
      GetTakesOldest(usb.events.Value());
      ep := usb.events.GetEvent();
    }

    /** One round of the loop in main. */
    method MainRound(key: byte)
      requires Valid()
      modifies this, usb, usb.bdt, usb.bufs, usb.events
      ensures Valid() && (Vars(), Usb()) == Round(old(Vars()), old(Usb()), key)
    {
      hide BoardOk, UsbLib.Device.Valid, PollReset, ProcessControl, ProcessEp, Post, Advanced;
      PollResetOk(usb.Value());
      CheckReset();
      GetTakesOldest(usb.events.Value());
      var event := usb.events.IsEvent();
      if event {
        var ep := NextEvent();
        if ep == 0 || ep == 0x80 {
          ProcessControlTransfer(ep);
        } else {
          var _ := ProcessEpTransfer(ep, key);
        }
      }
    }

    /** The main loop left alone until it has no event to serve. */
    method Serve(key: byte)
      requires Valid()
      modifies Footprint()
      ensures Valid() && (Vars(), Usb()) == Drain(old(Vars()), old(Usb()), key)
    {
      hide Round, Unread;
      RoundOk(Vars(), usb.Value(), key);
      MainRound(key);
      GetTakesOldest(usb.events.Value());
      var more := usb.events.IsEvent();
      while more
        invariant Valid() && more == HasEvent(Usb().ring)
        invariant Drain(old(Vars()), old(Usb()), key) ==
                  if more then Drain(Vars(), Usb(), key) else (Vars(), Usb())
        decreases |Unread(Usb().ring)|
      {
        RoundOk(Vars(), usb.Value(), key);
        GetTakesOldest(usb.events.Value());
        MainRound(key);
        GetTakesOldest(usb.events.Value());
        more := usb.events.IsEvent();
      }
    }

    /** __usb_transfer, and the work it causes. */
    method Deliver(packet: Packet, key: byte) returns (r: Reply)
      requires Valid() && packet.ep < 3 && (!packet.dirIn ==> packet.size == |packet.data|)
      modifies Footprint()
      ensures Valid() && BoardOk(old(Usb())) && r == Transfer(old(Usb()), packet).1
      ensures (Vars(), Usb()) == ControlDevice.Serve(old(Vars()), old(Usb()), packet, key)
    {
      hide Transfer, Drain, DevOk;
      TransferBoard(usb.Value(), packet);
      r := usb.Transfer(packet);
      Serve(key);
    }

    /** hcd_bus_reset, and the work it causes. */
    method ResetBus(key: byte)
      requires Valid()
      modifies Footprint()
      ensures Valid() && BoardOk(DeviceModel.BusReset(old(Usb())))
      ensures (Vars(), Usb()) == Drain(old(Vars()), DeviceModel.BusReset(old(Usb())), key)
    {
      hide Drain;
      usb.BusReset();
      Serve(key);
    }
  }
}
