/** system_loop (sys.c) as it is written: the enumeration sequence on the simulator's objects, and what it comes to. */
module SystemLoop {
  import opened UsbTypes
  import opened HcdModel
  import opened DeviceModel
  import opened FirmwareModel
  import opened ControlDevice
  import opened Lockstep
  import opened ControlTransfers
  import opened ControlRead
  import opened TdCount
  import opened Simulator
  import opened DescriptorWalk
  import Enumeration
  import HcdHeap

  /** hcd_bus_reset. */
  method BusReset(s: System, key: byte)
    requires s.Valid()
    modifies s.board.Footprint()
    ensures s.Valid() && BoardOk(old(s.State()).d) && s.State() == Enumeration.ResetBus(old(s.State()), key)
  {
    hide Drain, HcdHeap.Controller.Valid;
    s.board.ResetBus(key);
  }

  /** sys_usb_control_transfer: a new URB is submitted and waited for; the buffer comes back. */
  method ControlTransfer(s: System, u: ControlUrb, t: Timing) returns (ok: bool, data: seq<byte>)
    requires s.Valid() && UrbOk(u) && u.setup != NO_SETUP && Tds(s.State().h) == 0
    modifies s, s.hcd.Footprint(), s.board.Footprint()
    ensures s.Valid()
    ensures forall o | o in s.hcd.Footprint() && o !in old(s.hcd.Footprint()) :: fresh(o)
    ensures
      var r := Submit(old(s.State()), u, t);
      s.State() == r.w && ok == r.done && (ok ==> data == r.data && Tds(s.State().h) == 0)
  {
    hide System.Valid, HcdHeap.Controller.Footprint, Tds, Submit;
    var urb := s.NewUrb(Outer(0), |u.data|);
    ok := s.UrbSubmit(u, 0, false, urb, t);
    data := urb.data;
  }

  lemma {:induction false} ReadIsOk(addr: nat, mps: byte, t: byte, length: byte, data: seq<byte>)
    requires addr <= 127
    ensures var u := Enumeration.Read(addr, mps, t, length, data); UrbOk(u) && u.setup != NO_SETUP
  {
    assert Enumeration.Read(addr, mps, t, length, data).setup[0] == 0x80;
  }

  lemma {:induction false} WriteIsOk(addr: nat, mps: byte, request: byte, value: byte)
    requires addr <= 127 && request != 0
    ensures var u := Enumeration.Write(addr, mps, request, value); UrbOk(u) && u.setup != NO_SETUP
  {
    assert Enumeration.Write(addr, mps, request, value).setup[1] == request;
  }

  lemma {:induction false} FullReadIsOk(mps: byte, cfgDsc: seq<byte>)
    requires |cfgDsc| == 9
    ensures var u := Enumeration.FullRead(1, mps, cfgDsc); UrbOk(u) && u.setup != NO_SETUP
  {
    assert Enumeration.FullRead(1, mps, cfgDsc).setup[0] == 0x80;
  }

  lemma {:induction false} ResetKeepsTds(w: World, key: byte)
    requires BoardOk(w.d)
    ensures Enumeration.ResetBus(w, key).h == w.h
  {
  }

  /** A bus reset, then a read of the device descriptor. */
  method ResetAndRead(s: System, ghost w: World, mps: byte, devDsc: seq<byte>, t: Timing) returns (ok: bool, dev: seq<byte>)
    requires s.Valid() && Tds(s.State().h) == 0 && w == s.State() && BoardOk(w.d)
    modifies s, s.hcd.Footprint(), s.board.Footprint()
    ensures s.Valid()
    ensures forall o | o in s.hcd.Footprint() && o !in old(s.hcd.Footprint()) :: fresh(o)
    ensures
      var r := Submit(Enumeration.ResetBus(w, t.key), Enumeration.Read(0, mps, 1, 18, devDsc), t);
      s.State() == r.w && ok == r.done && (ok ==> dev == r.data && Tds(s.State().h) == 0)
  {
    hide System.Valid, System.State, HcdHeap.Controller.Footprint, Tds, Submit, Enumeration.ResetBus,
      Enumeration.Read, BoardOk, UrbOk;
    ResetKeepsTds(w, t.key);
    BusReset(s, t.key);
    ReadIsOk(0, mps, 1, 18, devDsc);
    ok, dev := ControlTransfer(s, Enumeration.Read(0, mps, 1, 18, devDsc), t);
  }

  /** The transfers at address 0, ending with SET_ADDRESS. */
  method FirstHalf(s: System, devDsc: seq<byte>, cfgDsc: seq<byte>, ts: nat -> Timing)
    returns (ok: bool, dev: seq<byte>, cfg: seq<byte>)
    requires s.Valid() && Tds(s.State().h) == 0 && Enumeration.Sizes(devDsc, cfgDsc)
    modifies s, s.hcd.Footprint(), s.board.Footprint()
    ensures s.Valid() && BoardOk(old(s.State()).d)
    ensures forall o | o in s.hcd.Footprint() && o !in old(s.hcd.Footprint()) :: fresh(o)
    ensures
      var g := Enumeration.FirstHalf(old(s.State()), devDsc, cfgDsc, ts);
      && s.State() == g.w && ok == g.ok
      && (ok ==> dev == g.devDsc && cfg == g.cfgDsc && Tds(s.State().h) == 0)
  {
    hide System.Valid, System.State, HcdHeap.Controller.Footprint, Tds, Submit, Enumeration.ResetBus,
      Enumeration.Read, Enumeration.Write, BoardOk, UrbOk;
    s.StateOk();
    dev, cfg := devDsc, cfgDsc;
    ok, dev := ResetAndRead(s, s.State(), 8, devDsc, ts(0));
    if !ok || |dev| != 18 {
      return false, dev, cfg;
    }
    s.StateOk();
    ReadIsOk(0, dev[7], 2, 9, cfgDsc);
    ok, cfg := ControlTransfer(s, Enumeration.Read(0, dev[7], 2, 9, cfgDsc), ts(1));
    if !ok || |cfg| != 9 {
      return false, dev, cfg;
    }
    s.StateOk();
    ok, dev := ResetAndRead(s, s.State(), dev[7], dev, ts(2));
    if !ok || |dev| != 18 {
      return false, dev, cfg;
    }
    WriteIsOk(0, dev[7], SET_ADDRESS, 1);
    var nothing;
    ok, nothing := ControlTransfer(s, Enumeration.Write(0, dev[7], SET_ADDRESS, 1), ts(3));
  }

  /** The descriptor reads at address 1. */
  method SecondReads(s: System, ghost g: Enumeration.Gathered, devDsc: seq<byte>, cfgDsc: seq<byte>, ts: nat -> Timing)
    returns (ok: bool, dev: seq<byte>, cfg: seq<byte>, full: seq<byte>)
    requires s.Valid() && Tds(s.State().h) == 0 && Enumeration.Sizes(devDsc, cfgDsc)
    requires g.w == s.State() && g.devDsc == devDsc && g.cfgDsc == cfgDsc
    modifies s, s.hcd.Footprint(), s.board.Footprint()
    ensures s.Valid()
    ensures forall o | o in s.hcd.Footprint() && o !in old(s.hcd.Footprint()) :: fresh(o)
    ensures
      var r := Enumeration.SecondReads(g, ts);
      && s.State() == r.w && ok == r.ok
      && (ok ==> dev == r.devDsc && cfg == r.cfgDsc && full == r.fullCfg && Tds(s.State().h) == 0)
  {
    hide System.Valid, System.State, HcdHeap.Controller.Footprint, Tds, Submit, Enumeration.Read, UrbOk,
      Enumeration.ConfigurationReads;
    cfg, full := cfgDsc, [];
    ReadIsOk(1, devDsc[7], 1, 18, devDsc);
    ok, dev := ControlTransfer(s, Enumeration.Read(1, devDsc[7], 1, 18, devDsc), ts(4));
    if !ok || |dev| != 18 {
      return false, dev, cfg, full;
    }
    ok, cfg, full := ConfigurationReads(s, s.State(), dev, cfg, ts);
  }

  /** The reads of the configuration descriptor. */
  method ConfigurationReads(s: System, ghost w: World, devDsc: seq<byte>, cfgDsc: seq<byte>, ts: nat -> Timing)
    returns (ok: bool, cfg: seq<byte>, full: seq<byte>)
    requires s.Valid() && Tds(s.State().h) == 0 && Enumeration.Sizes(devDsc, cfgDsc) && w == s.State()
    modifies s, s.hcd.Footprint(), s.board.Footprint()
    ensures s.Valid()
    ensures forall o | o in s.hcd.Footprint() && o !in old(s.hcd.Footprint()) :: fresh(o)
    ensures
      var r := Enumeration.ConfigurationReads(w, devDsc, cfgDsc, ts);
      && s.State() == r.w && ok == r.ok && (ok ==> cfg == r.cfgDsc && full == r.fullCfg && Tds(s.State().h) == 0)
  {
    hide System.Valid, System.State, HcdHeap.Controller.Footprint, Tds, Submit, Enumeration.Read,
      Enumeration.FullRead, UrbOk;
    full := [];
    ReadIsOk(1, devDsc[7], 2, 9, cfgDsc);
    ok, cfg := ControlTransfer(s, Enumeration.Read(1, devDsc[7], 2, 9, cfgDsc), ts(5));
    if !ok || |cfg| != 9 {
      return false, cfg, full;
    }
    FullReadIsOk(devDsc[7], cfg);
    ok, full := ControlTransfer(s, Enumeration.FullRead(1, devDsc[7], cfg), ts(6));
  }

  lemma {:induction false} QuietHasNone(w: World)
    requires Quiet(w)
    ensures Tds(w.h) == 0
  {
    NoneQueued(w.h.control);
    NoneQueued(w.h.bulk);
  }

  /** The sequence of system_loop up to and including SET_CONFIGURATION, from a quiet system whose device answers at
      address 0: every transfer comes back, the host has the device's descriptors and its one interface, each packet was
      acknowledged and sent to the address the device had, and the device is configured at address 1. */
  method Enumerate(s: System, devDsc: seq<byte>, cfgDsc: seq<byte>, ts: nat -> Timing)
    returns (ok: bool, dev: seq<byte>, full: seq<byte>, interfaces: array<Interface>)
    requires s.Valid() && Quiet(s.State()) && Reachable(s.State().d, 0)
    requires Enumeration.Sizes(devDsc, cfgDsc) && Enumeration.TimingsOk(ts)
    modifies s, s.hcd.Footprint(), s.board.Footprint()
    ensures s.Valid()
    ensures forall o | o in s.hcd.Footprint() && o !in old(s.hcd.Footprint()) :: fresh(o)
    ensures ok && dev == DEVICE_DESCRIPTOR && full == CONFIG_DESCRIPTOR
    ensures interfaces[..] == [Interface(0xFF, 0, 0)]
    ensures ReadyAt(s.State(), 1) && Enumeration.DataEndpointsArmed(s.State().d)
    ensures
      var n := |old(s.wire)|;
      && |s.wire| == n + 22 && old(s.wire) <= s.wire
      && Enumeration.AllAt(s.wire, n, n + 11, 0) && Enumeration.AllAt(s.wire, n + 11, n + 22, 1)
  {
    hide System.Valid, System.State, HcdHeap.Controller.Footprint, Tds, Enumeration.FirstHalf, Enumeration.SecondHalf,
      Quiet, Enumeration.AllAt, Enumeration.DataEndpointsArmed, ReadyAt, Reachable;
    s.StateOk();
    s.StateFields();
    ghost var w := s.State();
    QuietHasNone(w);
    Enumeration.FirstHalfRuns(w, devDsc, cfgDsc, ts);
    Enumeration.EnumerationAgrees(w, devDsc, cfgDsc, ts);
    ghost var g := Enumeration.FirstHalf(w, devDsc, cfgDsc, ts);
    var cfg;
    ok, dev, cfg := FirstHalf(s, devDsc, cfgDsc, ts);
    ok, dev, full, interfaces := SecondHalf(s, g, dev, cfg, ts);
    s.StateFields();
  }

  /** The transfers at address 1, ending with SET_CONFIGURATION. */
  method SecondHalf(s: System, ghost g: Enumeration.Gathered, devDsc: seq<byte>, cfgDsc: seq<byte>, ts: nat -> Timing)
    returns (ok: bool, dev: seq<byte>, full: seq<byte>, interfaces: array<Interface>)
    requires s.Valid() && Tds(s.State().h) == 0 && devDsc == DEVICE_DESCRIPTOR && |cfgDsc| == 9
    requires g.w == s.State() && g.devDsc == devDsc && g.cfgDsc == cfgDsc
    requires ReadyAt(g.w, 1) && Enumeration.TimingsOk(ts)
    modifies s, s.hcd.Footprint(), s.board.Footprint()
    ensures s.Valid()
    ensures forall o | o in s.hcd.Footprint() && o !in old(s.hcd.Footprint()) :: fresh(o)
    ensures interfaces[..] == [Interface(0xFF, 0, 0)]
    ensures
      var r := Enumeration.SecondHalf(g, ts);
      s.State() == r.w && ok == r.ok && dev == r.devDsc && full == r.fullCfg
  {
    hide System.Valid, System.State, HcdHeap.Controller.Footprint, Tds, Submit, Enumeration.SecondReads,
      Enumeration.Write, UrbOk, ReadyAt, Enumeration.AllAt, Enumeration.TimingsOk;
    Enumeration.SecondReadsRun(g, ts);
    var cfg;
    ok, dev, cfg, full := SecondReads(s, g, devDsc, cfgDsc, ts);
    ok, interfaces := Configure(s, dev[7], cfg[5], full, ts(7));
  }

  /** The interfaces listed, and SET_CONFIGURATION. */
  method Configure(s: System, mps: byte, value: byte, full: seq<byte>, t: Timing)
    returns (ok: bool, interfaces: array<Interface>)
    requires s.Valid() && Tds(s.State().h) == 0 && full == CONFIG_DESCRIPTOR
    modifies s, s.hcd.Footprint(), s.board.Footprint()
    ensures s.Valid()
    ensures forall o | o in s.hcd.Footprint() && o !in old(s.hcd.Footprint()) :: fresh(o)
    ensures interfaces[..] == [Interface(0xFF, 0, 0)]
    ensures
      var r := Submit(old(s.State()), Enumeration.Write(1, mps, SET_CONFIGURATION, value), t);
      s.State() == r.w && ok == r.done
  {
    hide System.Valid, System.State, Tds, Submit, Enumeration.Write, UrbOk;
    interfaces := ListInterfaces(full);
    WriteIsOk(1, mps, SET_CONFIGURATION, value);
    var nothing;
    ok, nothing := ControlTransfer(s, Enumeration.Write(1, mps, SET_CONFIGURATION, value), t);
  }

  /** create_op_rep_list on the descriptor that was read. */
  method ListInterfaces(full: seq<byte>) returns (interfaces: array<Interface>)
    requires full == CONFIG_DESCRIPTOR
    ensures fresh(interfaces) && interfaces[..] == [Interface(0xFF, 0, 0)]
  {
    OwnConfiguration();
    interfaces := new Interface[full[4]](_ => Interface(0, 0, 0));
    var ok := CreateOpRepList(full, interfaces);
  }
}
