/** How sys_urb_submit splits a URB with a setup packet into TDs (section 8.5.3 of USB 2.0). */
module ControlStages {
  import opened UsbTypes
  import opened HcdModel

  /** wLength, little-endian in the last two bytes of the setup packet. */
  function LengthOf(setup: seq<byte>): nat
    requires |setup| == SETUP_SIZE
  {
    setup[6] as int + 256 * (setup[7] as int)
  }

  /** Bit 7 of bmRequestType. */
  predicate DeviceToHost(setup: seq<byte>)
    requires |setup| == SETUP_SIZE
  {
    setup[0] >= 0x80
  }

  /** The arguments of hcd_gtd_link for each stage. */
  function StageLinkOf(addr: nat, ep: nat, mps: nat, setup: seq<byte>, data: seq<byte>, cmd: nat, st: Stage): LinkReq
    requires |setup| == SETUP_SIZE
  {
    match st
    case SetupStage => LinkReq(addr, ep, false, true, 0, mps, setup, Inner(cmd, st), SETUP_SIZE)
    case DataStage => LinkReq(addr, ep, DeviceToHost(setup), false, 1, mps, data, Inner(cmd, st), |data|)
    case StatusStage => LinkReq(addr, ep, !DeviceToHost(setup), false, 1, mps, [], Inner(cmd, st), 0)
  }
}
