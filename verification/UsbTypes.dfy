/** Values shared by the host side, the device side and their composition. */
module UsbTypes {

  type byte = x: int | 0 <= x < 256

  datatype Option<+T> = None | Some(value: T) {
    function GetOr(default: T): T {
      if Some? then value else default
    }
  }

  function Min(a: int, b: int): int {
    if a < b then a else b
  }

  /** The packet kinds the host controller sends (__USB_PACKET_SETUP, _DATA0, _DATA1). */
  datatype PacketPid = PidSetup | PidData0 | PidData1

  /** One call of __usb_transfer: `data` are the bytes sent (none for an IN packet), `size` the byte count argument. */
  datatype Packet = Packet(addr: nat, ep: nat, dirIn: bool, pid: PacketPid, data: seq<byte>, size: nat)

  /** The result of __usb_transfer. For an IN packet `data` are the bytes the device copied to the host. */
  datatype Reply = Ack(rlen: nat, data: seq<byte>) | Nak | Err | Stall | Invalid

  /** A device never moves more bytes than the packet asked for. */
  predicate ReplyFits(p: Packet, r: Reply) {
    r.Ack? ==> r.rlen <= p.size && (p.dirIn ==> |r.data| == r.rlen)
  }

  datatype Stage = SetupStage | DataStage | StatusStage

  /** Which URB a transfer descriptor completes: the caller's own URB (bulk path)
      or the local one that sys_urb_submit uses for a control stage. */
  datatype UrbRef = Outer(cmd: nat) | Inner(cmd: nat, stage: Stage)
}
