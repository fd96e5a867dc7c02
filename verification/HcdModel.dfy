/** The host controller driver (hcd.c) as functions on values.
    A transfer descriptor's buffer pointers are (buffer, pos); `trace` is a history of the packets sent for it. */
module HcdModel {
  import opened UsbTypes

  const NOTIFY_CONTROL: bv8 := 2
  const NOTIFY_BULK: bv8 := 4
  const NOTIFY_DONE: bv8 := 16
  const MAX_ERRORS: nat := 2
  const SETUP_SIZE: nat := 8

  datatype TdPid = Setup | Out | In

  datatype Exchange = Exchange(packet: Packet, reply: Reply)

  datatype Td = Td(id: nat, urb: UrbRef, urbLength: nat, pid: TdPid, toggle: nat,
                   buffer: seq<byte>, pos: nat, errorCount: nat, trace: seq<Exchange>)

  datatype Epd = Epd(addr: nat, ep: nat, mps: nat, skip: bool, halted: bool, carry: nat, queue: seq<Td>)

  datatype ListKind = Control | Bulk

  datatype Hcd = Hcd(control: seq<Epd>, bulk: seq<Epd>, done: seq<Td>, notify: bv8, nextId: nat)

  datatype LinkReq = LinkReq(addr: nat, ep: nat, dirIn: bool, setup: bool, toggle: nat, mps: nat,
                             data: seq<byte>, urb: UrbRef, urbLength: nat)

  datatype Cause = ByAck | ByErr | ByStall

  datatype Retirement = Retirement(td: Td, cause: Cause)

  datatype Outcome = Outcome(epd: Epd, retired: Option<Retirement>)

  datatype Completion = Completion(td: Td, status: bool, length: int)

  // ---------- lists and notification bits ----------

  function ListOf(h: Hcd, kind: ListKind): seq<Epd> {
    if kind.Control? then h.control else h.bulk
  }

  function WithList(h: Hcd, kind: ListKind, l: seq<Epd>): Hcd {
    if kind.Control? then h.(control := l) else h.(bulk := l)
  }

  function Mask(kind: ListKind): bv8 {
    if kind.Control? then NOTIFY_CONTROL else NOTIFY_BULK
  }

  function Notify(h: Hcd, mask: bv8): Hcd {
    h.(notify := h.notify | mask)
  }

  function ClearNotification(h: Hcd, mask: bv8): Hcd {
    h.(notify := h.notify & !mask)
  }

  // ---------- linking ----------

  function KindOf(req: LinkReq): ListKind {
    if req.setup || req.ep % 16 == 0 then Control else Bulk
  }

  function PidOf(req: LinkReq): TdPid {
    if req.setup then Setup else if req.dirIn then In else Out
  }

  /** The index of the endpoint descriptor for (addr, ep) at or after k, or |l|. */
  function FindFrom(l: seq<Epd>, addr: nat, ep: nat, k: nat): (i: nat)
    requires k <= |l|
    ensures k <= i <= |l|
    ensures i < |l| ==> l[i].addr == addr && l[i].ep == ep
    ensures forall j :: k <= j < i ==> !(l[j].addr == addr && l[j].ep == ep)
    decreases |l| - k
  {
    if k == |l| then k
    else if l[k].addr == addr && l[k].ep == ep then k
    else FindFrom(l, addr, ep, k + 1)
  }

  function NewEpd(addr: nat, ep: nat, mps: nat): Epd {
    Epd(addr, ep, mps, false, false, 0, [])
  }

  function NewTd(id: nat, req: LinkReq): Td {
    Td(id, req.urb, req.urbLength, PidOf(req), req.toggle, req.data, 0, 0, [])
  }

  function Enqueue(e: Epd, td: Td): Epd {
    e.(queue := e.queue + [td], skip := false, halted := false)
  }

  function LinkInto(l: seq<Epd>, addr: nat, ep: nat, mps: nat, td: Td): seq<Epd> {
    var i := FindFrom(l, addr, ep, 0);
    if i < |l| then l[i := Enqueue(l[i], td)]
    else l + [Enqueue(NewEpd(addr, ep, mps), td)]
  }

  /** hcd_gtd_link. */
  function Link(h: Hcd, req: LinkReq): Hcd {
    var kind := KindOf(req);
    var l := LinkInto(ListOf(h, kind), req.addr, req.ep % 16, req.mps, NewTd(h.nextId, req));
    Notify(WithList(h, kind, l).(nextId := h.nextId + 1), Mask(kind))
  }

  /** What the assertions on the linking path demand: those of hcd_epd_create when a descriptor is created,
      and that a SETUP goes out. Toggles are two-bit values. */
  predicate LinkAllowed(h: Hcd, req: LinkReq) {
    var l := ListOf(h, KindOf(req));
    && (FindFrom(l, req.addr, req.ep % 16, 0) == |l| ==> req.addr <= 127 && req.mps <= 1024)
    && (req.setup ==> !req.dirIn)
    && req.toggle <= 3
  }

  // ---------- sending ----------

  predicate Eligible(e: Epd) {
    !e.skip && !e.halted && e.queue != []
  }

  /** The first endpoint descriptor at or after k that hcd_gtd_send stops at, or |l|. */
  function FirstEligible(l: seq<Epd>, k: nat): (i: nat)
    requires k <= |l|
    ensures k <= i <= |l|
    ensures i < |l| ==> Eligible(l[i])
    ensures forall j :: k <= j < i ==> !Eligible(l[j])
    decreases |l| - k
  {
    if k == |l| then k
    else if Eligible(l[k]) then k
    else FirstEligible(l, k + 1)
  }

  predicate TdOk(td: Td) {
    td.pos <= |td.buffer| && td.toggle <= 3 && td.errorCount <= MAX_ERRORS
  }

  predicate EpdOk(e: Epd) {
    && e.carry <= 1 && e.ep < 16 && e.addr <= 127
    && forall i :: 0 <= i < |e.queue| ==> TdOk(e.queue[i])
  }

  /** A TD linked with toggle bit 1 set takes its toggle from the endpoint descriptor. */
  function Resolve(td: Td, carry: nat): Td {
    if td.toggle >= 2 then td.(toggle := carry) else td
  }

  function DataPid(toggle: nat): PacketPid {
    if toggle % 2 == 0 then PidData0 else PidData1
  }

  function Remaining(td: Td): nat
    requires TdOk(td)
  {
    |td.buffer| - td.pos
  }

  /** The packet hcd_gtd_send builds from the head of an eligible endpoint's queue. */
  function PacketOf(e: Epd): Packet
    requires EpdOk(e) && e.queue != []
  {
    var td := Resolve(e.queue[0], e.carry);
    var left := Remaining(td);
    match td.pid
    case Setup => Packet(e.addr, e.ep, false, PidSetup, td.buffer[td.pos..], left)
    case Out =>
      var sz := Min(e.mps, left);
      Packet(e.addr, e.ep, false, DataPid(td.toggle), td.buffer[td.pos..td.pos + sz], sz)
    case In => Packet(e.addr, e.ep, true, DataPid(td.toggle), [], left)
  }

  /** The assertion on the SETUP branch of hcd_gtd_send. */
  predicate SetupAssertion(e: Epd)
    requires EpdOk(e) && e.queue != []
  {
    e.queue[0].pid.Setup? ==> Remaining(e.queue[0]) == SETUP_SIZE
  }

  /** A TD after an acknowledged packet that moved rlen bytes. */
  function Advance(td: Td, rlen: nat, data: seq<byte>): Td
    requires TdOk(td) && td.toggle <= 1 && rlen <= Remaining(td)
    requires td.pid.In? ==> |data| == rlen
  {
    var buffer := if td.pid.In? then td.buffer[..td.pos] + data + td.buffer[td.pos + rlen..] else td.buffer;
    td.(pos := td.pos + rlen, toggle := 1 - td.toggle, buffer := buffer)
  }

  predicate Finished(e: Epd, td: Td, rlen: nat) {
    td.pos >= |td.buffer| || (td.pid.In? && rlen < e.mps)
  }

  /** The head TD as the packet goes out: its toggle resolved, the exchange recorded. */
  function Sent(e: Epd, r: Reply): Td
    requires EpdOk(e) && e.queue != []
  {
    var head := Resolve(e.queue[0], e.carry);
    head.(trace := head.trace + [Exchange(PacketOf(e), r)])
  }

  /** The reply switch of hcd_gtd_send on the selected endpoint descriptor. */
  function Absorb(e: Epd, r: Reply): Outcome
    requires EpdOk(e) && e.queue != []
    requires ReplyFits(PacketOf(e), r)
  {
    var rest := e.queue[1..];
    var td := Sent(e, r);
    match r
    case Ack(rlen, data) =>
      var td1 := Advance(td, rlen, data);
      if Finished(e, td1, rlen) then
        Outcome(e.(queue := rest, carry := td1.toggle % 2), Some(Retirement(td1, ByAck)))
      else Outcome(e.(queue := [td1] + rest), None)
    case Err =>
      if td.errorCount == MAX_ERRORS then Outcome(e.(queue := rest), Some(Retirement(td, ByErr)))
      else Outcome(e.(queue := [td.(errorCount := td.errorCount + 1)] + rest), None)
    case Stall => Outcome(e.(queue := rest, halted := true), Some(Retirement(td, ByStall)))
    case Nak => Outcome(e.(queue := [td] + rest), None)
    case Invalid => Outcome(e.(queue := [td] + rest), None)
  }

  /** Where hcd_gtd_send ends up when it starts at the captured list head: `headSeen` tells whether that was non-NULL. */
  function Selected(h: Hcd, kind: ListKind, headSeen: bool): (i: nat)
    ensures i <= |ListOf(h, kind)|
  {
    if headSeen then FirstEligible(ListOf(h, kind), 0) else |ListOf(h, kind)|
  }

  predicate UniqueKeys(l: seq<Epd>) {
    forall i, j :: 0 <= i < j < |l| ==> !(l[i].addr == l[j].addr && l[i].ep == l[j].ep)
  }

  predicate AllOk(l: seq<Epd>) {
    forall i :: 0 <= i < |l| ==> EpdOk(l[i])
  }

  predicate HcdOk(h: Hcd) {
    AllOk(h.control) && AllOk(h.bulk)
  }

  /** What one hcd_gtd_send demands: no failing assertion, and a device that moves at most the bytes asked for. */
  predicate SendAllowed(h: Hcd, kind: ListKind, headSeen: bool, r: Reply) {
    HcdOk(h) &&
    var l := ListOf(h, kind);
    var i := Selected(h, kind, headSeen);
    i < |l| ==> SetupAssertion(l[i]) && ReplyFits(PacketOf(l[i]), r)
  }

  /** The packet one hcd_gtd_send puts on the bus, if any. */
  function Outgoing(l: seq<Epd>, headSeen: bool): Option<Packet>
    requires AllOk(l)
  {
    var i := if headSeen then FirstEligible(l, 0) else |l|;
    if i < |l| then Some(PacketOf(l[i])) else None
  }

  /** hcd_gtd_send. */
  function Send(h: Hcd, kind: ListKind, headSeen: bool, r: Reply): Hcd
    requires SendAllowed(h, kind, headSeen, r)
  {
    var l := ListOf(h, kind);
    var i := Selected(h, kind, headSeen);
    if i == |l| then ClearNotification(h, Mask(kind))
    else
      var o := Absorb(l[i], r);
      var h1 := WithList(h, kind, l[i := o.epd]);
      if o.retired.Some? then Notify(h1.(done := [o.retired.value.td] + h1.done), NOTIFY_DONE) else h1
  }

  // ---------- completion ----------

  function Complete(td: Td): Completion {
    Completion(td, td.errorCount != 0, td.urbLength - (|td.buffer| - td.pos))
  }

  /** hcd_process_done_list: the done list is a stack. */
  function ProcessDone(h: Hcd): (Hcd, Option<Completion>) {
    if h.done == [] then (ClearNotification(h, NOTIFY_DONE), None)
    else (h.(done := h.done[1..]), Some(Complete(h.done[0])))
  }

  // ---------- well-formedness ----------

  lemma {:induction false} LinkKeepsOk(h: Hcd, req: LinkReq)
    requires HcdOk(h) && LinkAllowed(h, req)
    ensures HcdOk(Link(h, req))
  {
    var kind := KindOf(req);
    var l := ListOf(h, kind);
    var l' := ListOf(Link(h, req), kind);
    forall i | 0 <= i < |l'| ensures EpdOk(l'[i]) {}
  }

  lemma {:induction false} AbsorbKeepsOk(e: Epd, r: Reply)
    requires EpdOk(e) && e.queue != [] && ReplyFits(PacketOf(e), r)
    ensures EpdOk(Absorb(e, r).epd)
    ensures Absorb(e, r).retired.Some? ==> TdOk(Absorb(e, r).retired.value.td)
  {
  }

  lemma {:induction false} SendKeepsOk(h: Hcd, kind: ListKind, headSeen: bool, r: Reply)
    requires SendAllowed(h, kind, headSeen, r)
    ensures HcdOk(Send(h, kind, headSeen, r))
  {
    var l := ListOf(h, kind);
    var i := Selected(h, kind, headSeen);
    if i < |l| {
      AbsorbKeepsOk(l[i], r);
    }
  }
}
