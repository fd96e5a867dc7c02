/** Linking, choosing and blocking in literal terms: which list and which descriptor a TD joins, which descriptor a send
    passes over, which notification bits come and go, and when the loop sleeps. */
module HcdLaws {
  import opened UsbTypes
  import opened HcdModel
  import opened HcdRuns

  predicate HasKey(l: seq<Epd>, addr: nat, ep: nat) {
    exists i :: 0 <= i < |l| && l[i].addr == addr && l[i].ep == ep
  }

  lemma {:induction false} FoundIffHas(l: seq<Epd>, addr: nat, ep: nat)
    ensures FindFrom(l, addr, ep, 0) < |l| <==> HasKey(l, addr, ep)
  {
    if HasKey(l, addr, ep) {
      var i :| 0 <= i < |l| && l[i].addr == addr && l[i].ep == ep;
      assert !(FindFrom(l, addr, ep, 0) == |l|);
    }
  }

  /** The assertions on the linking path: a new descriptor needs an address of seven bits and a packet size of at most 1024;
      a SETUP goes out; the toggle has two bits. */
  lemma {:induction false} LinkAllowedIff(h: Hcd, req: LinkReq)
    ensures
      var l := if req.setup || req.ep % 16 == 0 then h.control else h.bulk;
      LinkAllowed(h, req) <==>
      && (HasKey(l, req.addr, req.ep % 16) || (req.addr <= 127 && req.mps <= 1024))
      && !(req.setup && req.dirIn) && req.toggle <= 3
  {
    FoundIffHas(ListOf(h, KindOf(req)), req.addr, req.ep % 16);
  }

  /** The TD that was linked last on this descriptor. */
  predicate JustLinked(e: Epd, before: seq<Td>, id: nat, req: LinkReq) {
    && e.addr == req.addr && e.ep == req.ep % 16 && !e.skip && !e.halted
    && |e.queue| == |before| + 1 && e.queue[..|before|] == before
    && var td := e.queue[|before|];
       && td.id == id && td.urb == req.urb && td.urbLength == req.urbLength && td.buffer == req.data && td.pos == 0
       && td.pid == (if req.setup then Setup else if req.dirIn then In else Out)
       && td.toggle == req.toggle && td.errorCount == 0
  }

  /** A TD joins the control list if it is a SETUP or for endpoint 0, the bulk list otherwise: at the end of the queue of
      the descriptor for its address and endpoint, a new one at the end of the list if there was none. That clears Skip and
      Halted there, and sets bit 1 or bit 2 of the notification word; nothing else changes. */
  lemma {:induction false} LinkJoins(h: Hcd, req: LinkReq) returns (i: nat)
    ensures
      var h' := Link(h, req);
      var control := req.setup || req.ep % 16 == 0;
      var l, l' := if control then h.control else h.bulk, if control then h'.control else h'.bulk;
      && h'.done == h.done && h'.nextId == h.nextId + 1 && h'.notify == h.notify | (if control then 2 else 4)
      && (if control then h'.bulk == h.bulk else h'.control == h.control)
      && i < |l'| && JustLinked(l'[i], if i < |l| then l[i].queue else [], h.nextId, req)
      && (if HasKey(l, req.addr, req.ep % 16) then
            |l'| == |l| && i < |l| && l'[i].mps == l[i].mps && l'[i].carry == l[i].carry
          else |l'| == |l| + 1 && i == |l| && l'[i].mps == req.mps && l'[i].carry == 0)
      && forall j :: 0 <= j < |l| && j != i ==> l'[j] == l[j]
  {
    hide LinkInto, JustLinked, HasKey, Link;
    LinkIs(h, req);
    if req.setup || req.ep % 16 == 0 {
      i := FindFrom(h.control, req.addr, req.ep % 16, 0);
      JoinsList(h.control, h.nextId, req);
    } else {
      i := FindFrom(h.bulk, req.addr, req.ep % 16, 0);
      JoinsList(h.bulk, h.nextId, req);
    }
  }

  lemma {:induction false} LinkIs(h: Hcd, req: LinkReq)
    ensures
      var control := req.setup || req.ep % 16 == 0;
      var l := LinkInto(if control then h.control else h.bulk, req.addr, req.ep % 16, req.mps, NewTd(h.nextId, req));
      Link(h, req) ==
        h.(control := if control then l else h.control, bulk := if control then h.bulk else l, nextId := h.nextId + 1,
           notify := h.notify | (if control then 2 else 4))
  {
    hide LinkInto;
  }

  lemma {:induction false} JoinsList(l: seq<Epd>, id: nat, req: LinkReq)
    ensures
      var i, l' := FindFrom(l, req.addr, req.ep % 16, 0), LinkInto(l, req.addr, req.ep % 16, req.mps, NewTd(id, req));
      && i < |l'| && JustLinked(l'[i], if i < |l| then l[i].queue else [], id, req)
      && (if HasKey(l, req.addr, req.ep % 16) then
            |l'| == |l| && i < |l| && l'[i].mps == l[i].mps && l'[i].carry == l[i].carry
          else |l'| == |l| + 1 && i == |l| && l'[i].mps == req.mps && l'[i].carry == 0)
      && forall j :: 0 <= j < |l| && j != i ==> l'[j] == l[j]
  {
    hide HasKey;
    FoundIffHas(l, req.addr, req.ep % 16);
  }

  /** A send passes over descriptors that are skipped, halted or without a TD. If all are, it sends nothing and clears the
      list's bit. */
  lemma {:induction false} SendChooses(h: Hcd, kind: ListKind, r: Reply) returns (i: nat)
    requires SendAllowed(h, kind, true, r)
    ensures
      var l := if kind.Control? then h.control else h.bulk;
      && i <= |l| && (forall j :: 0 <= j < i ==> l[j].skip || l[j].halted || l[j].queue == [])
      && (i < |l| ==> !l[i].skip && !l[i].halted && l[i].queue != [])
      && Outgoing(l, true) == (if i < |l| then Some(PacketOf(l[i])) else None)
      && (i == |l| ==> Send(h, kind, true, r) == h.(notify := h.notify & (if kind.Control? then 0xFD else 0xFB)))
  {
    i := Selected(h, kind, true);
    Complements();
  }

  lemma {:induction false} Complements()
    ensures !(2 as bv8) == 0xFD && !(4 as bv8) == 0xFB && !(16 as bv8) == 0xEF
  {
  }

  /** What a send changes besides the descriptor it serves: a TD that leaves its queue goes to the front of the done list,
      and bit 4 is set. */
  lemma {:induction false} SendRetires(h: Hcd, kind: ListKind, r: Reply)
    requires SendAllowed(h, kind, true, r) && Selected(h, kind, true) < |ListOf(h, kind)|
    ensures
      var i, l := Selected(h, kind, true), if kind.Control? then h.control else h.bulk;
      var o, h' := Absorb(l[i], r), Send(h, kind, true, r);
      && (if kind.Control? then h'.control else h'.bulk) == l[i := o.epd]
      && (if kind.Control? then h'.bulk == h.bulk else h'.control == h.control) && h'.nextId == h.nextId
      && (if o.retired.Some? then h'.done == [o.retired.value.td] + h.done && h'.notify == h.notify | 16
          else h'.done == h.done && h'.notify == h.notify)
  {
    hide Absorb, PacketOf;
  }

  /** The TD at the front of the done list is completed: its URB is told whether an error happened, and the length it was
      given less what was left to move. An empty list clears bit 4. */
  lemma {:induction false} DoneCompletes(h: Hcd)
    ensures
      var (h', c) := ProcessDone(h);
      if h.done == [] then c == None && h' == h.(notify := h.notify & 0xEF)
      else
        var td := h.done[0];
        && h' == h.(done := h.done[1..]) && c.Some? && c.value.td == td
        && (c.value.status <==> td.errorCount > 0) && c.value.length == td.urbLength - |td.buffer| + td.pos
  {
    Complements();
  }

  /** hcd_wait_for_event: between two attempts the controller thread does something if and only if a notification bit is
      set; with a list head in hand it only sends. */
  lemma {:induction false} SleepsIff(s: State)
    ensures s.thread.Ready? ==> ((forall kind :: Next(s, CaptureStep(kind)) == s) <==> s.h.notify == 0)
    ensures s.thread.Ready? && s.h.notify == 0 ==> Next(s, DoneStep) == s
    ensures s.thread.Ready? ==> forall r :: Next(s, SendStep(r)) == s
    ensures s.thread.Captured? ==> Next(s, DoneStep) == s && forall kind :: Next(s, CaptureStep(kind)) == s
  {
    hide Link, Send, SendAllowed, ProcessDone;
    if s.thread.Ready? && s.h.notify != 0 {
      assert Next(s, CaptureStep(Control)).thread.Captured?;
    }
  }
}
