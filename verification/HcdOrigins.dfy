/** Every TD in the controller, queued, retired or completed, is the one that was linked under its identity. */
module HcdOrigins {
  import opened UsbTypes
  import opened HcdModel
  import opened HcdRuns

  /** The TDs linked so far, in order. */
  function LinkedTds(log: seq<Event>): seq<Td> {
    if log == [] then []
    else
      var ev := log[|log| - 1];
      LinkedTds(log[..|log| - 1]) + (if ev.Linked? then [ev.td] else [])
  }

  lemma {:induction false} LinkedGrow(log: seq<Event>, ev: Event)
    ensures LinkedTds(log + [ev]) == if ev.Linked? then LinkedTds(log) + [ev.td] else LinkedTds(log)
  {
    assert (log + [ev])[..|log|] == log;
  }

  predicate From(td: Td, linked: seq<Td>) {
    td.id < |linked| && var l := linked[td.id];
    td.urb == l.urb && td.urbLength == l.urbLength && td.pid == l.pid && |td.buffer| == |l.buffer|
  }

  predicate AllFrom(l: seq<Epd>, linked: seq<Td>) {
    forall i, j :: 0 <= i < |l| && 0 <= j < |l[i].queue| ==> From(l[i].queue[j], linked)
  }

  predicate OriginInv(s: State) {
    var linked := LinkedTds(s.log);
    && |linked| == s.h.nextId && (forall i :: 0 <= i < |linked| ==> linked[i].id == i)
    && AllFrom(s.h.control, linked) && AllFrom(s.h.bulk, linked)
    && (forall i :: 0 <= i < |s.h.done| ==> From(s.h.done[i], linked))
    && (forall i :: 0 <= i < |s.completed| ==> From(s.completed[i].td, linked))
  }

  lemma {:induction false} AbsorbFrom(e: Epd, r: Reply, linked: seq<Td>)
    requires EpdOk(e) && e.queue != [] && ReplyFits(PacketOf(e), r)
    requires forall j :: 0 <= j < |e.queue| ==> From(e.queue[j], linked)
    ensures
      var o := Absorb(e, r);
      && (forall j :: 0 <= j < |o.epd.queue| ==> From(o.epd.queue[j], linked))
      && (o.retired.Some? ==> From(o.retired.value.td, linked))
  {
  }

  lemma {:induction false} SendKeepsOrigin(s: State, r: Reply)
    requires OriginInv(s) && Enabled(s, SendStep(r))
    ensures OriginInv(DoSend(s, r))
  {
    hide Absorb, PacketOf, SetupAssertion, EpdOk, LinkedTds, From;
    var l := ListOf(s.h, s.thread.kind);
    var i := Selected(s.h, s.thread.kind, s.thread.headSeen);
    if i < |l| {
      LinkedGrow(s.log, Answered(s.thread.kind, l[i].addr, l[i].ep, r));
      AbsorbFrom(l[i], r, LinkedTds(s.log));
    } else {
      assert s.log + [] == s.log;
    }
  }

  lemma {:induction false} AllFromLonger(l: seq<Epd>, linked: seq<Td>, td: Td)
    requires AllFrom(l, linked)
    ensures AllFrom(l, linked + [td])
  {
    forall i, j | 0 <= i < |l| && 0 <= j < |l[i].queue| ensures From(l[i].queue[j], linked + [td]) {
      assert From(l[i].queue[j], linked);
    }
  }

  lemma {:induction false} LinkIntoFrom(l: seq<Epd>, addr: nat, ep: nat, mps: nat, td: Td, linked: seq<Td>)
    requires AllFrom(l, linked) && From(td, linked)
    ensures AllFrom(LinkInto(l, addr, ep, mps, td), linked)
  {
    hide From;
  }

  lemma {:induction false} LinkKeepsOrigin(s: State, req: LinkReq)
    requires OriginInv(s)
    ensures OriginInv(DoLink(s, req))
    ensures LinkedTds(DoLink(s, req).log) == LinkedTds(s.log) + [NewTd(s.h.nextId, req)]
  {
    hide LinkedTds, LinkInto, AllFrom;
    var td, linked := NewTd(s.h.nextId, req), LinkedTds(s.log);
    LinkedGrow(s.log, Linked(KindOf(req), req.addr, req.ep % 16, req.mps, td));
    AllFromLonger(s.h.control, linked, td);
    AllFromLonger(s.h.bulk, linked, td);
    LinkIntoFrom(ListOf(s.h, KindOf(req)), req.addr, req.ep % 16, req.mps, td, linked + [td]);
  }

  lemma {:induction false} RunOrigin(steps: seq<Step>)
    ensures OriginInv(Run(steps))
  {
    hide LinkedTds, From, Send, SendAllowed, Link, LinkAllowed;
    if steps == [] {
      assert OriginInv(Init()) by { InitOrigin(); }
    } else {
      var s, step := Run(steps[..|steps| - 1]), steps[|steps| - 1];
      RunOrigin(steps[..|steps| - 1]);
      if Enabled(s, step) {
        match step
        case LinkStep(req) => LinkKeepsOrigin(s, req);
        case CaptureStep(kind) =>
        case SendStep(r) => SendKeepsOrigin(s, r);
        case DoneStep =>
      }
    }
  }

  lemma {:induction false} InitOrigin()
    ensures OriginInv(Init())
  {
  }
}
