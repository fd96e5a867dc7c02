/** Each endpoint descriptor of the controller lives through its own track, whatever the other endpoints do;
    so the lemmas about tracks hold for every endpoint of every run, and every completion is exact. */
module HcdLocality {
  import opened UsbTypes
  import opened HcdModel
  import opened EpdTrack
  import opened EpdToggles
  import opened EpdWork
  import opened HcdRuns

  predicate Concerns(ev: Event, kind: ListKind, addr: nat, ep: nat) {
    ev.kind == kind && ev.addr == addr && ev.ep == ep
  }

  /** What happened to one endpoint: the TDs linked to it and the replies to its packets. */
  function OpsOf(log: seq<Event>, kind: ListKind, addr: nat, ep: nat): seq<EpdOp> {
    if log == [] then []
    else
      var ev := log[|log| - 1];
      var ops := OpsOf(log[..|log| - 1], kind, addr, ep);
      if !Concerns(ev, kind, addr, ep) then ops
      else match ev
        case Linked(_, _, _, _, td) => ops + [LinkOp(td)]
        case Answered(_, _, _, r) => ops + [AnswerOp(r)]
  }

  /** The packet size given by the first link to an endpoint. */
  function FirstMps(log: seq<Event>, kind: ListKind, addr: nat, ep: nat): Option<nat> {
    if log == [] then None
    else
      var ev := log[|log| - 1];
      var earlier := FirstMps(log[..|log| - 1], kind, addr, ep);
      if earlier.None? && ev.Linked? && Concerns(ev, kind, addr, ep) then Some(ev.mps) else earlier
  }

  lemma {:induction false} LogGrows(log: seq<Event>, ev: Event, kind: ListKind, addr: nat, ep: nat)
    ensures OpsOf(log + [ev], kind, addr, ep) ==
      var ops := OpsOf(log, kind, addr, ep);
      if !Concerns(ev, kind, addr, ep) then ops
      else ops + [if ev.Linked? then LinkOp(ev.td) else AnswerOp(ev.reply)]
    ensures FirstMps(log + [ev], kind, addr, ep) ==
      var earlier := FirstMps(log, kind, addr, ep);
      if earlier.None? && ev.Linked? && Concerns(ev, kind, addr, ep) then Some(ev.mps) else earlier
  {
    assert (log + [ev])[..|log|] == log;
  }

  /** The track of an endpoint after a log. */
  function TrackOf(log: seq<Event>, kind: ListKind, e: Epd): Track {
    Replay(Start(e.addr, e.ep, e.mps), OpsOf(log, kind, e.addr, e.ep))
  }

  ghost predicate LocalEpd(log: seq<Event>, kind: ListKind, e: Epd) {
    && TrackOf(log, kind, e).epd == e
    && AllAllowed(Start(e.addr, e.ep, e.mps), OpsOf(log, kind, e.addr, e.ep))
    && FirstMps(log, kind, e.addr, e.ep) == Some(e.mps)
  }

  ghost predicate LocalList(log: seq<Event>, kind: ListKind, l: seq<Epd>) {
    && (forall i :: 0 <= i < |l| ==> LocalEpd(log, kind, l[i]))
    && (forall addr: nat, ep: nat :: FindFrom(l, addr, ep, 0) == |l| ==>
          OpsOf(log, kind, addr, ep) == [] && FirstMps(log, kind, addr, ep) == None)
  }

  ghost predicate LocalInv(s: State) {
    LocalList(s.log, Control, s.h.control) && LocalList(s.log, Bulk, s.h.bulk)
  }

  lemma {:induction false} ReplayGrows(start: Track, ops: seq<EpdOp>, op: EpdOp)
    ensures Replay(start, ops + [op]) == EpdTrack.Next(Replay(start, ops), op)
    ensures AllAllowed(start, ops) && Allowed(Replay(start, ops), op) ==> AllAllowed(start, ops + [op])
  {
    assert (ops + [op])[..|ops|] == ops;
  }

  /** An event that does not concern a list leaves it local. */
  lemma {:induction false} OtherList(log: seq<Event>, ev: Event, kind: ListKind, l: seq<Epd>)
    requires LocalList(log, kind, l) && ev.kind != kind
    ensures LocalList(log + [ev], kind, l)
  {
    hide Replay, AllAllowed, OpsOf, FirstMps;
    forall i | 0 <= i < |l| ensures LocalEpd(log + [ev], kind, l[i]) {
      assert LocalEpd(log, kind, l[i]);
      LogGrows(log, ev, kind, l[i].addr, l[i].ep);
    }
    forall addr: nat, ep: nat | FindFrom(l, addr, ep, 0) == |l|
      ensures OpsOf(log + [ev], kind, addr, ep) == [] && FirstMps(log + [ev], kind, addr, ep) == None
    {
      LogGrows(log, ev, kind, addr, ep);
    }
  }

  /** An event on endpoint i of a list advances that endpoint only. */
  lemma {:induction false} OneEndpoint(log: seq<Event>, ev: Event, kind: ListKind, l: seq<Epd>, i: nat, op: EpdOp)
    requires LocalList(log, kind, l) && UniqueKeys(l) && i < |l| && Concerns(ev, kind, l[i].addr, l[i].ep)
    requires op == if ev.Linked? then LinkOp(ev.td) else AnswerOp(ev.reply)
    requires Allowed(TrackOf(log, kind, l[i]), op)
    ensures LocalList(log + [ev], kind, l[i := EpdTrack.Next(TrackOf(log, kind, l[i]), op).epd])
  {
    hide Replay, AllAllowed, OpsOf, FirstMps, Absorb, EpdTrack.Allowed;
    var t := TrackOf(log, kind, l[i]);
    assert LocalEpd(log, kind, l[i]);
    var e' := EpdTrack.Next(t, op).epd;
    NextKeepsKey(t, op);
    var l' := l[i := e'];
    forall j | 0 <= j < |l| ensures LocalEpd(log + [ev], kind, l'[j]) {
      assert LocalEpd(log, kind, l[j]);
      LogGrows(log, ev, kind, l[j].addr, l[j].ep);
      if j == i {
        ReplayGrows(Start(l[i].addr, l[i].ep, l[i].mps), OpsOf(log, kind, l[i].addr, l[i].ep), op);
      } else {
        assert !Concerns(ev, kind, l[j].addr, l[j].ep);
      }
    }
    forall addr: nat, ep: nat | FindFrom(l', addr, ep, 0) == |l'|
      ensures OpsOf(log + [ev], kind, addr, ep) == [] && FirstMps(log + [ev], kind, addr, ep) == None
    {
      assert !(l'[i].addr == addr && l'[i].ep == ep);
      NotFound(l', l, addr, ep);
      LogGrows(log, ev, kind, addr, ep);
    }
  }

  lemma {:induction false} NotFound(l': seq<Epd>, l: seq<Epd>, addr: nat, ep: nat)
    requires |l| <= |l'| && FindFrom(l', addr, ep, 0) == |l'|
    requires forall j :: 0 <= j < |l| ==> l'[j].addr == l[j].addr && l'[j].ep == l[j].ep
    ensures FindFrom(l, addr, ep, 0) == |l|
  {
    forall j | 0 <= j < |l| ensures !(l[j].addr == addr && l[j].ep == ep) {
      assert !(l'[j].addr == addr && l'[j].ep == ep);
    }
  }

  /** The first link to an endpoint creates it. */
  lemma {:induction false} NewEndpoint(log: seq<Event>, ev: Event, kind: ListKind, l: seq<Epd>)
    requires LocalList(log, kind, l) && ev.Linked? && ev.kind == kind && EpdTrack.Fresh(ev.td)
    requires FindFrom(l, ev.addr, ev.ep, 0) == |l|
    ensures LocalList(log + [ev], kind, l + [Enqueue(NewEpd(ev.addr, ev.ep, ev.mps), ev.td)])
  {
    hide OpsOf, FirstMps, Absorb;
    var e := Enqueue(NewEpd(ev.addr, ev.ep, ev.mps), ev.td);
    var l' := l + [e];
    forall j | 0 <= j < |l'| ensures LocalEpd(log + [ev], kind, l'[j]) {
      LogGrows(log, ev, kind, l'[j].addr, l'[j].ep);
      if j < |l| {
        assert LocalEpd(log, kind, l[j]);
        assert !Concerns(ev, kind, l[j].addr, l[j].ep);
      } else {
        ReplayGrows(Start(e.addr, e.ep, e.mps), [], LinkOp(ev.td));
      }
    }
    forall addr: nat, ep: nat | FindFrom(l', addr, ep, 0) == |l'|
      ensures OpsOf(log + [ev], kind, addr, ep) == [] && FirstMps(log + [ev], kind, addr, ep) == None
    {
      NotFound(l', l, addr, ep);
      assert !(l'[|l|].addr == addr && l'[|l|].ep == ep);
      LogGrows(log, ev, kind, addr, ep);
    }
  }

  lemma {:induction false} LinkIsLocal(s: State, req: LinkReq)
    requires BasicInv(s) && LocalInv(s) && LinkAllowed(s.h, req)
    ensures LocalInv(DoLink(s, req))
  {
    hide Replay, OpsOf, FirstMps, LocalList;
    var kind := KindOf(req);
    var l := ListOf(s.h, kind);
    var td := NewTd(s.h.nextId, req);
    var ev := Linked(kind, req.addr, req.ep % 16, req.mps, td);
    var i := FindFrom(l, req.addr, req.ep % 16, 0);
    if i < |l| {
      LinkOneEndpoint(s, kind, i, ev);
    } else {
      NewEndpoint(s.log, ev, kind, l);
    }
    if kind.Control? {
      OtherList(s.log, ev, Bulk, s.h.bulk);
    } else {
      OtherList(s.log, ev, Control, s.h.control);
    }
  }

  lemma {:induction false} LinkOneEndpoint(s: State, kind: ListKind, i: nat, ev: Event)
    requires BasicInv(s) && LocalInv(s) && i < |ListOf(s.h, kind)|
    requires ev.Linked? && Concerns(ev, kind, ListOf(s.h, kind)[i].addr, ListOf(s.h, kind)[i].ep) && EpdTrack.Fresh(ev.td)
    ensures LocalList(s.log + [ev], kind, ListOf(s.h, kind)[i := Enqueue(ListOf(s.h, kind)[i], ev.td)])
  {
    hide Replay, AllAllowed, OpsOf, FirstMps;
    var l := ListOf(s.h, kind);
    assert LocalEpd(s.log, kind, l[i]);
    OneEndpoint(s.log, ev, kind, l, i, LinkOp(ev.td));
  }

  lemma {:induction false} SendIsLocal(s: State, r: Reply)
    requires BasicInv(s) && LocalInv(s) && HcdRuns.Enabled(s, SendStep(r))
    ensures LocalInv(DoSend(s, r))
  {
    hide Replay, OpsOf, FirstMps, LocalList, Absorb, PacketOf;
    var kind := s.thread.kind;
    var l := ListOf(s.h, kind);
    var i := Selected(s.h, kind, s.thread.headSeen);
    if i < |l| {
      var ev := Answered(kind, l[i].addr, l[i].ep, r);
      SendOneEndpoint(s, kind, i, r);
      if kind.Control? {
        OtherList(s.log, ev, Bulk, s.h.bulk);
      } else {
        OtherList(s.log, ev, Control, s.h.control);
      }
    } else {
      assert s.log + [] == s.log;
    }
  }

  lemma {:induction false} SendOneEndpoint(s: State, kind: ListKind, i: nat, r: Reply)
    requires BasicInv(s) && LocalInv(s) && i < |ListOf(s.h, kind)| && Eligible(ListOf(s.h, kind)[i])
    requires SetupAssertion(ListOf(s.h, kind)[i]) && ReplyFits(PacketOf(ListOf(s.h, kind)[i]), r)
    ensures
      var l := ListOf(s.h, kind);
      LocalList(s.log + [Answered(kind, l[i].addr, l[i].ep, r)], kind, l[i := Absorb(l[i], r).epd])
  {
    hide Replay, OpsOf, FirstMps, Absorb, PacketOf;
    var l := ListOf(s.h, kind);
    assert LocalEpd(s.log, kind, l[i]);
    OneEndpoint(s.log, Answered(kind, l[i].addr, l[i].ep, r), kind, l, i, AnswerOp(r));
  }

  lemma {:induction false} RunLocal(steps: seq<Step>)
    ensures LocalInv(Run(steps))
  {
    hide LocalList, Send, SendAllowed, Link, LinkAllowed;
    if steps == [] {
      InitLocal();
    } else {
      var s, step := Run(steps[..|steps| - 1]), steps[|steps| - 1];
      RunLocal(steps[..|steps| - 1]);
      RunBasic(steps[..|steps| - 1]);
      if HcdRuns.Enabled(s, step) {
        match step
        case LinkStep(req) => LinkIsLocal(s, req);
        case CaptureStep(kind) =>
        case SendStep(r) => SendIsLocal(s, r);
        case DoneStep =>
      }
    }
  }

  lemma {:induction false} InitLocal()
    ensures LocalInv(Init())
  {
  }

  /** Every endpoint descriptor of every run is the end of its own track, with the packet size of its first link;
      hence its TDs retire in link order, carry exact data, and alternate toggles. */
  lemma {:induction false} EveryEndpoint(steps: seq<Step>, kind: ListKind, i: nat)
    requires i < |ListOf(Run(steps).h, kind)|
    ensures
      var s := Run(steps);
      var e := ListOf(s.h, kind)[i];
      var t := TrackOf(s.log, kind, e);
      && t.epd == e && FirstMps(s.log, kind, e.addr, e.ep) == Some(e.mps)
      && AllAllowed(Start(e.addr, e.ep, e.mps), OpsOf(s.log, kind, e.addr, e.ep))
      && TrackInv(t)
      && (AllCarried(t.linked) && OddLosses(t.retired) == 0 ==> Alternates(AckedPids(t.wire)))
  {
    hide TrackInv, Alternates, AllCarried;
    RunLocal(steps);
    RunBasic(steps);
    var s := Run(steps);
    var e := ListOf(s.h, kind)[i];
    assert EpdOk(e) && LocalEpd(s.log, kind, e);
    ReplayInv(e.addr, e.ep, e.mps, OpsOf(s.log, kind, e.addr, e.ep));
    ToggleLaw(e.addr, e.ep, e.mps, OpsOf(s.log, kind, e.addr, e.ep));
  }

  /** The k-th TD to leave an endpoint is the k-th one linked to it. Its packets moved exactly the first `pos` bytes of
      its buffer (the submitted bytes for OUT); retired by ACK, an OUT TD has moved them all and an IN TD is full
      or ended on a short packet. */
  lemma {:induction false} RetiredData(steps: seq<Step>, kind: ListKind, i: nat, k: nat)
    requires i < |ListOf(Run(steps).h, kind)|
    requires k < |TrackOf(Run(steps).log, kind, ListOf(Run(steps).h, kind)[i]).retired|
    ensures
      var e := ListOf(Run(steps).h, kind)[i];
      var t := TrackOf(Run(steps).log, kind, e);
      && k < |t.linked|
      && var r, init := t.retired[k], t.linked[k];
      && r.td.id == init.id && r.td.urb == init.urb && |r.td.buffer| == |init.buffer|
      && r.td.pos == AckedLen(r.td.trace) <= |init.buffer|
      && r.td.buffer == AckedBytes(r.td.trace) + init.buffer[r.td.pos..]
      && (!init.pid.In? ==> AckedBytes(r.td.trace) == init.buffer[..r.td.pos])
      && (r.cause.ByAck? && !init.pid.In? ==> AckedBytes(r.td.trace) == init.buffer)
      && (r.cause.ByAck? && init.pid.In? && r.td.pos < |init.buffer| ==> EndsShort(r.td.trace, e.mps))
  {
    hide AckedBytes, AckedLen, Replay, OpsOf, Traces, Progress, CountsClosed;
    EveryEndpoint(steps, kind, i);
    var t := TrackOf(Run(steps).log, kind, ListOf(Run(steps).h, kind)[i]);
    var td := t.retired[k].td;
    assert Settled(t.retired[k], t.epd.mps) && Continues(td, t.linked[k]);
    assert td.buffer == td.buffer[..td.pos] + td.buffer[td.pos..];
  }

  /** A TD meets at most three ERRs. With a positive packet size an IN TD needs at most MaxPackets acknowledged packets,
      an OUT TD whose packets are accepted whole exactly that many to retire by ACK. */
  lemma {:induction false} BoundedWork(steps: seq<Step>, kind: ListKind, i: nat, k: nat)
    requires i < |ListOf(Run(steps).h, kind)|
    requires k < |TrackOf(Run(steps).log, kind, ListOf(Run(steps).h, kind)[i]).retired|
    ensures
      var e := ListOf(Run(steps).h, kind)[i];
      var r := TrackOf(Run(steps).log, kind, e).retired[k];
      var n := AckCount(r.td.trace);
      && ErrCount(r.td.trace) <= 3 && (r.cause.ByErr? <==> ErrCount(r.td.trace) == 3)
      && (e.mps >= 1 ==>
            var bound := MaxPackets(|r.td.buffer|, e.mps);
            && (r.td.pid.In? ==> n <= bound)
            && (r.td.pid.Out? && AllWhole(r.td.trace) ==> n <= bound && (r.cause.ByAck? ==> n == bound)))
  {
    hide Replay, OpsOf, Traces, Progress, MaxPackets, AckCount, ErrCount;
    EveryEndpoint(steps, kind, i);
    var t := TrackOf(Run(steps).log, kind, ListOf(Run(steps).h, kind)[i]);
    assert Settled(t.retired[k], t.epd.mps);
  }

  /** In every run the replies that are neither a NAK nor an empty acknowledged OUT or SETUP packet are bounded, for each
      TD, by three plus its size: so only those two can keep it from retiring. Also while it is queued it has met at most
      two ERRs and fewer ACKs than MaxPackets. */
  lemma {:induction false} OnlyNaksDelay(steps: seq<Step>, kind: ListKind, i: nat)
    requires i < |ListOf(Run(steps).h, kind)| && ListOf(Run(steps).h, kind)[i].mps >= 1
    ensures
      var e := ListOf(Run(steps).h, kind)[i];
      var t := TrackOf(Run(steps).log, kind, e);
      && (forall k :: 0 <= k < |t.retired| ==> WithinBudget(t.retired[k].td))
      && (e.queue != [] ==>
            var td := e.queue[0];
            && HasBudget(td) && ErrCount(td.trace) <= 2
            && (td.pid.In? || (td.pid.Out? && AllWhole(td.trace)) ==>
                  AckCount(td.trace) < MaxPackets(|td.buffer|, e.mps)))
  {
    hide Replay, OpsOf, Settled, Continues, Traces, HeadTrace, Progress, HasBudget, WithinBudget;
    EveryEndpoint(steps, kind, i);
    var e := ListOf(Run(steps).h, kind)[i];
    EndpointOk(steps, kind, i);
    ReplayWork(e.addr, e.ep, e.mps, OpsOf(Run(steps).log, kind, e.addr, e.ep));
    if e.queue != [] {
      HeadBounds(e.queue[0], e.mps);
    }
  }

  lemma {:induction false} EndpointOk(steps: seq<Step>, kind: ListKind, i: nat)
    requires i < |ListOf(Run(steps).h, kind)|
    ensures EpdOk(ListOf(Run(steps).h, kind)[i])
  {
    RunBasic(steps);
  }

  // ---------- exact completions ----------

  ghost predicate ExactInv(s: State) {
    && (forall i :: 0 <= i < |s.h.done| ==> TdExact(s.h.done[i]))
    && (forall i :: 0 <= i < |s.completed| ==> s.completed[i] == Complete(s.completed[i].td) && TdExact(s.completed[i].td))
  }

  lemma {:induction false} SendKeepsExact(s: State, r: Reply)
    requires BasicInv(s) && LocalInv(s) && ExactInv(s) && HcdRuns.Enabled(s, SendStep(r))
    ensures ExactInv(DoSend(s, r))
  {
    hide Absorb, PacketOf, TdExact, Replay, OpsOf, FirstMps, Progress, Continues;
    var l := ListOf(s.h, s.thread.kind);
    var i := Selected(s.h, s.thread.kind, s.thread.headSeen);
    if i < |l| {
      var e := l[i];
      assert LocalEpd(s.log, s.thread.kind, e);
      ReplayInv(e.addr, e.ep, e.mps, OpsOf(s.log, s.thread.kind, e.addr, e.ep));
      AbsorbHead(e, r);
    }
  }

  lemma {:induction false} RunExact(steps: seq<Step>)
    ensures ExactInv(Run(steps))
  {
    hide LocalInv, TdExact, Send, SendAllowed, LinkAllowed, LinkInto;
    if steps != [] {
      var s, step := Run(steps[..|steps| - 1]), steps[|steps| - 1];
      RunExact(steps[..|steps| - 1]);
      RunLocal(steps[..|steps| - 1]);
      RunBasic(steps[..|steps| - 1]);
      if HcdRuns.Enabled(s, step) && step.SendStep? {
        SendKeepsExact(s, step.reply);
      }
    }
  }

  /** The length reported for a URB is the sum of the bytes of its acknowledged packets, also after errors and stalls,
      for every TD linked with its URB's own buffer length; the status says whether there was an error at all. */
  lemma {:induction false} ReportedLength(steps: seq<Step>, i: nat)
    requires i < |Run(steps).completed|
    ensures
      var c := Run(steps).completed[i];
      (c.status <==> ErrCount(c.td.trace) > 0) &&
      (c.td.urbLength == |c.td.buffer| ==>
        && c.length == AckedLen(c.td.trace) && 0 <= c.length <= c.td.urbLength
        && c.td.buffer[..c.length] == AckedBytes(c.td.trace))
  {
    RunExact(steps);
  }
}
