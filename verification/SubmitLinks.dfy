/** What each USB/IP command hands to the host controller, in terms of the command's own bytes: which TDs, of which kind,
    for which endpoint. */
module SubmitLinks {
  import opened UsbTypes
  import opened HcdModel
  import H = HcdRuns
  import opened HcdOrigins
  import opened SubmitRuns
  import opened SubmitLaws

  /** The link events so far, in order. */
  function LinkEvents(log: seq<H.Event>): seq<H.Event> {
    if log == [] then []
    else
      var ev := log[|log| - 1];
      LinkEvents(log[..|log| - 1]) + (if ev.Linked? then [ev] else [])
  }

  lemma {:induction false} EventsGrow(log: seq<H.Event>, ev: H.Event)
    ensures LinkEvents(log + [ev]) == if ev.Linked? then LinkEvents(log) + [ev] else LinkEvents(log)
  {
    assert (log + [ev])[..|log|] == log;
  }

  /** They are the links of the TDs. */
  lemma {:induction false} EventsAreTds(log: seq<H.Event>)
    ensures |LinkEvents(log)| == |LinkedTds(log)|
    ensures forall i :: 0 <= i < |LinkEvents(log)| ==>
      LinkEvents(log)[i].Linked? && LinkEvents(log)[i].td == LinkedTds(log)[i]
  {
    if log != [] {
      EventsAreTds(log[..|log| - 1]);
    }
  }

  /** The TD went to the endpoint its command names: the low half of devid as address, the low four bits of ep. */
  predicate Addressed(ev: H.Event, cmds: seq<Cmd>) {
    ev.Linked? && ev.td.urb.cmd < |cmds| &&
    var c := cmds[ev.td.urb.cmd];
    && ev.addr == c.devid % 0x1_0000 && ev.ep == c.ep % 16 && ev.mps == c.mps
    && (ev.kind.Control? <==> ev.td.pid.Setup? || c.ep % 16 == 0)
  }

  predicate AllAddressed(evs: seq<H.Event>, cmds: seq<Cmd>) {
    forall i :: 0 <= i < |evs| ==> Addressed(evs[i], cmds)
  }

  lemma {:induction false} LinkAddressed(s: Sys, req: LinkReq, s': Sys)
    requires AllAddressed(LinkEvents(Hs(s).log), s.cmds) && LinkAllowed(Hs(s).h, req) && s.cmds <= s'.cmds
    requires s'.trace == s.trace + [H.LinkStep(req)] && req.urb.cmd < |s'.cmds|
    requires var c := s'.cmds[req.urb.cmd]; req.addr == c.devid % 0x1_0000 && req.ep == c.ep && req.mps == c.mps
    ensures AllAddressed(LinkEvents(Hs(s').log), s'.cmds)
  {
    hide H.Run, LinkEvents, LinkAllowed;
    TraceGrows(s.trace, H.LinkStep(req));
    var h := Hs(s);
    var ev := H.Linked(KindOf(req), req.addr, req.ep % 16, req.mps, NewTd(h.h.nextId, req));
    assert Hs(s').log == h.log + [ev];
    EventsGrow(h.log, ev);
    forall i | 0 <= i < |LinkEvents(h.log)| ensures Addressed(LinkEvents(h.log)[i], s'.cmds) {
      assert Addressed(LinkEvents(h.log)[i], s.cmds);
    }
  }

  lemma {:induction false} TurnAddressed(s: Sys, step: H.Step)
    requires AllAddressed(LinkEvents(Hs(s).log), s.cmds) && !step.LinkStep?
    ensures DoTurn(s, step).cmds == s.cmds && AllAddressed(LinkEvents(Hs(DoTurn(s, step)).log), s.cmds)
  {
    hide H.Run, LinkEvents, Send, SendAllowed;
    TraceGrows(s.trace, step);
    var h := Hs(s);
    if H.Enabled(h, step) && step.SendStep? {
      var l := ListOf(h.h, h.thread.kind);
      var i := Selected(h.h, h.thread.kind, h.thread.headSeen);
      if i < |l| {
        EventsGrow(h.log, H.Answered(h.thread.kind, l[i].addr, l[i].ep, step.reply));
      } else {
        assert h.log + [] == h.log;
      }
    }
  }

  lemma {:induction false} RunAddressed(steps: seq<SysStep>)
    ensures AllAddressed(LinkEvents(Hs(Run(steps)).log), Run(steps).cmds)
  {
    hide Hs, LinkEvents, DoTurn, LinkAllowed, AllAddressed, IsControl, Find;
    if steps == [] {
      NothingLinked();
    } else {
      var s, step := Run(steps[..|steps| - 1]), steps[|steps| - 1];
      var s' := Run(steps);
      RunAddressed(steps[..|steps| - 1]);
      match step
      case Submit(c) =>
        var k := |s.cmds|;
        var req := if IsControl(c) then StageReq(c, k, SetupStage) else BulkReq(c, k);
        if s.sub.Free? && LinkAllowed(Hs(s).h, req) {
          LinkAddressed(s, req, s');
        }
      case Return => ReturnAddressed(s, s');
      case Turn(h) =>
        if !h.LinkStep? {
          TurnAddressed(s, h);
        }
    }
  }

  lemma {:induction false} NothingLinked()
    ensures AllAddressed(LinkEvents(Hs(Sys([], [], Free, [])).log), [])
  {
  }

  lemma {:induction false} ReturnAddressed(s: Sys, s': Sys)
    requires AllAddressed(LinkEvents(Hs(s).log), s.cmds) && s' == SubmitRuns.Next(s, Return)
    ensures AllAddressed(LinkEvents(Hs(s').log), s'.cmds)
  {
    hide LinkEvents, LinkAllowed, AllAddressed, IsControl, Find, H.Run;
    if s.sub.Waiting? && s.sub.cmd < |s.cmds| && IsControl(s.cmds[s.sub.cmd]) {
      var c := s.cmds[s.sub.cmd];
      var req := StageReq(c, s.sub.cmd, NextStage(c, s.sub.stage));
      if s'.trace != s.trace {
        LinkAddressed(s, req, s');
      }
    }
  }

  // ---------- the laws ----------

  /** Every TD is linked to the endpoint of its command: address `devid & 0xFFFF`, endpoint and packet size; it joins the
      control list exactly if it is a SETUP or the endpoint is 0. */
  lemma {:induction false} TdAddressed(steps: seq<SysStep>, id: nat)
    requires id < |LinkedOf(Run(steps))|
    ensures |LinkEvents(Hs(Run(steps)).log)| == |LinkedOf(Run(steps))|
    ensures
      var s := Run(steps);
      var ev := LinkEvents(Hs(s).log)[id];
      && ev.Linked? && ev.td == LinkedOf(s)[id] && ev.td.urb.cmd < |s.cmds|
      && var c := s.cmds[ev.td.urb.cmd];
         && ev.addr == c.devid % 65536 && ev.ep == c.ep % 16 && ev.mps == c.mps
         && (ev.kind.Control? <==> ev.td.pid.Setup? || c.ep % 16 == 0)
  {
    hide LinkEvents, Run;
    RunAddressed(steps);
    EventsAreTds(Hs(Run(steps)).log);
  }

  /** A command whose eight setup bytes are not all zero gets a SETUP TD with those bytes; any other command gets exactly one
      TD, of its own URB, in the direction of the command, with its bytes and "toggle from the endpoint". */
  lemma {:induction false} SubmittedAs(steps: seq<SysStep>, k: nat) returns (id: nat)
    requires k < |Run(steps).cmds|
    ensures
      var s := Run(steps);
      var c, linked := s.cmds[k], LinkedOf(s);
      && id < |linked| && linked[id].urb.cmd == k
      && (if |c.setup| == 8 && c.setup != [0, 0, 0, 0, 0, 0, 0, 0] then
            linked[id].pid == Setup && linked[id].urb == Inner(k, SetupStage) && linked[id].buffer == c.setup
          else
            var td := linked[id];
            && td.urb == Outer(k) && td.pid == (if c.direction != 0 then In else Out) && td.buffer == c.data && td.pos == 0
            && td.toggle == 2 && td.urbLength == |c.data|
            && forall j :: 0 <= j < |linked| && linked[j].urb.cmd == k ==> j == id)
  {
    hide LinkedOf, InnerStages, Run, IsControl, RunsInv, SequenceInv;
    RunKeepsInv(steps);
    var s := Run(steps);
    var c, linked := s.cmds[k], LinkedOf(s);
    ControlIffNotZero(c);
    assert ShapeInv(linked, s) && OutersInv(linked, s);
    if IsControl(c) {
      assert StagesSoFar(s, k)[0] == SetupStage;
      id := StageAt(linked, k, SetupStage);
      assert Shaped(linked[id], id, s.cmds);
    } else {
      assert HasOuter(linked, k);
      id :| 0 <= id < |linked| && linked[id].urb == Outer(k);
      assert Shaped(linked[id], id, s.cmds);
      forall j | 0 <= j < |linked| && linked[j].urb.cmd == k ensures j == id {
        assert Shaped(linked[j], j, s.cmds);
        assert linked[j].urb == Outer(k);
        OneOuter(linked, s, j, id);
      }
    }
  }

  lemma {:induction false} OneOuter(linked: seq<Td>, s: Sys, i: nat, j: nat)
    requires OutersInv(linked, s) && i < |linked| && j < |linked|
    requires linked[i].urb.Outer? && linked[j].urb == linked[i].urb
    ensures i == j
  {
  }

  lemma {:induction false} StageAt(linked: seq<Td>, k: nat, st: Stage) returns (id: nat)
    requires st in InnerStages(linked, k)
    ensures id < |linked| && linked[id].urb == Inner(k, st)
  {
    var urb := linked[|linked| - 1].urb;
    if urb == Inner(k, st) {
      id := |linked| - 1;
    } else {
      id := StageAt(linked[..|linked| - 1], k, st);
    }
  }

  /** A read of one byte on endpoint 1 of device 1 goes out as an IN TD. */
  lemma {:induction false} KeyRead(steps: seq<SysStep>, k: nat) returns (id: nat)
    requires k < |Run(steps).cmds|
    requires Run(steps).cmds[k] == Cmd(1, 0x1_0001, 1, 1, 10, [0, 0, 0, 0, 0, 0, 0, 0], [0])
    ensures id < |LinkedOf(Run(steps))| && |LinkEvents(Hs(Run(steps)).log)| == |LinkedOf(Run(steps))|
    ensures
      var ev := LinkEvents(Hs(Run(steps)).log)[id];
      ev.Linked? && ev.kind == Bulk && ev.addr == 1 && ev.ep == 1 && ev.mps == 10 && ev.td.pid == In && ev.td.buffer == [0]
  {
    hide LinkedOf, Run, LinkEvents, Hs;
    id := SubmittedAs(steps, k);
    TdAddressed(steps, id);
  }
}
