/** The submitting thread (sys_urb_submit and the CMD_SUBMIT arm of accept_loop) against any behaviour of the host
    controller and the device: control stages in sequence, bulk TDs in the background, one done-handler run per command. */
module SubmitRuns {
  import opened UsbTypes
  import opened HcdModel
  import opened ControlStages
  import opened EpdTrack
  import H = HcdRuns
  import opened HcdConservation
  import opened HcdOrigins
  import HcdLocality

  /** A CMD_SUBMIT after byte-order conversion; `data` is the URB's buffer of buffer_length bytes. */
  datatype Cmd = Cmd(seqnum: nat, devid: nat, direction: nat, ep: nat, mps: nat, setup: seq<byte>, data: seq<byte>)

  /** The reply of on_urb_complete. */
  datatype RetSubmit = RetSubmit(seqnum: nat, devid: nat, direction: nat, ep: nat, status: nat, actualLength: int,
                                 payload: seq<byte>)

  /** urb->submit.setup.as_int != 0. */
  predicate IsControl(c: Cmd) {
    |c.setup| == SETUP_SIZE && exists i :: 0 <= i < SETUP_SIZE && c.setup[i] != 0
  }

  function WLength(c: Cmd): nat
    requires |c.setup| == SETUP_SIZE
  {
    LengthOf(c.setup)
  }

  predicate ToHost(c: Cmd)
    requires |c.setup| == SETUP_SIZE
  {
    DeviceToHost(c.setup)
  }

  function BulkReq(c: Cmd, k: nat): LinkReq {
    LinkReq(c.devid % 0x1_0000, c.ep, c.direction != 0, false, 2, c.mps, c.data, Outer(k), |c.data|)
  }

  function StageReq(c: Cmd, k: nat, st: Stage): LinkReq
    requires IsControl(c)
  {
    StageLinkOf(c.devid % 0x1_0000, c.ep, c.mps, c.setup, c.data, k, st)
  }

  function Ret(c: Cmd, length: int, data: seq<byte>): RetSubmit {
    RetSubmit(c.seqnum, c.devid, c.direction, c.ep, 0, length,
              if c.direction != 0 && 0 <= length <= |data| then data[..length] else [])
  }

  // ---------- the machine ----------

  /** Where the submitting thread is: free, or inside urb_wait of a stage of its latest command. */
  datatype Submitter = Free | Waiting(cmd: nat, stage: Stage, length: int, data: seq<byte>)

  datatype HandlerRun = HandlerRun(cmd: nat, ret: RetSubmit)

  /** `trace` are the steps of the controller so far, links included. */
  datatype Sys = Sys(trace: seq<H.Step>, cmds: seq<Cmd>, sub: Submitter, runs: seq<HandlerRun>)

  datatype SysStep = Submit(c: Cmd) | Return | Turn(step: H.Step)

  function Hs(s: Sys): H.State {
    H.Run(s.trace)
  }

  /** The first completion made for a URB. */
  function Find(cs: seq<Completion>, ref: UrbRef): Option<Completion> {
    if cs == [] then None
    else
      var earlier := Find(cs[..|cs| - 1], ref);
      if earlier.Some? then earlier
      else if cs[|cs| - 1].td.urb == ref then Some(cs[|cs| - 1]) else None
  }

  function Linked(s: Sys, req: LinkReq): Sys {
    s.(trace := s.trace + [H.LinkStep(req)])
  }

  function DoSubmit(s: Sys, c: Cmd): Sys {
    var k := |s.cmds|;
    var s1 := s.(cmds := s.cmds + [c]);
    if IsControl(c) then
      if !LinkAllowed(Hs(s).h, StageReq(c, k, SetupStage)) then s
      else Linked(s1, StageReq(c, k, SetupStage)).(sub := Waiting(k, SetupStage, 0, c.data))
    else
      if !LinkAllowed(Hs(s).h, BulkReq(c, k)) then s
      else Linked(s1, BulkReq(c, k))
  }

  /** The stage that follows. */
  function NextStage(c: Cmd, st: Stage): Stage
    requires IsControl(c)
  {
    if st.SetupStage? && WLength(c) > 0 then DataStage else StatusStage
  }

  /** urb_wait of a stage comes back: the next stage is linked, or urb_done runs the handler. */
  function DoReturn(s: Sys, comp: Completion): Sys
    requires s.sub.Waiting? && s.sub.cmd < |s.cmds| && IsControl(s.cmds[s.sub.cmd])
  {
    var k, st := s.sub.cmd, s.sub.stage;
    var c := s.cmds[k];
    var length := if st.DataStage? then comp.length else s.sub.length;
    var data := if st.DataStage? then comp.td.buffer else s.sub.data;
    if st.StatusStage? then s.(sub := Free, runs := s.runs + [HandlerRun(k, Ret(c, length, data))])
    else
      var req := StageReq(c, k, NextStage(c, st));
      if !LinkAllowed(Hs(s).h, req) then s
      else Linked(s, req).(sub := Waiting(k, NextStage(c, st), length, data))
  }

  /** A step of the controller thread. Completing an outer URB runs its handler inside urb_done. */
  function DoTurn(s: Sys, step: H.Step): Sys {
    var before, s1 := Hs(s), s.(trace := s.trace + [step]);
    var after := Hs(s1);
    if |after.completed| > |before.completed| then
      var comp := after.completed[|before.completed|];
      if comp.td.urb.Outer? && comp.td.urb.cmd < |s.cmds| then
        var k := comp.td.urb.cmd;
        s1.(runs := s.runs + [HandlerRun(k, Ret(s.cmds[k], comp.length, comp.td.buffer))])
      else s1
    else s1
  }

  function Next(s: Sys, step: SysStep): Sys {
    match step
    case Submit(c) => if s.sub.Free? then DoSubmit(s, c) else s
    case Return =>
      if s.sub.Waiting? && s.sub.cmd < |s.cmds| && IsControl(s.cmds[s.sub.cmd]) then
        var comp := Find(Hs(s).completed, Inner(s.sub.cmd, s.sub.stage));
        if comp.Some? then DoReturn(s, comp.value) else s
      else s
    case Turn(h) => if h.LinkStep? then s else DoTurn(s, h)
  }

  function Run(steps: seq<SysStep>): Sys {
    if steps == [] then Sys([], [], Free, []) else Next(Run(steps[..|steps| - 1]), steps[|steps| - 1])
  }

  // ---------- how the controller's state follows ----------

  lemma {:induction false} TraceGrows(trace: seq<H.Step>, step: H.Step)
    ensures H.Run(trace + [step]) == H.Next(H.Run(trace), step)
  {
    assert (trace + [step])[..|trace|] == trace;
  }

  function LinkedOf(s: Sys): seq<Td> {
    LinkedTds(Hs(s).log)
  }

  /** A link adds its TD and completes nothing. */
  lemma {:induction false} AfterLink(s: Sys, req: LinkReq)
    requires LinkAllowed(Hs(s).h, req)
    ensures LinkedOf(Linked(s, req)) == LinkedOf(s) + [NewTd(|LinkedOf(s)|, req)]
    ensures Hs(Linked(s, req)).completed == Hs(s).completed
  {
    hide OriginInv, H.Run;
    TraceGrows(s.trace, H.LinkStep(req));
    RunOrigin(s.trace);
    LinkKeepsOrigin(Hs(s), req);
    assert |LinkedOf(s)| == Hs(s).h.nextId by { OriginCount(Hs(s)); }
  }

  lemma {:induction false} OriginCount(s: H.State)
    requires OriginInv(s)
    ensures |LinkedTds(s.log)| == s.h.nextId
  {
  }

  /** A step of the controller thread links nothing, and completes at most one TD. */
  lemma {:induction false} AfterTurn(s: Sys, step: H.Step)
    requires !step.LinkStep?
    ensures
      var s1 := s.(trace := s.trace + [step]);
      && LinkedOf(s1) == LinkedOf(s) && Hs(s).completed <= Hs(s1).completed
      && |Hs(s1).completed| <= |Hs(s).completed| + 1
  {
    hide H.Run, LinkedTds, Send, SendAllowed;
    TraceGrows(s.trace, step);
    var h := Hs(s);
    if H.Enabled(h, step) && step.SendStep? {
      var l := ListOf(h.h, h.thread.kind);
      var i := Selected(h.h, h.thread.kind, h.thread.headSeen);
      if i < |l| {
        LinkedGrow(h.log, H.Answered(h.thread.kind, l[i].addr, l[i].ep, step.reply));
      } else {
        assert h.log + [] == h.log;
      }
    }
  }
}
