/** Laws of the submitting thread over every interleaving: the shape and order of control stages,
    and exactly one run of the done handler per command, with its own reply. */
module SubmitLaws {
  import opened UsbTypes
  import opened HcdModel
  import opened EpdTrack
  import H = HcdRuns
  import opened HcdConservation
  import opened HcdOrigins
  import opened HcdLocality
  import opened SubmitRuns

  /** The stages linked for command k, in order. */
  function InnerStages(linked: seq<Td>, k: nat): seq<Stage> {
    if linked == [] then []
    else
      var urb := linked[|linked| - 1].urb;
      InnerStages(linked[..|linked| - 1], k) + (if urb.Inner? && urb.cmd == k then [urb.stage] else [])
  }

  /** Section 8.5.3 of USB 2.0: SETUP, a data stage if wLength is positive, status. */
  function AllStages(c: Cmd): seq<Stage>
    requires IsControl(c)
  {
    [SetupStage] + (if WLength(c) > 0 then [DataStage] else []) + [StatusStage]
  }

  function StagesSoFar(s: Sys, k: nat): seq<Stage>
    requires k < |s.cmds| && IsControl(s.cmds[k])
  {
    if s.sub.Waiting? && s.sub.cmd == k then
      match s.sub.stage
      case SetupStage => [SetupStage]
      case DataStage => [SetupStage, DataStage]
      case StatusStage => AllStages(s.cmds[k])
    else AllStages(s.cmds[k])
  }

  /** A linked TD is the one its command calls for. */
  predicate Shaped(td: Td, id: nat, cmds: seq<Cmd>) {
    match td.urb
    case Outer(k) => k < |cmds| && !IsControl(cmds[k]) && td == NewTd(id, BulkReq(cmds[k], k))
    case Inner(k, st) => k < |cmds| && IsControl(cmds[k]) && td == NewTd(id, StageReq(cmds[k], k, st))
  }

  predicate WaitsFor(sub: Submitter, urb: UrbRef) {
    sub.Waiting? && urb == Inner(sub.cmd, sub.stage)
  }

  function RunCount(runs: seq<HandlerRun>, k: nat): nat {
    if runs == [] then 0 else RunCount(runs[..|runs| - 1], k) + (if runs[|runs| - 1].cmd == k then 1 else 0)
  }

  function CountUrb(cs: seq<Completion>, ref: UrbRef): nat {
    if cs == [] then 0 else CountUrb(cs[..|cs| - 1], ref) + (if cs[|cs| - 1].td.urb == ref then 1 else 0)
  }

  /** The length and buffer with which a command ends. */
  function ResultOf(cs: seq<Completion>, c: Cmd, k: nat): Option<(int, seq<byte>)> {
    var ref := if IsControl(c) then Inner(k, DataStage) else Outer(k);
    if IsControl(c) && WLength(c) == 0 then Some((0, c.data))
    else match Find(cs, ref)
      case Some(comp) => Some((comp.length, comp.td.buffer))
      case None => None
  }

  // ---------- the invariant, in parts ----------

  predicate SubmitterInv(s: Sys) {
    s.sub.Waiting? ==>
      && s.sub.cmd + 1 == |s.cmds| && IsControl(s.cmds[s.sub.cmd])
      && (s.sub.stage.DataStage? ==> WLength(s.cmds[s.sub.cmd]) > 0)
      && (!s.sub.stage.StatusStage? ==> s.sub.length == 0 && s.sub.data == s.cmds[s.sub.cmd].data)
  }

  predicate ShapeInv(linked: seq<Td>, s: Sys) {
    && (forall id :: 0 <= id < |linked| ==> Shaped(linked[id], id, s.cmds))
    && (forall k :: 0 <= k < |s.cmds| ==>
          InnerStages(linked, k) == if IsControl(s.cmds[k]) then StagesSoFar(s, k) else [])
  }

  /** No stage is linked before the TD of the previous one was completed: every control TD has been completed,
      except the one the submitting thread is waiting for. */
  predicate SequenceInv(linked: seq<Td>, cs: seq<Completion>, s: Sys) {
    forall id :: 0 <= id < |linked| && linked[id].urb.Inner? && !WaitsFor(s.sub, linked[id].urb) ==>
      Find(cs, linked[id].urb).Some?
  }

  predicate OutersInv(linked: seq<Td>, s: Sys) {
    && (forall a, b :: 0 <= a < b < |linked| && linked[a].urb.Outer? && linked[b].urb.Outer? ==>
          linked[a].urb.cmd < linked[b].urb.cmd)
    && (forall k :: 0 <= k < |s.cmds| && !IsControl(s.cmds[k]) ==> HasOuter(linked, k))
  }

  predicate HasOuter(linked: seq<Td>, k: nat) {
    exists id :: 0 <= id < |linked| && linked[id].urb == Outer(k)
  }

  ghost predicate RunsInv(cs: seq<Completion>, s: Sys) {
    && (forall k: nat :: RunCount(s.runs, k) ==
          if k >= |s.cmds| then 0
          else if IsControl(s.cmds[k]) then (if s.sub.Waiting? && s.sub.cmd == k then 0 else 1)
          else CountUrb(cs, Outer(k)))
    && (forall i :: 0 <= i < |s.runs| ==> RunOk(s.runs[i], cs, s.cmds))
    && (s.sub.Waiting? && s.sub.stage.StatusStage? && s.sub.cmd < |s.cmds| ==>
          ResultOf(cs, s.cmds[s.sub.cmd], s.sub.cmd) == Some((s.sub.length, s.sub.data)))
  }

  /** A run of the handler replies with its own command's fields and the command's result. */
  predicate RunOk(r: HandlerRun, cs: seq<Completion>, cmds: seq<Cmd>) {
    && r.cmd < |cmds|
    && var res := ResultOf(cs, cmds[r.cmd], r.cmd);
       res.Some? && r.ret == Ret(cmds[r.cmd], res.value.0, res.value.1)
  }

  ghost predicate SysInv(s: Sys) {
    var linked, cs := LinkedOf(s), Hs(s).completed;
    && SubmitterInv(s) && ShapeInv(linked, s) && SequenceInv(linked, cs, s) && OutersInv(linked, s) && RunsInv(cs, s)
  }

  // ---------- growth lemmas ----------

  lemma {:induction false} StagesGrow(linked: seq<Td>, td: Td, k: nat)
    ensures InnerStages(linked + [td], k) ==
            if td.urb.Inner? && td.urb.cmd == k then InnerStages(linked, k) + [td.urb.stage] else InnerStages(linked, k)
  {
    assert (linked + [td])[..|linked|] == linked;
  }

  lemma {:induction false} RunsGrow(runs: seq<HandlerRun>, r: HandlerRun, k: nat)
    ensures RunCount(runs + [r], k) == RunCount(runs, k) + (if r.cmd == k then 1 else 0)
  {
    assert (runs + [r])[..|runs|] == runs;
  }

  lemma {:induction false} CompletionsGrow(cs: seq<Completion>, c: Completion, ref: UrbRef)
    ensures CountUrb(cs + [c], ref) == CountUrb(cs, ref) + (if c.td.urb == ref then 1 else 0)
    ensures Find(cs + [c], ref) ==
            if Find(cs, ref).Some? then Find(cs, ref) else if c.td.urb == ref then Some(c) else None
  {
    assert (cs + [c])[..|cs|] == cs;
  }

  lemma {:induction false} NoneCounted(cs: seq<Completion>, ref: UrbRef)
    ensures Find(cs, ref).None? <==> CountUrb(cs, ref) == 0
    ensures Find(cs, ref).Some? ==> exists j :: 0 <= j < |cs| && cs[j].td.urb == ref
  {
    if cs != [] {
      NoneCounted(cs[..|cs| - 1], ref);
      if Find(cs[..|cs| - 1], ref).Some? {
        var j :| 0 <= j < |cs| - 1 && cs[..|cs| - 1][j].td.urb == ref;
        assert cs[j].td.urb == ref;
      }
    }
  }

  lemma {:induction false} ResultStays(cs: seq<Completion>, c: Completion, cmd: Cmd, k: nat)
    ensures ResultOf(cs, cmd, k).Some? ==> ResultOf(cs + [c], cmd, k) == ResultOf(cs, cmd, k)
  {
    CompletionsGrow(cs, c, Inner(k, DataStage));
    CompletionsGrow(cs, c, Outer(k));
  }

  // ---------- steps ----------

  lemma {:induction false} SubmitKeepsInv(s: Sys, c: Cmd)
    requires SysInv(s) && s.sub.Free?
    ensures SysInv(DoSubmit(s, c))
  {
    hide LinkedOf, Hs, LinkAllowed, InnerStages, RunCount, CountUrb, Find, IsControl;
    var k := |s.cmds|;
    var req := if IsControl(c) then StageReq(c, k, SetupStage) else BulkReq(c, k);
    if LinkAllowed(Hs(s).h, req) {
      var s' := DoSubmit(s, c);
      AfterLink(s, req);
      LinkedSame(s, req, s');
      var linked, cs := LinkedOf(s), Hs(s).completed;
      var td := NewTd(|linked|, req);
      assert LinkedOf(s') == linked + [td] && Hs(s').completed == cs;
      SubmitShape(linked, td, s, s', c);
      NoneSubmitted(linked, s);
      NotCompletedYet(s);
      SubmitRunsKept(cs, s, s', c);
      SubmitOuters(linked, td, s, s', c);
      forall id | 0 <= id < |linked + [td]| && (linked + [td])[id].urb.Inner? && !WaitsFor(s'.sub, (linked + [td])[id].urb)
        ensures Find(cs, (linked + [td])[id].urb).Some?
      {
        assert id < |linked|;
      }
    }
  }

  /** Fields beside the trace do not matter for the controller. */
  lemma {:induction false} LinkedSame(s: Sys, req: LinkReq, s': Sys)
    requires s'.trace == s.trace + [H.LinkStep(req)]
    ensures LinkedOf(s') == LinkedOf(Linked(s, req)) && Hs(s') == Hs(Linked(s, req))
  {
  }

  lemma {:induction false} NoneSubmitted(linked: seq<Td>, s: Sys)
    requires ShapeInv(linked, s)
    ensures forall id :: 0 <= id < |linked| ==> linked[id].urb.cmd < |s.cmds|
  {
    forall id | 0 <= id < |linked| ensures linked[id].urb.cmd < |s.cmds| {
      assert Shaped(linked[id], id, s.cmds);
    }
  }

  lemma {:induction false} NotCompletedYet(s: Sys)
    requires forall id :: 0 <= id < |LinkedOf(s)| ==> LinkedOf(s)[id].urb.cmd < |s.cmds|
    ensures CountUrb(Hs(s).completed, Outer(|s.cmds|)) == 0
  {
    var cs := Hs(s).completed;
    RunOrigin(s.trace);
    NoneCounted(cs, Outer(|s.cmds|));
    forall j | 0 <= j < |cs| ensures cs[j].td.urb != Outer(|s.cmds|) {
      assert From(cs[j].td, LinkedOf(s));
    }
  }

  lemma {:induction false} NoStagesYet(linked: seq<Td>, k: nat)
    requires forall id :: 0 <= id < |linked| ==> linked[id].urb.cmd < k
    ensures InnerStages(linked, k) == []
  {
    if linked != [] {
      NoStagesYet(linked[..|linked| - 1], k);
    }
  }

  lemma {:induction false} SubmitShape(linked: seq<Td>, td: Td, s: Sys, s': Sys, c: Cmd)
    requires ShapeInv(linked, s) && s.sub.Free? && s'.cmds == s.cmds + [c]
    requires
      if IsControl(c) then td == NewTd(|linked|, StageReq(c, |s.cmds|, SetupStage))
                           && s'.sub == Waiting(|s.cmds|, SetupStage, 0, c.data)
      else td == NewTd(|linked|, BulkReq(c, |s.cmds|)) && s'.sub == Free
    ensures ShapeInv(linked + [td], s')
  {
    hide InnerStages, IsControl;
    var linked' := linked + [td];
    NoneSubmitted(linked, s);
    NoStagesYet(linked, |s.cmds|);
    forall id | 0 <= id < |linked'| ensures Shaped(linked'[id], id, s'.cmds) {
      if id < |linked| {
        assert Shaped(linked[id], id, s.cmds);
        assert s'.cmds[linked[id].urb.cmd] == s.cmds[linked[id].urb.cmd];
      }
    }
    forall k | 0 <= k < |s'.cmds|
      ensures InnerStages(linked', k) == if IsControl(s'.cmds[k]) then StagesSoFar(s', k) else []
    {
      StagesGrow(linked, td, k);
      if k < |s.cmds| {
        assert s'.cmds[k] == s.cmds[k];
      }
    }
  }

  lemma {:induction false} SubmitOuters(linked: seq<Td>, td: Td, s: Sys, s': Sys, c: Cmd)
    requires OutersInv(linked, s) && s'.cmds == s.cmds + [c] && td.urb.cmd == |s.cmds| && (td.urb.Outer? <==> !IsControl(c))
    requires forall id :: 0 <= id < |linked| ==> linked[id].urb.cmd < |s.cmds|
    ensures OutersInv(linked + [td], s')
  {
    hide IsControl;
    var linked' := linked + [td];
    forall k | 0 <= k < |s'.cmds| && !IsControl(s'.cmds[k]) ensures HasOuter(linked', k) {
      if k < |s.cmds| {
        assert HasOuter(linked, k);
        var id :| 0 <= id < |linked| && linked[id].urb == Outer(k);
        assert linked'[id].urb == Outer(k);
      } else {
        assert linked'[|linked|].urb == Outer(k);
      }
    }
  }

  lemma {:induction false} SubmitRunsKept(cs: seq<Completion>, s: Sys, s': Sys, c: Cmd)
    requires RunsInv(cs, s) && s.sub.Free? && s'.cmds == s.cmds + [c] && s'.runs == s.runs
    requires if IsControl(c) then s'.sub == Waiting(|s.cmds|, SetupStage, 0, c.data) else s'.sub == Free
    requires !IsControl(c) ==> CountUrb(cs, Outer(|s.cmds|)) == 0
    ensures RunsInv(cs, s')
  {
    hide IsControl, RunCount, CountUrb, Find;
    forall i | 0 <= i < |s'.runs| ensures RunOk(s'.runs[i], cs, s'.cmds) {
      assert RunOk(s.runs[i], cs, s.cmds);
      assert s'.cmds[s.runs[i].cmd] == s.cmds[s.runs[i].cmd];
    }
  }

  /** urb_wait comes back and another stage is linked. */
  lemma {:induction false} ReturnLinks(s: Sys, comp: Completion)
    requires SysInv(s) && s.sub.Waiting? && !s.sub.stage.StatusStage?
    requires Find(Hs(s).completed, Inner(s.sub.cmd, s.sub.stage)) == Some(comp)
    ensures SysInv(DoReturn(s, comp))
  {
    hide LinkedOf, Hs, LinkAllowed, InnerStages, RunCount, CountUrb, Find, IsControl;
    var k, c := s.sub.cmd, s.cmds[s.sub.cmd];
    var req := StageReq(c, k, NextStage(c, s.sub.stage));
    if LinkAllowed(Hs(s).h, req) {
      var s' := DoReturn(s, comp);
      AfterLink(s, req);
      LinkedSame(s, req, s');
      var linked, cs := LinkedOf(s), Hs(s).completed;
      var td := NewTd(|linked|, req);
      ReturnShape(linked, td, s, s');
      ReturnOuters(linked, td, s, s');
      forall id | 0 <= id < |linked + [td]| && (linked + [td])[id].urb.Inner? && !WaitsFor(s'.sub, (linked + [td])[id].urb)
        ensures Find(cs, (linked + [td])[id].urb).Some?
      {
        if id < |linked| && WaitsFor(s.sub, linked[id].urb) {
          assert Find(cs, linked[id].urb) == Some(comp);
        }
      }
      assert RunsInv(cs, s');
    }
  }

  lemma {:induction false} ReturnShape(linked: seq<Td>, td: Td, s: Sys, s': Sys)
    requires ShapeInv(linked, s) && SubmitterInv(s) && s.sub.Waiting? && !s.sub.stage.StatusStage? && s'.cmds == s.cmds
    requires var k := s.sub.cmd; var c := s.cmds[k];
      td == NewTd(|linked|, StageReq(c, k, NextStage(c, s.sub.stage)))
      && s'.sub.Waiting? && s'.sub.cmd == k && s'.sub.stage == NextStage(c, s.sub.stage)
    ensures ShapeInv(linked + [td], s')
  {
    hide InnerStages, IsControl;
    var linked' := linked + [td];
    forall id | 0 <= id < |linked'| ensures Shaped(linked'[id], id, s'.cmds) {
      if id < |linked| {
        assert Shaped(linked[id], id, s.cmds);
      }
    }
    forall k | 0 <= k < |s'.cmds|
      ensures InnerStages(linked', k) == if IsControl(s'.cmds[k]) then StagesSoFar(s', k) else []
    {
      StagesGrow(linked, td, k);
    }
  }

  lemma {:induction false} ReturnOuters(linked: seq<Td>, td: Td, s: Sys, s': Sys)
    requires OutersInv(linked, s) && s'.cmds == s.cmds && td.urb.Inner?
    ensures OutersInv(linked + [td], s')
  {
    hide IsControl;
    forall k | 0 <= k < |s'.cmds| && !IsControl(s'.cmds[k]) ensures HasOuter(linked + [td], k) {
      assert HasOuter(linked, k);
      var id :| 0 <= id < |linked| && linked[id].urb == Outer(k);
      assert (linked + [td])[id].urb == Outer(k);
    }
  }

  /** urb_wait of the status stage comes back: urb_done runs the handler. */
  lemma {:induction false} ReturnFinishes(s: Sys, comp: Completion)
    requires SysInv(s) && s.sub.Waiting? && s.sub.stage.StatusStage?
    requires Find(Hs(s).completed, Inner(s.sub.cmd, s.sub.stage)) == Some(comp)
    ensures SysInv(DoReturn(s, comp))
  {
    hide LinkedOf, Hs, InnerStages, RunCount, CountUrb, Find, IsControl;
    var s' := DoReturn(s, comp);
    SameTrace(s, s');
    var linked, cs := LinkedOf(s), Hs(s).completed;
    var r := s'.runs[|s.runs|];
    forall k: nat ensures RunCount(s'.runs, k) == RunCount(s.runs, k) + (if r.cmd == k then 1 else 0) {
      RunsGrow(s.runs, r, k);
    }
    assert RunsInv(cs, s');
    assert ShapeInv(linked, s');
    forall id | 0 <= id < |linked| && linked[id].urb.Inner? && !WaitsFor(s'.sub, linked[id].urb)
      ensures Find(cs, linked[id].urb).Some?
    {
      if WaitsFor(s.sub, linked[id].urb) {
        assert Find(cs, linked[id].urb) == Some(comp);
      }
    }
  }

  lemma {:induction false} SameTrace(s: Sys, s': Sys)
    requires s'.trace == s.trace
    ensures LinkedOf(s') == LinkedOf(s) && Hs(s') == Hs(s)
  {
  }

  // ---------- steps of the controller thread ----------

  /** Two completions never belong to the same bulk URB. */
  lemma {:induction false} OuterCompletedOnce(s: Sys, i: nat, j: nat, k: nat)
    requires i < j < |Hs(s).completed| && OutersInv(LinkedOf(s), s)
    requires Hs(s).completed[i].td.urb == Outer(k)
    ensures Hs(s).completed[j].td.urb != Outer(k)
  {
    var cs, linked := Hs(s).completed, LinkedOf(s);
    RunOrigin(s.trace);
    CompletedOnce(s.trace, i, j);
    assert From(cs[i].td, linked) && From(cs[j].td, linked);
    assert linked[cs[i].td.id].urb == Outer(k);
    if cs[i].td.id < cs[j].td.id {
      assert linked[cs[j].td.id].urb != Outer(k);
    } else {
      assert cs[j].td.id < cs[i].td.id;
      assert linked[cs[j].td.id].urb != Outer(k);
    }
  }

  lemma {:induction false} FirstOuter(s: Sys, k: nat)
    requires OutersInv(LinkedOf(s), s) && |Hs(s).completed| > 0
    requires Hs(s).completed[|Hs(s).completed| - 1].td.urb == Outer(k)
    ensures Find(Hs(s).completed[..|Hs(s).completed| - 1], Outer(k)).None?
  {
    var cs := Hs(s).completed;
    var cs0 := cs[..|cs| - 1];
    NoneCounted(cs0, Outer(k));
    forall i | 0 <= i < |cs0| ensures cs0[i].td.urb != Outer(k) {
      if cs[i].td.urb == Outer(k) {
        OuterCompletedOnce(s, i, |cs| - 1, k);
      }
    }
  }

  lemma {:induction false} FindKept(cs: seq<Completion>, cs': seq<Completion>, ref: UrbRef)
    requires cs' == cs || (|cs'| == |cs| + 1 && cs'[..|cs|] == cs)
    ensures Find(cs, ref).Some? ==> Find(cs', ref) == Find(cs, ref)
  {
    if cs' != cs {
      CompletionsGrow(cs, cs'[|cs|], ref);
      assert cs' == cs + [cs'[|cs|]];
    }
  }

  lemma {:induction false} TurnKeepsInv(s: Sys, step: H.Step)
    requires SysInv(s) && !step.LinkStep?
    ensures SysInv(DoTurn(s, step))
  {
    hide LinkedOf, Hs, InnerStages, RunCount, CountUrb, Find, IsControl, ResultOf;
    var s' := DoTurn(s, step);
    var s1 := s.(trace := s.trace + [step]);
    AfterTurn(s, step);
    SameTrace(s1, s');
    var linked, cs, cs' := LinkedOf(s), Hs(s).completed, Hs(s').completed;
    assert cs'[..|cs|] == cs;
    forall id | 0 <= id < |linked| && linked[id].urb.Inner? && !WaitsFor(s'.sub, linked[id].urb)
      ensures Find(cs', linked[id].urb).Some?
    {
      FindKept(cs, cs', linked[id].urb);
    }
    if |cs'| > |cs| {
      var comp := cs'[|cs|];
      assert cs' == cs + [comp];
      TurnCompletes(s, s', comp);
    } else {
      assert cs' == cs;
    }
  }

  /** s' is s with one more completion, and the run of the handler that goes with it. */
  predicate OneMore(s: Sys, s': Sys, comp: Completion) {
    && s'.cmds == s.cmds && s'.sub == s.sub && LinkedOf(s') == LinkedOf(s)
    && Hs(s').completed == Hs(s).completed + [comp]
    && s'.runs == (if comp.td.urb.Outer? && comp.td.urb.cmd < |s.cmds| then
                     s.runs + [HandlerRun(comp.td.urb.cmd, Ret(s.cmds[comp.td.urb.cmd], comp.length, comp.td.buffer))]
                   else s.runs)
  }

  /** One more completion: the handler runs if it is a bulk URB's. */
  lemma {:induction false} TurnCompletes(s: Sys, s': Sys, comp: Completion)
    requires SysInv(s) && OneMore(s, s', comp)
    ensures RunsInv(Hs(s').completed, s')
  {
    hide LinkedOf, Hs, InnerStages, IsControl, RunCount, CountUrb, Find, Shaped;
    var linked, cs := LinkedOf(s), Hs(s).completed;
    var cs' := cs + [comp];
    CompletedShaped(s, s', comp);
    if comp.td.urb.Outer? {
      var k := comp.td.urb.cmd;
      FirstOuter(s', k);
      assert cs'[..|cs'| - 1] == cs;
    }
    forall k: nat ensures RunCount(s'.runs, k) ==
      if k >= |s'.cmds| then 0
      else if IsControl(s'.cmds[k]) then (if s'.sub.Waiting? && s'.sub.cmd == k then 0 else 1)
      else CountUrb(cs', Outer(k))
    {
      CompletionsGrow(cs, comp, Outer(k));
      if |s'.runs| > |s.runs| {
        RunsGrow(s.runs, s'.runs[|s.runs|], k);
      }
    }
    forall i | 0 <= i < |s'.runs| ensures RunOk(s'.runs[i], cs', s'.cmds) {
      if i < |s.runs| {
        assert RunOk(s.runs[i], cs, s.cmds);
        ResultStays(cs, comp, s.cmds[s.runs[i].cmd], s.runs[i].cmd);
      } else {
        CompletionsGrow(cs, comp, comp.td.urb);
      }
    }
    if s.sub.Waiting? && s.sub.stage.StatusStage? && s.sub.cmd < |s.cmds| {
      ResultStays(cs, comp, s.cmds[s.sub.cmd], s.sub.cmd);
    }
  }

  /** A completed bulk URB belongs to a bulk command. */
  lemma {:induction false} CompletedShaped(s: Sys, s': Sys, comp: Completion)
    requires SysInv(s) && LinkedOf(s') == LinkedOf(s) && Hs(s').completed == Hs(s).completed + [comp]
    ensures comp.td.urb.Outer? ==> comp.td.urb.cmd < |s.cmds| && !IsControl(s.cmds[comp.td.urb.cmd])
  {
    hide LinkedOf, IsControl;
    RunOrigin(s'.trace);
    var cs' := Hs(s').completed;
    assert cs'[|cs'| - 1] == comp;
    CompletionFrom(s', |cs'| - 1);
    assert Shaped(LinkedOf(s)[comp.td.id], comp.td.id, s.cmds);
  }

  lemma {:induction false} CompletionFrom(s: Sys, i: nat)
    requires i < |Hs(s).completed|
    ensures var td := Hs(s).completed[i].td; td.id < |LinkedOf(s)| && LinkedOf(s)[td.id].urb == td.urb
  {
    RunOrigin(s.trace);
    assert From(Hs(s).completed[i].td, LinkedOf(s));
  }

  // ---------- every run ----------

  lemma {:induction false} RunKeepsInv(steps: seq<SysStep>)
    ensures SysInv(Run(steps))
  {
    hide SysInv, DoSubmit, DoReturn, DoTurn;
    if steps == [] {
      StartInv();
    } else {
      var s, step := Run(steps[..|steps| - 1]), steps[|steps| - 1];
      RunKeepsInv(steps[..|steps| - 1]);
      match step
      case Submit(c) =>
        if s.sub.Free? {
          SubmitKeepsInv(s, c);
        }
      case Return =>
        if s.sub.Waiting? && s.sub.cmd < |s.cmds| && IsControl(s.cmds[s.sub.cmd]) {
          var comp := Find(Hs(s).completed, Inner(s.sub.cmd, s.sub.stage));
          if comp.Some? {
            if s.sub.stage.StatusStage? {
              ReturnFinishes(s, comp.value);
            } else {
              ReturnLinks(s, comp.value);
            }
          }
        }
      case Turn(h) =>
        if !h.LinkStep? {
          TurnKeepsInv(s, h);
        }
    }
  }

  lemma {:induction false} StartInv()
    ensures SysInv(Sys([], [], Free, []))
  {
    assert LinkedOf(Sys([], [], Free, [])) == [];
    assert Hs(Sys([], [], Free, [])).completed == [];
  }

  // ---------- the laws ----------

  /** urb->submit.setup.as_int != 0, byte by byte. */
  lemma {:induction false} ControlIffNotZero(c: Cmd)
    ensures IsControl(c) <==> |c.setup| == 8 && c.setup != [0, 0, 0, 0, 0, 0, 0, 0]
  {
    if |c.setup| == 8 && !IsControl(c) {
      assert c.setup == [0, 0, 0, 0, 0, 0, 0, 0];
    }
  }

  lemma {:induction false} TopBit(b: byte)
    ensures b >= 0x80 <==> (b as bv8) & 0x80 != 0
  {
  }

  /** Every control command gets its stages in the order of section 8.5.3 of USB 2.0, a data stage exactly if one of the
      last two setup bytes is not zero: all of them once the submitting thread has gone on, a prefix while it waits. Each
      stage has its own packet kind, toggle and bytes; bit 7 of the first setup byte is the direction of the data stage,
      and the status stage goes the other way. */
  lemma {:induction false} ControlShape(steps: seq<SysStep>, k: nat, id: nat)
    requires k < |Run(steps).cmds|
    requires |Run(steps).cmds[k].setup| == 8 && Run(steps).cmds[k].setup != [0, 0, 0, 0, 0, 0, 0, 0]
    ensures
      var s := Run(steps);
      var c := s.cmds[k];
      var all :=
        if c.setup[6] != 0 || c.setup[7] != 0 then [SetupStage, DataStage, StatusStage] else [SetupStage, StatusStage];
      && InnerStages(LinkedOf(s), k) <= all
      && (s.sub.Waiting? && s.sub.cmd == k ==>
            var sofar := InnerStages(LinkedOf(s), k); sofar != [] && sofar[|sofar| - 1] == s.sub.stage)
      && (!(s.sub.Waiting? && s.sub.cmd == k) ==> InnerStages(LinkedOf(s), k) == all)
    ensures
      var s := Run(steps);
      var c := s.cmds[k];
      id < |LinkedOf(s)| && LinkedOf(s)[id].urb.cmd == k ==>
        var td := LinkedOf(s)[id];
        var toHost := (c.setup[0] as bv8) & 0x80 != 0;
        && td.urb.Inner? && td.pos == 0 && td.urbLength == |td.buffer|
        && match td.urb.stage
           case SetupStage => td.pid == Setup && td.buffer == c.setup && td.toggle == 0
           case DataStage => td.pid == (if toHost then In else Out) && td.buffer == c.data && td.toggle == 1
           case StatusStage => td.pid == (if toHost then Out else In) && td.buffer == [] && td.toggle == 1
  {
    hide LinkedOf, InnerStages, Run, IsControl, ShapeInv, RunsInv, SequenceInv, OutersInv;
    RunKeepsInv(steps);
    var s := Run(steps);
    StagesInOrder(s, k);
    if id < |LinkedOf(s)| && LinkedOf(s)[id].urb.cmd == k {
      StageTd(s, k, id);
    }
  }

  lemma {:induction false} StagesInOrder(s: Sys, k: nat)
    requires k < |s.cmds| && |s.cmds[k].setup| == 8 && s.cmds[k].setup != [0, 0, 0, 0, 0, 0, 0, 0]
    requires SubmitterInv(s) && ShapeInv(LinkedOf(s), s)
    ensures
      var c, sofar := s.cmds[k], InnerStages(LinkedOf(s), k);
      var all :=
        if c.setup[6] != 0 || c.setup[7] != 0 then [SetupStage, DataStage, StatusStage] else [SetupStage, StatusStage];
      && sofar <= all
      && (s.sub.Waiting? && s.sub.cmd == k ==> sofar != [] && sofar[|sofar| - 1] == s.sub.stage)
      && (!(s.sub.Waiting? && s.sub.cmd == k) ==> sofar == all)
  {
    hide LinkedOf, InnerStages, IsControl, Shaped;
    ControlIffNotZero(s.cmds[k]);
  }

  lemma {:induction false} StageTd(s: Sys, k: nat, id: nat)
    requires k < |s.cmds| && |s.cmds[k].setup| == 8 && s.cmds[k].setup != [0, 0, 0, 0, 0, 0, 0, 0]
    requires ShapeInv(LinkedOf(s), s) && id < |LinkedOf(s)| && LinkedOf(s)[id].urb.cmd == k
    ensures
      var c, td := s.cmds[k], LinkedOf(s)[id];
      var toHost := (c.setup[0] as bv8) & 0x80 != 0;
      && td.urb.Inner? && td.pos == 0 && td.urbLength == |td.buffer|
      && match td.urb.stage
         case SetupStage => td.pid == Setup && td.buffer == c.setup && td.toggle == 0
         case DataStage => td.pid == (if toHost then In else Out) && td.buffer == c.data && td.toggle == 1
         case StatusStage => td.pid == (if toHost then Out else In) && td.buffer == [] && td.toggle == 1
  {
    hide LinkedOf, InnerStages, IsControl;
    ControlIffNotZero(s.cmds[k]);
    TopBit(s.cmds[k].setup[0]);
    assert Shaped(LinkedOf(s)[id], id, s.cmds);
  }

  /** SET_INTERFACE, as system_loop sends it: a SETUP and an IN status stage. */
  lemma {:induction false} SetInterfaceShape(steps: seq<SysStep>, k: nat, id: nat)
    requires k < |Run(steps).cmds| && Run(steps).cmds[k].setup == [0x01, 0x0B, 0, 0, 0, 0, 0, 0]
    requires id < |LinkedOf(Run(steps))| && LinkedOf(Run(steps))[id].urb.cmd == k
    ensures
      var td := LinkedOf(Run(steps))[id];
      || (td.urb == Inner(k, SetupStage) && td.pid == Setup && td.buffer == [0x01, 0x0B, 0, 0, 0, 0, 0, 0])
      || (td.urb == Inner(k, StatusStage) && td.pid == In && td.buffer == [])
  {
    hide LinkedOf, InnerStages, Run;
    ControlShape(steps, k, id);
    assert (0x01 as bv8) & 0x80 == 0;
    NoDataStage(steps, k, id);
  }

  lemma {:induction false} NoDataStage(steps: seq<SysStep>, k: nat, id: nat)
    requires k < |Run(steps).cmds| && Run(steps).cmds[k].setup == [0x01, 0x0B, 0, 0, 0, 0, 0, 0]
    requires id < |LinkedOf(Run(steps))| && LinkedOf(Run(steps))[id].urb.cmd == k
    ensures LinkedOf(Run(steps))[id].urb != Inner(k, DataStage)
  {
    hide LinkedOf, Run;
    ControlShape(steps, k, id);
    StageListed(LinkedOf(Run(steps)), id, k);
  }

  lemma {:induction false} StageListed(linked: seq<Td>, id: nat, k: nat)
    requires id < |linked| && linked[id].urb.Inner? && linked[id].urb.cmd == k
    ensures linked[id].urb.stage in InnerStages(linked, k)
    decreases |linked|
  {
    if id < |linked| - 1 {
      StageListed(linked[..|linked| - 1], id, k);
    }
  }

  /** No stage is linked before the previous TD was completed: whatever the controller thread and the device do,
      at most one control TD is not yet completed, the one the submitting thread waits for. */
  lemma {:induction false} OneStageAtATime(steps: seq<SysStep>, a: nat, b: nat)
    requires a < |LinkedOf(Run(steps))| && b < |LinkedOf(Run(steps))|
    requires LinkedOf(Run(steps))[a].urb.Inner? && LinkedOf(Run(steps))[b].urb.Inner?
    requires Find(Hs(Run(steps)).completed, LinkedOf(Run(steps))[a].urb).None?
    requires Find(Hs(Run(steps)).completed, LinkedOf(Run(steps))[b].urb).None?
    ensures LinkedOf(Run(steps))[a].urb == LinkedOf(Run(steps))[b].urb
    ensures WaitsFor(Run(steps).sub, LinkedOf(Run(steps))[a].urb)
  {
    hide LinkedOf, Run, Find, ShapeInv, RunsInv, OutersInv;
    RunKeepsInv(steps);
    var s := Run(steps);
    assert SequenceInv(LinkedOf(s), Hs(s).completed, s);
  }

  /** Every completion of a TD is counted under the URB it was linked for. */
  lemma {:induction false} FreedIsCount(s: Sys, cs: seq<Completion>, id: nat, k: nat)
    requires OutersInv(LinkedOf(s), s) && id < |LinkedOf(s)| && LinkedOf(s)[id].urb == Outer(k)
    requires forall i :: 0 <= i < |cs| ==> From(cs[i].td, LinkedOf(s))
    ensures FreedIds(cs)[id] == CountUrb(cs, Outer(k))
  {
    var linked := LinkedOf(s);
    if cs != [] {
      var c := cs[|cs| - 1];
      FreedIsCount(s, cs[..|cs| - 1], id, k);
      FreedAppend(cs[..|cs| - 1], c);
      assert cs == cs[..|cs| - 1] + [c];
      assert From(c.td, linked);
      assert c.td.urb == Outer(k) <==> c.td.id == id;
    }
  }

  /** Exactly once, bulk path: the runs of the done handler of a bulk command and its TD still in the controller add up
      to one. So the handler has run once when the TD has retired and been processed, and never twice. */
  lemma {:induction false} BulkHandlerOnce(steps: seq<SysStep>, k: nat) returns (id: nat)
    requires k < |Run(steps).cmds| && !IsControl(Run(steps).cmds[k])
    ensures
      var s := Run(steps);
      var h := Hs(s).h;
      && id < |LinkedOf(s)| && LinkedOf(s)[id].urb == Outer(k)
      && ListIds(h.control)[id] + ListIds(h.bulk)[id] + IdsOf(h.done)[id] + RunCount(s.runs, k) == 1
  {
    hide LinkedOf, InnerStages, IsControl, RunCount, ShapeInv, SequenceInv, SubmitRuns.Run;
    RunKeepsInv(steps);
    var s := Run(steps);
    var linked := LinkedOf(s);
    assert OutersInv(linked, s) && RunsInv(Hs(s).completed, s);
    assert HasOuter(linked, k);
    id :| 0 <= id < |linked| && linked[id].urb == Outer(k);
    RunOrigin(s.trace);
    forall i | 0 <= i < |Hs(s).completed| ensures From(Hs(s).completed[i].td, linked) {
      CompletionOrigin(s, i);
    }
    FreedIsCount(s, Hs(s).completed, id, k);
    Conservation(s.trace, id);
    LinkedCount(s);
  }

  lemma {:induction false} CompletionOrigin(s: Sys, i: nat)
    requires i < |Hs(s).completed|
    ensures From(Hs(s).completed[i].td, LinkedOf(s))
  {
    RunOrigin(s.trace);
  }

  lemma {:induction false} LinkedCount(s: Sys)
    ensures |LinkedOf(s)| == Hs(s).h.nextId
  {
    RunOrigin(s.trace);
  }

  /** Exactly once, control path: the handler has not run while the submitting thread is in the command's stages,
      and has run once after. */
  lemma {:induction false} ControlHandlerOnce(steps: seq<SysStep>, k: nat)
    requires k < |Run(steps).cmds| && IsControl(Run(steps).cmds[k])
    ensures RunCount(Run(steps).runs, k) == if Run(steps).sub.Waiting? && Run(steps).sub.cmd == k then 0 else 1
  {
    RunKeepsInv(steps);
  }

  /** Each reply carries its own command's seqnum, devid, direction and endpoint, and as actual_length the bytes of the
      acknowledged packets of the TD that carried the data (0 for a control transfer without data stage). */
  lemma {:induction false} ReplyExact(steps: seq<SysStep>, i: nat)
    requires i < |Run(steps).runs|
    ensures Run(steps).runs[i].cmd < |Run(steps).cmds|
    ensures
      var s := Run(steps);
      var ret := s.runs[i].ret;
      var k := s.runs[i].cmd;
      var c := s.cmds[k];
      && ret.seqnum == c.seqnum && ret.devid == c.devid && ret.direction == c.direction && ret.ep == c.ep
      && ret.status == 0 && ResultOf(Hs(s).completed, c, k).Some?
      && (c.direction == 0 ==> ret.payload == [])
      && (IsControl(c) && WLength(c) == 0 ==> ret.actualLength == 0 && ret.payload == [])
      && (!(IsControl(c) && WLength(c) == 0) ==>
            var comp := Find(Hs(s).completed, if IsControl(c) then Inner(k, DataStage) else Outer(k));
            && comp.Some? && ret.actualLength == AckedLen(comp.value.td.trace) <= |c.data|
            && |comp.value.td.buffer| == |c.data|
            && (c.direction != 0 ==> ret.payload == AckedBytes(comp.value.td.trace)))
  {
    hide LinkedOf, InnerStages, SubmitRuns.Run, RunCount, ShapeInv, SequenceInv, OutersInv;
    RunKeepsInv(steps);
    var s := Run(steps);
    assert RunOk(s.runs[i], Hs(s).completed, s.cmds);
    var k := s.runs[i].cmd;
    var c := s.cmds[k];
    if !(IsControl(c) && WLength(c) == 0) {
      FoundExact(s, if IsControl(c) then Inner(k, DataStage) else Outer(k));
      assert SysInv(s);
      FoundShaped(s, if IsControl(c) then Inner(k, DataStage) else Outer(k));
    }
  }

  /** What Find returns is a completion of that URB, with the exact length. */
  lemma {:induction false} FoundExact(s: Sys, ref: UrbRef)
    requires Find(Hs(s).completed, ref).Some?
    ensures
      var comp := Find(Hs(s).completed, ref).value;
      && comp.td.urb == ref && comp == Complete(comp.td) && TdExact(comp.td)
      && comp.td.id < |LinkedOf(s)| && LinkedOf(s)[comp.td.id].urb == ref
      && comp.td.urbLength == LinkedOf(s)[comp.td.id].urbLength
      && |comp.td.buffer| == |LinkedOf(s)[comp.td.id].buffer|
  {
    hide TdExact;
    var j := FoundAt(Hs(s).completed, ref);
    RunExact(s.trace);
    CompletionOrigin(s, j);
  }

  lemma {:induction false} FoundAt(cs: seq<Completion>, ref: UrbRef) returns (j: nat)
    requires Find(cs, ref).Some?
    ensures j < |cs| && cs[j] == Find(cs, ref).value && cs[j].td.urb == ref
  {
    if Find(cs[..|cs| - 1], ref).Some? {
      j := FoundAt(cs[..|cs| - 1], ref);
    } else {
      j := |cs| - 1;
    }
  }

  /** A completed URB of a command's data has the command's buffer length. */
  lemma {:induction false} FoundShaped(s: Sys, ref: UrbRef)
    requires SysInv(s) && Find(Hs(s).completed, ref).Some? && (ref.Outer? || ref.stage.DataStage?)
    ensures
      var td := Find(Hs(s).completed, ref).value.td;
      ref.cmd < |s.cmds| && td.urbLength == |td.buffer| == |s.cmds[ref.cmd].data|
  {
    hide LinkedOf, IsControl, InnerStages, TdExact;
    FoundExact(s, ref);
    var td := Find(Hs(s).completed, ref).value.td;
    assert Shaped(LinkedOf(s)[td.id], td.id, s.cmds);
  }
}
