/** What sys_urb_submit reports, for any request from a system without TDs, whether or not the device plays along: it comes
    back exactly if every stage was completed, with the length and the buffer of the data stage. */
module SubmitCounts {
  import opened UsbTypes
  import opened HcdModel
  import opened HcdLoop
  import opened ControlStages
  import opened DeviceModel
  import opened FirmwareModel
  import opened ControlDevice
  import opened Lockstep
  import opened ControlTransfers
  import opened TdCount
  import opened ControlRead
  import opened Enumeration

  /** wLength is any number of two bytes, the low one first. */
  lemma {:induction false} LengthRoundTrip(setup: seq<byte>, n: nat)
    requires |setup| == 8 && n < 65536 && setup[6] == n % 256 && setup[7] == n / 256
    ensures LengthOf(setup) == n
  {
  }

  lemma {:induction false} StepCompletes(w: World, key: byte)
    ensures
      var w' := LoopStep(w, key);
      Tds(w'.h) + |w'.completed| == Tds(w.h) + |w.completed| && w.completed <= w'.completed
  {
    hide Tds, SendPacket, CanSend, ProcessDone;
    StepCounts(w, key);
    if w.h.notify != 0 && AttemptOf(w.phase).Sending? && CanSend(w, AttemptOf(w.phase).kind) {
      SendPacketCounts(w, AttemptOf(w.phase).kind, key);
    }
  }

  /** Without TDs nothing is completed. */
  lemma {:induction false} IdleCompletesNothing(w: World, n: nat, key: byte)
    requires Tds(w.h) == 0
    ensures Tds(Elapse(w, n, key).h) == 0 && Elapse(w, n, key).completed == w.completed
    decreases n
  {
    hide Tds, LoopStep;
    if n > 0 {
      StepCompletes(w, key);
      IdleCompletesNothing(LoopStep(w, key), n - 1, key);
    }
  }

  lemma {:induction false} AwaitCounts(w: World, n0: nat, fuel: nat, key: byte)
    requires |w.completed| >= n0 && Tds(w.h) + |w.completed| == n0 + 1
    ensures
      var w' := Await(w, n0, fuel, key);
      Tds(w'.h) + |w'.completed| == n0 + 1 && w.completed <= w'.completed
    decreases fuel
  {
    hide Tds, LoopStep;
    if |w.completed| == n0 && fuel > 0 {
      StepCompletes(w, key);
      AwaitCounts(LoopStep(w, key), n0, fuel - 1, key);
    }
  }

  /** A stage completes at most one TD; if it does, no TD is left. */
  lemma {:induction false} StageCounts(w: World, u: ControlUrb, st: Stage, gap: nat, t: Timing)
    requires UrbOk(u) && Tds(w.h) == 0
    ensures
      var w' := RunStage(w, u, st, gap, t);
      && w.completed <= w'.completed && |w'.completed| <= |w.completed| + 1
      && (|w'.completed| == |w.completed| + 1 ==> Tds(w'.h) == 0)
  {
    hide Tds, Await, Elapse, Link;
    IdleCompletesNothing(w, gap, t.key);
    var w0 := Elapse(w, gap, t.key);
    LinkCounts(w0.h, StageLink(u, st));
    AwaitCounts(LinkInWorld(w0, StageLink(u, st)), |w0.completed|, t.fuel, t.key);
  }

  /** A request has two stages, or three if one of the last two setup bytes is not zero. It comes back if and only if as many
      TDs were completed. Without data stage, or before it was completed, length and buffer are those of the start; after it
      they are those of its TD. */
  lemma {:induction false} SubmitReports(w: World, u: ControlUrb, t: Timing)
    requires UrbOk(u) && Tds(w.h) == 0
    ensures
      var s, n := Submit(w, u, t), |w.completed|;
      var stages := if u.setup[6] == 0 && u.setup[7] == 0 then 2 else 3;
      && w.completed <= s.w.completed && |s.w.completed| <= n + stages
      && (s.done <==> |s.w.completed| == n + stages)
      && (s.done ==> Tds(s.w.h) == 0)
      && if stages == 3 && |s.w.completed| >= n + 2 then
           s.length == s.w.completed[n + 1].length && s.data == s.w.completed[n + 1].td.buffer
         else
           s.length == 0 && s.data == u.data
  {
    hide Tds, RunStage;
    StageCounts(w, u, SetupStage, t.beforeSetup, t);
    var w1 := RunStage(w, u, SetupStage, t.beforeSetup, t);
    if |w1.completed| > |w.completed| {
      if WLength(u) == 0 {
        StageCounts(w1, u, StatusStage, t.beforeStatus, t);
      } else {
        StageCounts(w1, u, DataStage, t.beforeData, t);
        var w2 := RunStage(w1, u, DataStage, t.beforeData, t);
        if |w2.completed| > |w1.completed| {
          StageCounts(w2, u, StatusStage, t.beforeStatus, t);
        }
      }
    }
  }

  // ---------- the enumeration sequence ----------

  lemma {:induction false} ResetKeepsHost(w: World, key: byte)
    requires BoardOk(w.d)
    ensures ResetBus(w, key).h == w.h && ResetBus(w, key).completed == w.completed
  {
  }

  /** What every transfer of the sequence adds. */
  lemma {:induction false} ReadReports(w: World, addr: nat, mps: nat, kind: byte, length: byte, data: seq<byte>, t: Timing)
    requires Tds(w.h) == 0 && addr <= 127 && mps <= 1024 && length > 0
    ensures
      var s := Submit(w, Read(addr, mps, kind, length, data), t);
      w.completed <= s.w.completed && (s.done <==> |s.w.completed| == |w.completed| + 3) && (s.done ==> Tds(s.w.h) == 0)
  {
    hide Tds, Submit;
    SubmitReports(w, Read(addr, mps, kind, length, data), t);
  }

  lemma {:induction false} WriteReports(w: World, addr: nat, mps: nat, request: byte, value: byte, t: Timing)
    requires Tds(w.h) == 0 && addr <= 127 && mps <= 1024
    ensures
      var s := Submit(w, Write(addr, mps, request, value), t);
      w.completed <= s.w.completed && (s.done <==> |s.w.completed| == |w.completed| + 2) && (s.done ==> Tds(s.w.h) == 0)
  {
    hide Tds, Submit;
    SubmitReports(w, Write(addr, mps, request, value), t);
  }

  /** The first half, whatever the device does: it reports success only if its four transfers came back, eleven stages in
      all, and with the stages it has gone through otherwise. */
  lemma {:induction false} FirstHalfReports(w: World, devDsc: seq<byte>, cfgDsc: seq<byte>, ts: nat -> Timing)
    requires BoardOk(w.d) && Tds(w.h) == 0 && Sizes(devDsc, cfgDsc)
    ensures
      var g := FirstHalf(w, devDsc, cfgDsc, ts);
      w.completed <= g.w.completed &&
      (g.ok ==> Sizes(g.devDsc, g.cfgDsc) && Tds(g.w.h) == 0 && |g.w.completed| == |w.completed| + 11)
  {
    hide Tds, Submit, Read, Write, ResetBus, BoardOk;
    ResetKeepsHost(w, ts(0).key);
    var w0 := ResetBus(w, ts(0).key);
    ReadReports(w0, 0, 8, 1, 18, devDsc, ts(0));
    var s1 := Submit(w0, Read(0, 8, 1, 18, devDsc), ts(0));
    if s1.done && |s1.data| == 18 && BoardOk(s1.w.d) {
      ReadReports(s1.w, 0, s1.data[7], 2, 9, cfgDsc, ts(1));
      var s2 := Submit(s1.w, Read(0, s1.data[7], 2, 9, cfgDsc), ts(1));
      if s2.done && |s2.data| == 9 && BoardOk(s2.w.d) {
        ResetKeepsHost(s2.w, ts(2).key);
        var w2 := ResetBus(s2.w, ts(2).key);
        ReadReports(w2, 0, s1.data[7], 1, 18, s1.data, ts(2));
        var s3 := Submit(w2, Read(0, s1.data[7], 1, 18, s1.data), ts(2));
        if s3.done && |s3.data| == 18 {
          WriteReports(s3.w, 0, s3.data[7], SET_ADDRESS, 1, ts(3));
        }
      }
    }
  }

  /** The same of the second half: two descriptor reads, the whole configuration, with a data stage unless its length is
      zero, and SET_CONFIGURATION. */
  lemma {:induction false} SecondHalfReports(g: Gathered, ts: nat -> Timing)
    requires Tds(g.w.h) == 0 && Sizes(g.devDsc, g.cfgDsc)
    ensures
      var r := SecondHalf(g, ts);
      && g.w.completed <= r.w.completed
      && (r.ok ==> |r.cfgDsc| == 9 && Tds(r.w.h) == 0)
      && (r.ok ==> |r.w.completed| == |g.w.completed| + 8 + (if r.cfgDsc[2] == 0 && r.cfgDsc[3] == 0 then 2 else 3))
  {
    hide Tds, Submit, Read, Write, FullRead, ConfigurationReads;
    ReadReports(g.w, 1, g.devDsc[7], 1, 18, g.devDsc, ts(4));
    var s5 := Submit(g.w, Read(1, g.devDsc[7], 1, 18, g.devDsc), ts(4));
    if s5.done && |s5.data| == 18 {
      ConfigurationReport(s5.w, s5.data, g.cfgDsc, ts);
      var r := ConfigurationReads(s5.w, s5.data, g.cfgDsc, ts);
      if r.ok && Sizes(r.devDsc, r.cfgDsc) {
        WriteReports(r.w, 1, r.devDsc[7], SET_CONFIGURATION, r.cfgDsc[5], ts(7));
      }
    }
  }

  lemma {:induction false} ConfigurationReport(w: World, devDsc: seq<byte>, cfgDsc: seq<byte>, ts: nat -> Timing)
    requires Tds(w.h) == 0 && Sizes(devDsc, cfgDsc)
    ensures
      var r := ConfigurationReads(w, devDsc, cfgDsc, ts);
      && w.completed <= r.w.completed
      && (r.ok ==> |r.cfgDsc| == 9 && Tds(r.w.h) == 0)
      && (r.ok ==> |r.w.completed| == |w.completed| + 3 + (if r.cfgDsc[2] == 0 && r.cfgDsc[3] == 0 then 2 else 3))
  {
    hide Tds, Submit, Read;
    ReadReports(w, 1, devDsc[7], 2, 9, cfgDsc, ts(5));
    var s6 := Submit(w, Read(1, devDsc[7], 2, 9, cfgDsc), ts(5));
    if s6.done && |s6.data| == 9 {
      SubmitReports(s6.w, FullRead(1, devDsc[7], s6.data), ts(6));
    }
  }
}
