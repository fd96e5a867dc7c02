/** DATA0/DATA1 alternation on one endpoint descriptor, across TD boundaries, NAKs and retried errors
    (section 8.6 of USB 2.0), and exactly how an abandoned TD breaks it. */
module EpdToggles {
  import opened UsbTypes
  import opened HcdModel
  import opened EpdTrack

  /** A TD linked the way the bulk path of sys_urb_submit links it: "toggle from EPD". */
  predicate Carried(td: Td) {
    td.toggle >= 2 && !td.pid.Setup?
  }

  predicate AllCarried(tds: seq<Td>) {
    forall i :: 0 <= i < |tds| ==> Carried(tds[i])
  }

  /** The toggle the next packet will carry. */
  function NextToggle(e: Epd): nat {
    if e.queue == [] then e.carry else Resolve(e.queue[0], e.carry).toggle
  }

  predicate Alternates(pids: seq<PacketPid>) {
    forall n :: 0 <= n < |pids| ==> pids[n] == DataPid(n)
  }

  function Bit(b: bool): nat {
    if b then 1 else 0
  }

  /** A retirement that loses an odd number of acknowledged packets from the carry. */
  predicate OddLoss(r: Retirement) {
    !r.cause.ByAck? && AckCount(r.td.trace) % 2 == 1
  }

  /** TDs given up after ERR or STALL with an odd number of packets already acknowledged. */
  function OddLosses(rs: seq<Retirement>): nat {
    if rs == [] then 0
    else
      var r := rs[|rs| - 1];
      OddLosses(rs[..|rs| - 1]) + Bit(OddLoss(r))
  }

  lemma {:induction false} OddLossesGrow(rs: seq<Retirement>, r: Retirement)
    ensures OddLosses(rs + [r]) == OddLosses(rs) + Bit(OddLoss(r))
  {
    assert (rs + [r])[..|rs|] == rs;
  }

  /** The head TD's own toggle: still "from EPD" before its first packet, then the carry plus its acknowledged packets. */
  ghost predicate HeadToggle(e: Epd) {
    e.queue != [] ==>
      var td := e.queue[0];
      if td.trace == [] then td.toggle >= 2
      else td.toggle == (e.carry + AckCount(td.trace)) % 2
  }

  ghost predicate ToggleInv(t: Track) {
    && HeadToggle(t.epd)
    && NextToggle(t.epd) == (AckCount(t.wire) + OddLosses(t.retired)) % 2
    && (OddLosses(t.retired) == 0 ==> Alternates(AckedPids(t.wire)))
  }

  lemma {:induction false} LinkKeepsToggles(t: Track, td: Td)
    requires TrackInv(t) && ToggleInv(t) && Fresh(td) && Carried(td)
    ensures ToggleInv(Next(t, LinkOp(td)))
  {
    hide TrackInv, AckCount, OddLosses, Alternates, AckedPids;
  }

  lemma {:induction false} PidIsNextToggle(e: Epd)
    requires EpdOk(e) && e.queue != [] && !e.queue[0].pid.Setup?
    ensures PacketOf(e).pid == DataPid(NextToggle(e))
  {
  }

  /** One answered packet on one endpoint descriptor: the next toggle flips on ACK, and once more on an odd loss. */
  ghost predicate ToggleStep(e: Epd, r: Reply)
    requires EpdOk(e) && e.queue != [] && ReplyFits(PacketOf(e), r)
  {
    var o := Absorb(e, r);
    var lost := o.retired.Some? && OddLoss(o.retired.value);
    && HeadToggle(o.epd)
    && NextToggle(o.epd) == (NextToggle(e) + Bit(r.Ack?) + Bit(lost)) % 2
    && (lost <==>
          && (r.Stall? || (r.Err? && e.queue[0].errorCount == MAX_ERRORS))
          && AckCount(e.queue[0].trace) % 2 == 1)
  }

  lemma {:induction false} AbsorbToggle(e: Epd, r: Reply)
    requires EpdOk(e) && e.queue != [] && ReplyFits(PacketOf(e), r) && HeadToggle(e)
    requires |e.queue| > 1 ==> e.queue[1].trace == [] && e.queue[1].toggle >= 2
    ensures ToggleStep(e, r)
  {
    AckedNothing();
    PidsGrow(e.queue[0].trace, Exchange(PacketOf(e), r));
    if r.Ack? {
      AckToggle(e, r);
    } else {
      OtherToggle(e, r);
    }
  }

  lemma {:induction false} AckToggle(e: Epd, r: Reply)
    requires EpdOk(e) && e.queue != [] && ReplyFits(PacketOf(e), r) && HeadToggle(e) && r.Ack?
    requires |e.queue| > 1 ==> e.queue[1].trace == [] && e.queue[1].toggle >= 2
    requires AckCount([]) == 0
    requires AckCount(e.queue[0].trace + [Exchange(PacketOf(e), r)]) == AckCount(e.queue[0].trace) + 1
    ensures ToggleStep(e, r)
  {
    hide AckCount;
    assert NextToggle(e) == (e.carry + AckCount(e.queue[0].trace)) % 2;
    var td := Advance(Sent(e, r), r.rlen, r.data);
    assert td.toggle == (NextToggle(e) + 1) % 2 == (e.carry + AckCount(td.trace)) % 2;
  }

  lemma {:induction false} ParityFacts(c: nat, n: nat)
    requires c <= 1
    ensures n % 2 == 1 ==> c == ((c + n) % 2 + 1) % 2
    ensures n % 2 == 0 ==> c == (c + n) % 2
  {
  }

  /** A reply other than ACK moves no data: the head TD leaves the queue as it was sent, or stays with its toggle. */
  lemma {:induction false} OtherShape(e: Epd, r: Reply)
    requires EpdOk(e) && e.queue != [] && ReplyFits(PacketOf(e), r) && !r.Ack?
    ensures
      var o, td := Absorb(e, r), Sent(e, r);
      && o.epd.carry == e.carry
      && (o.retired.Some? <==> r.Stall? || (r.Err? && td.errorCount == MAX_ERRORS))
      && (o.retired.Some? ==> !o.retired.value.cause.ByAck?)
      && (o.retired.Some? ==> o.retired.value.td == td && o.epd.queue == e.queue[1..])
      && (o.retired.None? ==>
            && o.epd.queue != [] && o.epd.queue[1..] == e.queue[1..]
            && o.epd.queue[0] == td.(errorCount := o.epd.queue[0].errorCount))
  {
    hide PacketOf;
  }

  lemma {:induction false} OtherToggle(e: Epd, r: Reply)
    requires EpdOk(e) && e.queue != [] && ReplyFits(PacketOf(e), r) && HeadToggle(e) && !r.Ack?
    requires |e.queue| > 1 ==> e.queue[1].trace == [] && e.queue[1].toggle >= 2
    requires AckCount([]) == 0
    requires AckCount(e.queue[0].trace + [Exchange(PacketOf(e), r)]) == AckCount(e.queue[0].trace)
    ensures ToggleStep(e, r)
  {
    hide AckCount, PacketOf, Absorb;
    var n := AckCount(e.queue[0].trace);
    OtherShape(e, r);
    ParityFacts(e.carry, n);
    var td := Sent(e, r);
    assert AckCount(td.trace) == n && td.toggle == NextToggle(e) == (e.carry + n) % 2;
    var o := Absorb(e, r);
    if o.retired.Some? {
      assert o.retired.value.td == td && NextToggle(o.epd) == e.carry;
    } else {
      assert o.epd.queue[0].trace == td.trace && NextToggle(o.epd) == td.toggle;
    }
  }

  lemma {:induction false} AnswerKeepsToggles(t: Track, r: Reply)
    requires TrackInv(t) && ToggleInv(t) && AllCarried(t.linked) && Allowed(t, AnswerOp(r))
    ensures ToggleInv(Next(t, AnswerOp(r)))
  {
    hide Settled, Progress, Traces, AckedPids, OddLosses, Absorb, PacketOf, HeadToggle, NextToggle;
    var e := t.epd;
    var x := Exchange(PacketOf(e), r);
    var o := Absorb(e, r);
    assert Carried(t.linked[|t.retired|]);
    if |e.queue| > 1 {
      assert e.queue[1] == t.linked[|t.retired| + 1] && Carried(e.queue[1]);
    }
    AbsorbToggle(e, r);
    PidIsNextToggle(e);
    PidsGrow(t.wire, x);
    AckedNothing();
    match o.retired
    case Some(ret) => OddLossesGrow(t.retired, ret);
    case None => assert t.retired + [] == t.retired;
  }

  lemma {:induction false} AckedNothing()
    ensures AckedPids([]) == [] && OddLosses([]) == 0
  {
  }

  /** The n-th acknowledged packet of an endpoint whose TDs all take their toggle from the endpoint carries DATA(n mod 2),
      as long as no TD is given up after an odd number of acknowledged packets; in every case the kind of the next packet
      is the parity of the acknowledged packets plus the number of such losses. */
  lemma {:induction false} ToggleLaw(addr: nat, ep: nat, mps: nat, ops: seq<EpdOp>)
    requires addr <= 127 && ep < 16
    ensures
      var t := Replay(Start(addr, ep, mps), ops);
      AllCarried(t.linked) ==>
        && NextToggle(t.epd) == (AckCount(t.wire) + OddLosses(t.retired)) % 2
        && (OddLosses(t.retired) == 0 ==> Alternates(AckedPids(t.wire)))
  {
    if AllCarried(Replay(Start(addr, ep, mps), ops).linked) {
      ReplayToggles(addr, ep, mps, ops);
    }
  }

  lemma {:induction false} ReplayToggles(addr: nat, ep: nat, mps: nat, ops: seq<EpdOp>)
    requires addr <= 127 && ep < 16
    requires AllCarried(Replay(Start(addr, ep, mps), ops).linked)
    ensures ToggleInv(Replay(Start(addr, ep, mps), ops))
  {
    if ops != [] {
      var ops0, op := ops[..|ops| - 1], ops[|ops| - 1];
      var t := Replay(Start(addr, ep, mps), ops0);
      assert AllCarried(t.linked) by {
        forall i | 0 <= i < |t.linked| ensures Carried(t.linked[i]) {
          assert t.linked[i] == Next(t, op).linked[i];
        }
      }
      ReplayToggles(addr, ep, mps, ops0);
      ReplayInv(addr, ep, mps, ops0);
      if Allowed(t, op) {
        match op
        case LinkOp(td) =>
          assert Next(t, op).linked[|t.linked|] == td;
          LinkKeepsToggles(t, td);
        case AnswerOp(r) => AnswerKeepsToggles(t, r);
      }
    }
  }

  /** Answering one packet moves an endpoint that is in step with the parity of its acknowledged packets out of step
      exactly when it gives up a TD after an odd number of acknowledged packets. */
  lemma {:induction false} StepDesynchronises(t: Track, r: Reply)
    requires TrackInv(t) && ToggleInv(t) && AllCarried(t.linked) && Allowed(t, AnswerOp(r))
    requires NextToggle(t.epd) == AckCount(t.wire) % 2
    ensures
      var t' := Next(t, AnswerOp(r));
      NextToggle(t'.epd) != AckCount(t'.wire) % 2 <==>
      && (r.Stall? || (r.Err? && t.epd.queue[0].errorCount == MAX_ERRORS))
      && AckCount(t.epd.queue[0].trace) % 2 == 1
  {
    hide Settled, Progress, Traces, AckedPids, OddLosses, Absorb, PacketOf, HeadToggle, NextToggle;
    var e := t.epd;
    assert Carried(t.linked[|t.retired|]);
    if |e.queue| > 1 {
      assert e.queue[1] == t.linked[|t.retired| + 1] && Carried(e.queue[1]);
    }
    AbsorbToggle(e, r);
    PidsGrow(t.wire, Exchange(PacketOf(e), r));
  }

  // ---------- an odd loss ----------

  function OutTd(id: nat, data: seq<byte>): Td {
    Td(id, Outer(id), |data|, Out, 2, data, 0, 0, [])
  }

  /** Two bytes in packets of one: the first is acknowledged, the second meets three errors. Then one byte more. */
  function LossyRun(): seq<EpdOp> {
    [LinkOp(OutTd(0, [1, 2])), LinkOp(OutTd(1, [3])), AnswerOp(Ack(1, [])),
     AnswerOp(Err), AnswerOp(Err), AnswerOp(Err), AnswerOp(Ack(1, []))]
  }

  lemma {:induction false} ReplayStep(start: Track, ops: seq<EpdOp>, op: EpdOp)
    ensures Replay(start, ops + [op]) == Next(Replay(start, ops), op)
  {
    assert (ops + [op])[..|ops|] == ops;
  }

  /** Endpoint 2, one byte per packet, carry 0, with this head TD and the byte of the second one behind it. */
  predicate LossyEpd(e: Epd, toggle: nat, pos: nat, errors: nat) {
    && EpdOk(e) && Eligible(e) && e.mps == 1 && e.carry == 0 && |e.queue| == 2 && e.queue[1] == OutTd(1, [3])
    && var td := e.queue[0];
       td.pid.Out? && td.toggle == toggle && td.pos == pos && |td.buffer| == 2 && td.errorCount == errors
  }

  lemma {:induction false} FirstByte(e: Epd)
    requires LossyEpd(e, 2, 0, 0)
    ensures ReplyFits(PacketOf(e), Ack(1, [])) && PacketOf(e).pid == PidData0
    ensures var o := Absorb(e, Ack(1, [])); o.retired.None? && LossyEpd(o.epd, 1, 1, 0)
  {
  }

  lemma {:induction false} ErrorCounted(e: Epd, errors: nat)
    requires LossyEpd(e, 1, 1, errors) && errors < MAX_ERRORS
    ensures var o := Absorb(e, Err); o.retired.None? && LossyEpd(o.epd, 1, 1, errors + 1)
  {
    hide PacketOf;
  }

  lemma {:induction false} GivenUp(e: Epd)
    requires LossyEpd(e, 1, 1, MAX_ERRORS)
    ensures Absorb(e, Err).epd == e.(queue := [OutTd(1, [3])])
  {
    hide PacketOf;
    assert e.queue[1..] == [OutTd(1, [3])];
  }

  lemma {:induction false} SecondByte(e: Epd)
    requires EpdOk(e) && Eligible(e) && e.mps == 1 && e.carry == 0 && e.queue == [OutTd(1, [3])]
    ensures ReplyFits(PacketOf(e), Ack(1, [])) && PacketOf(e).pid == PidData0
  {
  }

  lemma {:induction false} AnswerPids(t: Track, r: Reply)
    requires Allowed(t, AnswerOp(r))
    ensures
      var t' := Next(t, AnswerOp(r));
      && t'.epd == Absorb(t.epd, r).epd && t'.linked == t.linked
      && AckedPids(t'.wire) == AckedPids(t.wire) + (if r.Ack? then [PacketOf(t.epd).pid] else [])
  {
    hide Absorb, PacketOf;
    PidsGrow(t.wire, Exchange(PacketOf(t.epd), r));
  }

  lemma {:induction false} LossyStart() returns (t: Track)
    ensures t == Replay(Start(1, 2, 1), LossyRun()[..2]) && LossyEpd(t.epd, 2, 0, 0) && AckedPids(t.wire) == []
    ensures t.linked == [OutTd(0, [1, 2]), OutTd(1, [3])]
  {
    var start := Start(1, 2, 1);
    var a, b := LinkOp(OutTd(0, [1, 2])), LinkOp(OutTd(1, [3]));
    ReplayStep(start, [], a);
    ReplayStep(start, [a], b);
    assert [] + [a] == [a] && [a] + [b] == LossyRun()[..2];
    var t1 := Next(start, a);
    assert t1.epd.queue == [OutTd(0, [1, 2])];
    t := Next(t1, b);
    assert t.epd.queue == [OutTd(0, [1, 2]), OutTd(1, [3])];
    assert t.linked == [OutTd(0, [1, 2])] + [OutTd(1, [3])];
  }

  /** A TD given up after one acknowledged packet breaks the alternation: two packets in a row go out as DATA0. */
  lemma {:induction false} OddLossRepeats()
    ensures
      var t := Replay(Start(1, 2, 1), LossyRun());
      && AllCarried(t.linked) && AckedPids(t.wire) == [PidData0, PidData0] && !Alternates(AckedPids(t.wire))
  {
    hide Absorb, PacketOf, LossyEpd, Next, Replay, AckedPids;
    var start, ops := Start(1, 2, 1), LossyRun();
    var t2 := LossyStart();
    FirstByte(t2.epd);
    LossyAllowed(t2, 2, 0, 0, Ack(1, []));
    AnswerPids(t2, Ack(1, []));
    var t3 := Next(t2, ops[2]);
    LossyAllowed(t3, 1, 1, 0, Err);
    ErrorCounted(t3.epd, 0);
    AnswerPids(t3, Err);
    var t4 := Next(t3, ops[3]);
    LossyAllowed(t4, 1, 1, 1, Err);
    ErrorCounted(t4.epd, 1);
    AnswerPids(t4, Err);
    var t5 := Next(t4, ops[4]);
    LossyAllowed(t5, 1, 1, 2, Err);
    GivenUp(t5.epd);
    AnswerPids(t5, Err);
    var t6 := Next(t5, ops[5]);
    LastAllowed(t5.epd, t6);
    SecondByte(t6.epd);
    AnswerPids(t6, Ack(1, []));
    var t7 := Next(t6, ops[6]);
    assert AckedPids(t7.wire) == [PidData0, PidData0];
    assert DataPid(1) == PidData1 && AckedPids(t7.wire)[1] != DataPid(1);
    LossyReplay(start, ops);
  }

  lemma {:induction false} LossyAllowed(t: Track, toggle: nat, pos: nat, errors: nat, r: Reply)
    requires LossyEpd(t.epd, toggle, pos, errors) && (r.Err? || ReplyFits(PacketOf(t.epd), r))
    ensures Allowed(t, AnswerOp(r)) && t.epd.mps == 1
  {
  }

  lemma {:induction false} LastAllowed(e: Epd, t: Track)
    requires LossyEpd(e, 1, 1, MAX_ERRORS) && t.epd == e.(queue := [OutTd(1, [3])])
    ensures EpdOk(t.epd) && Eligible(t.epd) && t.epd.mps == 1 && t.epd.carry == 0
    ensures Allowed(t, AnswerOp(Ack(1, [])))
  {
    SecondByte(t.epd);
  }

  lemma {:induction false} LossyReplay(start: Track, ops: seq<EpdOp>)
    requires |ops| == 7
    ensures Replay(start, ops) ==
            Next(Next(Next(Next(Next(Replay(start, ops[..2]), ops[2]), ops[3]), ops[4]), ops[5]), ops[6])
  {
    hide Next, Replay;
    forall k | 2 <= k < 7 ensures Replay(start, ops[..k + 1]) == Next(Replay(start, ops[..k]), ops[k]) {
      ReplayStep(start, ops[..k], ops[k]);
      assert ops[..k] + [ops[k]] == ops[..k + 1];
    }
    assert ops[..7] == ops;
    assert Replay(start, ops[..6 + 1]) == Next(Replay(start, ops[..6]), ops[6]);
    assert Replay(start, ops[..5 + 1]) == Next(Replay(start, ops[..5]), ops[5]);
    assert Replay(start, ops[..4 + 1]) == Next(Replay(start, ops[..4]), ops[4]);
    assert Replay(start, ops[..3 + 1]) == Next(Replay(start, ops[..3]), ops[3]);
    assert Replay(start, ops[..2 + 1]) == Next(Replay(start, ops[..2]), ops[2]);
  }
}
