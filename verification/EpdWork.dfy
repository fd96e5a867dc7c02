/** What can keep a TD in its queue: only NAKs, and packets that are acknowledged without moving a byte. Every other
    reply retires it or uses up part of a budget fixed when it was linked. */
module EpdWork {
  import opened UsbTypes
  import opened HcdModel
  import opened EpdTrack

  /** The errors and the bytes a TD has left. */
  function Measure(td: Td): nat
    requires TdOk(td)
  {
    MAX_ERRORS + 1 - td.errorCount + Remaining(td)
  }

  function Budget(td: Td): nat {
    MAX_ERRORS + 1 + |td.buffer|
  }

  /** A reply that neither asks to wait nor acknowledges an empty move out of the host. */
  predicate Counts(x: Exchange) {
    match x.reply
    case Ack(rlen, _) => rlen > 0 || x.packet.dirIn
    case Err => true
    case Stall => true
    case Nak => false
    case Invalid => false
  }

  function CountingReplies(trace: seq<Exchange>): nat {
    if trace == [] then 0
    else CountingReplies(trace[..|trace| - 1]) + (if Counts(trace[|trace| - 1]) then 1 else 0)
  }

  lemma {:induction false} RepliesGrow(trace: seq<Exchange>, x: Exchange)
    ensures CountingReplies(trace + [x]) == CountingReplies(trace) + (if Counts(x) then 1 else 0)
  {
    assert (trace + [x])[..|trace|] == trace;
  }

  /** Every reply retires the head TD, or asks to wait, or acknowledges an empty OUT or SETUP packet, or decreases the
      measure. */
  lemma {:induction false} ReplyProgress(e: Epd, r: Reply)
    requires EpdOk(e) && e.queue != [] && ReplyFits(PacketOf(e), r) && e.mps >= 1
    ensures
      var o := Absorb(e, r);
      || o.retired.Some? || r.Nak? || r.Invalid? || (r.Ack? && r.rlen == 0 && !e.queue[0].pid.In?)
      || (o.epd.queue != [] && EpdOk(o.epd) && Measure(o.epd.queue[0]) < Measure(e.queue[0]))
  {
    AbsorbKeepsOk(e, r);
  }

  /** A queued head TD has measure left for what its budget still allows; a retired one has stayed within it. */
  ghost predicate WorkInv(t: Track) {
    t.epd.mps >= 1 ==>
      && (forall i :: 0 <= i < |t.retired| ==> WithinBudget(t.retired[i].td))
      && (t.epd.queue != [] ==> HasBudget(t.epd.queue[0]))
  }

  predicate HasBudget(td: Td) {
    TdOk(td) && CountingReplies(td.trace) + Measure(td) <= Budget(td)
  }

  predicate WithinBudget(td: Td) {
    CountingReplies(td.trace) <= Budget(td)
  }

  lemma {:induction false} AbsorbWork(e: Epd, r: Reply)
    requires EpdOk(e) && e.queue != [] && ReplyFits(PacketOf(e), r) && e.mps >= 1
    requires HasBudget(e.queue[0])
    ensures
      var o := Absorb(e, r);
      && (o.retired.Some? ==> WithinBudget(o.retired.value.td))
      && (o.retired.None? ==> o.epd.queue != [] && HasBudget(o.epd.queue[0]))
  {
    hide CountingReplies;
    AbsorbKeepsOk(e, r);
    RepliesGrow(e.queue[0].trace, Exchange(PacketOf(e), r));
  }

  lemma {:induction false} FreshWork(td: Td)
    requires Fresh(td)
    ensures HasBudget(td)
  {
  }

  lemma {:induction false} AnswerKeepsWork(t: Track, r: Reply)
    requires TrackInv(t) && WorkInv(t) && Allowed(t, AnswerOp(r))
    ensures WorkInv(Next(t, AnswerOp(r)))
  {
    hide Settled, Progress, Continues, Traces, HeadTrace, Absorb, Fresh, PacketOf, HasBudget, WithinBudget;
    var e, q := t.epd, t.epd.queue;
    AbsorbHead(e, r);
    if e.mps >= 1 {
      AbsorbWork(e, r);
      if |q| > 1 {
        assert Fresh(q[1]);
        FreshWork(q[1]);
      }
    }
  }

  lemma {:induction false} ReplayWork(addr: nat, ep: nat, mps: nat, ops: seq<EpdOp>)
    requires addr <= 127 && ep < 16
    ensures WorkInv(Replay(Start(addr, ep, mps), ops))
  {
    hide TrackInv, WorkInv;
    if ops == [] {
      assert WorkInv(Start(addr, ep, mps)) by { StartWork(addr, ep, mps); }
    } else {
      var t := Replay(Start(addr, ep, mps), ops[..|ops| - 1]);
      ReplayWork(addr, ep, mps, ops[..|ops| - 1]);
      ReplayInv(addr, ep, mps, ops[..|ops| - 1]);
      if Allowed(t, ops[|ops| - 1]) {
        match ops[|ops| - 1]
        case LinkOp(td) => LinkKeepsWork(t, td);
        case AnswerOp(r) => AnswerKeepsWork(t, r);
      }
    }
  }

  lemma {:induction false} StartWork(addr: nat, ep: nat, mps: nat)
    ensures WorkInv(Start(addr, ep, mps))
  {
  }

  lemma {:induction false} LinkKeepsWork(t: Track, td: Td)
    requires WorkInv(t) && Fresh(td)
    ensures WorkInv(Next(t, LinkOp(td)))
  {
    hide Fresh, HasBudget, WithinBudget;
    FreshWork(td);
  }

  /** The counts of a TD still at the head of its queue. */
  lemma {:induction false} HeadBounds(td: Td, mps: nat)
    requires Progress(td, mps) && mps >= 1
    ensures ErrCount(td.trace) <= MAX_ERRORS
    ensures td.pid.In? || (td.pid.Out? && AllWhole(td.trace)) ==> AckCount(td.trace) < MaxPackets(|td.buffer|, mps)
  {
    hide AckedBytes, AckedLen, AllWhole;
    var n := AckCount(td.trace);
    if n > 0 && Bytes(n, mps) < |td.buffer| {
      PacketBounds(n, |td.buffer|, mps);
    }
    if n == 0 {
      MaxPositive(|td.buffer|, mps);
    }
  }

  lemma {:induction false} MaxPositive(len: nat, mps: nat)
    requires mps >= 1
    ensures MaxPackets(len, mps) >= 1
  {
    if len > 0 {
      QuotientBounds(len + mps - 1, mps, 0);
    }
  }
}
