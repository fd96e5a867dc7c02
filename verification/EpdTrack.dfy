/** One endpoint descriptor over a whole run: TDs are enqueued and packets answered in any order.
    The lemmas here hold for every such run; module HcdRuns shows that each endpoint descriptor
    of the controller behaves as one of these tracks. */
module EpdTrack {
  import opened UsbTypes
  import opened HcdModel

  // ---------- what a trace of packets says, independently of hcd.c ----------

  /** The bytes a packet moved: those the device took (OUT) or gave (IN). */
  function Payload(x: Exchange): seq<byte> {
    if !x.reply.Ack? then []
    else if x.packet.dirIn then x.reply.data
    else if x.reply.rlen <= |x.packet.data| then x.packet.data[..x.reply.rlen]
    else x.packet.data
  }

  function AckedBytes(trace: seq<Exchange>): seq<byte> {
    if trace == [] then [] else AckedBytes(trace[..|trace| - 1]) + Payload(trace[|trace| - 1])
  }

  /** The sum of rlen over the acknowledged packets. */
  function AckedLen(trace: seq<Exchange>): nat {
    if trace == [] then 0
    else
      var x := trace[|trace| - 1];
      AckedLen(trace[..|trace| - 1]) + (if x.reply.Ack? then x.reply.rlen else 0)
  }

  function ErrCount(trace: seq<Exchange>): nat {
    if trace == [] then 0
    else ErrCount(trace[..|trace| - 1]) + (if trace[|trace| - 1].reply.Err? then 1 else 0)
  }

  /** The packet kinds of the acknowledged packets, in order. */
  function AckedPids(trace: seq<Exchange>): seq<PacketPid> {
    if trace == [] then []
    else
      var x := trace[|trace| - 1];
      AckedPids(trace[..|trace| - 1]) + (if x.reply.Ack? then [x.packet.pid] else [])
  }

  function AckCount(trace: seq<Exchange>): nat {
    |AckedPids(trace)|
  }

  /** Every acknowledged packet was accepted whole. */
  predicate AllWhole(trace: seq<Exchange>) {
    forall i :: 0 <= i < |trace| && trace[i].reply.Ack? ==> trace[i].reply.rlen == trace[i].packet.size
  }

  lemma {:induction false} PidsGrow(trace: seq<Exchange>, x: Exchange)
    ensures AckedPids(trace + [x]) == AckedPids(trace) + (if x.reply.Ack? then [x.packet.pid] else [])
  {
    assert (trace + [x])[..|trace|] == trace;
  }

  lemma {:induction false} TraceGrows(trace: seq<Exchange>, x: Exchange)
    ensures AckedBytes(trace + [x]) == AckedBytes(trace) + Payload(x)
    ensures AckedLen(trace + [x]) == AckedLen(trace) + (if x.reply.Ack? then x.reply.rlen else 0)
    ensures ErrCount(trace + [x]) == ErrCount(trace) + (if x.reply.Err? then 1 else 0)
    ensures AckedPids(trace + [x]) == AckedPids(trace) + (if x.reply.Ack? then [x.packet.pid] else [])
    ensures AllWhole(trace + [x]) <==>
            AllWhole(trace) && (x.reply.Ack? ==> x.reply.rlen == x.packet.size)
  {
    assert (trace + [x])[..|trace|] == trace;
    assert (trace + [x])[|trace|] == x;
    if AllWhole(trace + [x]) {
      forall i | 0 <= i < |trace| && trace[i].reply.Ack? ensures trace[i].reply.rlen == trace[i].packet.size {
        assert (trace + [x])[i] == trace[i];
      }
    }
  }

  // ---------- tracks ----------

  datatype EpdOp = LinkOp(td: Td) | AnswerOp(reply: Reply)

  /** `linked`: the TDs as they were linked; `retired`: as they left; `wire`: every packet with its reply. */
  datatype Track = Track(epd: Epd, linked: seq<Td>, retired: seq<Retirement>, wire: seq<Exchange>)

  function Start(addr: nat, ep: nat, mps: nat): Track {
    Track(NewEpd(addr, ep, mps), [], [], [])
  }

  predicate Fresh(td: Td) {
    td.pos == 0 && td.errorCount == 0 && td.toggle <= 3 && td.trace == []
  }

  predicate Allowed(t: Track, op: EpdOp) {
    match op
    case LinkOp(td) => Fresh(td)
    case AnswerOp(r) => EpdOk(t.epd) && Eligible(t.epd) && SetupAssertion(t.epd) && ReplyFits(PacketOf(t.epd), r)
  }

  function Next(t: Track, op: EpdOp): Track {
    if !Allowed(t, op) then t
    else match op
      case LinkOp(td) => t.(epd := Enqueue(t.epd, td), linked := t.linked + [td])
      case AnswerOp(r) =>
        var o := Absorb(t.epd, r);
        t.(epd := o.epd,
           retired := t.retired + (if o.retired.Some? then [o.retired.value] else []),
           wire := t.wire + [Exchange(PacketOf(t.epd), r)])
  }

  function Replay(start: Track, ops: seq<EpdOp>): Track {
    if ops == [] then start else Next(Replay(start, ops[..|ops| - 1]), ops[|ops| - 1])
  }

  /** No operation of the sequence is dropped by Replay. */
  predicate AllAllowed(start: Track, ops: seq<EpdOp>) {
    ops == [] ||
    (AllAllowed(start, ops[..|ops| - 1]) && Allowed(Replay(start, ops[..|ops| - 1]), ops[|ops| - 1]))
  }

  // ---------- the invariant of one transfer descriptor ----------

  /** A TD's position, buffer and error count say exactly what its packets moved. */
  ghost predicate TdExact(td: Td) {
    && TdOk(td)
    && td.pos == AckedLen(td.trace)
    && td.buffer[..td.pos] == AckedBytes(td.trace)
    && ErrCount(td.trace) <= MAX_ERRORS + 1 && (td.errorCount == 0 <==> ErrCount(td.trace) == 0)
  }

  /** `td` is `init` at a later time: the same request, with the bytes not yet moved untouched. */
  ghost predicate Continues(td: Td, init: Td) {
    && td.id == init.id && td.urb == init.urb && td.urbLength == init.urbLength && td.pid == init.pid
    && |td.buffer| == |init.buffer| && init.pos <= td.pos <= |td.buffer|
    && td.buffer[td.pos..] == init.buffer[td.pos..]
    && (!td.pid.In? ==> td.buffer == init.buffer)
  }

  lemma {:induction false} ContinuesTransitive(a: Td, b: Td, c: Td)
    requires Continues(a, b) && Continues(b, c)
    ensures Continues(a, c)
  {
    assert b.buffer[a.pos..] == b.buffer[b.pos..][a.pos - b.pos..];
    assert c.buffer[a.pos..] == c.buffer[b.pos..][a.pos - b.pos..];
  }

  /** The least number of packets of at most mps bytes that carry len bytes, counting the empty packet. */
  function MaxPackets(len: nat, mps: nat): nat
    requires mps >= 1
  {
    if len == 0 then 1 else (len + mps - 1) / mps
  }

  /** n packets of mps bytes each. */
  function Bytes(n: nat, mps: nat): nat {
    if n == 0 then 0 else Bytes(n - 1, mps) + mps
  }

  lemma {:induction false} BytesIsProduct(n: nat, mps: nat)
    ensures Bytes(n, mps) == n * mps
  {
    if n > 0 {
      BytesIsProduct(n - 1, mps);
      assert n * mps == (n - 1) * mps + mps;
    }
  }

  lemma {:induction false} MulMonotone(a: nat, b: nat, m: nat)
    requires a <= b
    ensures a * m <= b * m
  {
    assert b * m == a * m + (b - a) * m;
  }

  lemma {:induction false} PacketBounds(k: nat, len: nat, mps: nat)
    requires mps >= 1 && Bytes(k, mps) < len
    ensures k + 1 <= MaxPackets(len, mps)
    ensures len <= Bytes(k, mps) + mps ==> k + 1 == MaxPackets(len, mps)
  {
    BytesIsProduct(k, mps);
    QuotientBounds(len + mps - 1, mps, k);
  }

  lemma {:induction false} QuotientBounds(n: nat, m: nat, k: nat)
    requires m >= 1
    ensures k * m + m <= n ==> k + 1 <= n / m
    ensures n < k * m + 2 * m ==> n / m <= k + 1
  {
    var q: nat := n / m;
    assert (k + 2) * m == k * m + 2 * m;
    if q <= k {
      MulMonotone(q, k, m);
    } else if q >= k + 2 {
      MulMonotone(k + 2, q, m);
    }
  }

  /** The packet counts of a TD still queued. */
  ghost predicate CountsOpen(td: Td, mps: nat) {
    var n := AckCount(td.trace);
    match td.pid
    case Setup => true
    case In => Bytes(n, mps) <= td.pos && (n > 0 ==> td.pos < |td.buffer|)
    case Out => AllWhole(td.trace) ==> Bytes(n, mps) == td.pos && (n > 0 ==> td.pos < |td.buffer|)
  }

  /** The packet counts of a TD that has left the queue. */
  ghost predicate CountsClosed(td: Td, cause: Cause, mps: nat)
    requires mps >= 1
  {
    var n, bound := AckCount(td.trace), MaxPackets(|td.buffer|, mps);
    match td.pid
    case Setup => true
    case In => n <= bound
    case Out => AllWhole(td.trace) ==> n <= bound && (cause.ByAck? ==> n == bound)
  }

  /** A TD still queued. */
  ghost predicate Progress(td: Td, mps: nat) {
    TdExact(td) && td.errorCount == ErrCount(td.trace) && (mps >= 1 ==> CountsOpen(td, mps))
  }

  /** A TD that has left the queue. */
  ghost predicate Settled(r: Retirement, mps: nat) {
    var td := r.td;
    && TdExact(td)
    && (r.cause.ByErr? <==> ErrCount(td.trace) == MAX_ERRORS + 1)
    && (r.cause.ByAck? && !td.pid.In? ==> td.pos == |td.buffer|)
    && (r.cause.ByAck? && td.pid.In? && td.pos < |td.buffer| ==> EndsShort(td.trace, mps))
    && (mps >= 1 ==> CountsClosed(td, r.cause, mps))
  }

  /** The last packet was acknowledged and shorter than the maximum packet size. */
  ghost predicate EndsShort(trace: seq<Exchange>, mps: nat) {
    |trace| > 0 && var r := trace[|trace| - 1].reply; r.Ack? && r.rlen < mps
  }

  lemma {:induction false} CountsAtRetirement(td: Td, cause: Cause, mps: nat)
    requires mps >= 1 && TdOk(td) && CountsOpen(td, mps) && !cause.ByAck?
    ensures CountsClosed(td, cause, mps)
  {
    var n := AckCount(td.trace);
    if n > 0 && Bytes(n, mps) < |td.buffer| {
      PacketBounds(n, |td.buffer|, mps);
    }
  }

  /** The bytes recorded for a packet are those the TD's buffer holds between its two positions. */
  lemma {:induction false} Splice(b: seq<byte>, pos: nat, d: seq<byte>)
    requires pos + |d| <= |b|
    ensures
      var b' := b[..pos] + d + b[pos + |d|..];
      |b'| == |b| && b'[..pos + |d|] == b[..pos] + d && b'[pos + |d|..] == b[pos + |d|..]
  {
  }

  lemma {:induction false} AdvanceExact(td: Td, x: Exchange)
    requires TdExact(td) && td.toggle <= 1 && x.reply.Ack? && x.reply.rlen <= Remaining(td)
    requires if td.pid.In? then |x.reply.data| == x.reply.rlen && Payload(x) == x.reply.data
             else Payload(x) == td.buffer[td.pos..td.pos + x.reply.rlen]
    ensures
      var td1 := Advance(td.(trace := td.trace + [x]), x.reply.rlen, x.reply.data);
      TdExact(td1) && Continues(td1, td) && td1.errorCount == td.errorCount && ErrCount(td1.trace) == ErrCount(td.trace)
  {
    TraceGrows(td.trace, x);
    var rlen := x.reply.rlen;
    if td.pid.In? {
      Splice(td.buffer, td.pos, x.reply.data);
    } else {
      assert td.buffer[..td.pos + rlen] == td.buffer[..td.pos] + td.buffer[td.pos..td.pos + rlen];
    }
  }

  lemma {:induction false} AckCounts(td: Td, x: Exchange, mps: nat)
    requires mps >= 1 && TdOk(td) && CountsOpen(td, mps) && x.reply.Ack? && td.pos + x.reply.rlen <= |td.buffer|
    requires td.pid.Out? ==> x.packet.size == Min(mps, |td.buffer| - td.pos)
    ensures
      var td1 := td.(trace := td.trace + [x], pos := td.pos + x.reply.rlen);
      if td1.pos >= |td.buffer| || (td.pid.In? && x.reply.rlen < mps) then CountsClosed(td1, ByAck, mps)
      else CountsOpen(td1, mps)
  {
    TraceGrows(td.trace, x);
    var n := AckCount(td.trace);
    if Bytes(n, mps) < |td.buffer| {
      PacketBounds(n, |td.buffer|, mps);
    }
  }

  /** One answered packet: the head TD stays exact, and is settled if it leaves the queue. */
  ghost predicate HeadStep(e: Epd, r: Reply)
    requires EpdOk(e) && e.queue != [] && ReplyFits(PacketOf(e), r)
  {
    var o := Absorb(e, r);
    var trace := e.queue[0].trace + [Exchange(PacketOf(e), r)];
    && o.epd.addr == e.addr && o.epd.ep == e.ep && o.epd.mps == e.mps
    && match o.retired
    case Some(ret) =>
      && o.epd.queue == e.queue[1..] && ret.td.trace == trace
      && Settled(ret, e.mps) && Continues(ret.td, e.queue[0])
    case None =>
      && |o.epd.queue| == |e.queue| && o.epd.queue[1..] == e.queue[1..] && o.epd.queue[0].trace == trace
      && Progress(o.epd.queue[0], e.mps) && Continues(o.epd.queue[0], e.queue[0])
  }

  lemma {:induction false} AbsorbHead(e: Epd, r: Reply)
    requires EpdOk(e) && e.queue != [] && SetupAssertion(e) && ReplyFits(PacketOf(e), r)
    requires Progress(e.queue[0], e.mps)
    ensures HeadStep(e, r)
  {
    if r.Ack? {
      AbsorbAck(e, r);
    } else {
      AbsorbOther(e, r);
    }
  }

  lemma {:induction false} AbsorbOther(e: Epd, r: Reply)
    requires EpdOk(e) && e.queue != [] && ReplyFits(PacketOf(e), r) && !r.Ack?
    requires Progress(e.queue[0], e.mps)
    ensures HeadStep(e, r)
  {
    hide AckedBytes, AckedLen, ErrCount, AckedPids, AllWhole, MaxPackets, Bytes, PacketOf;
    var td := Sent(e, r);
    var x := Exchange(PacketOf(e), r);
    TraceGrows(e.queue[0].trace, x);
    assert Payload(x) == [];
    if e.mps >= 1 {
      CountsAtRetirement(td, ByErr, e.mps);
      CountsAtRetirement(td, ByStall, e.mps);
    }
  }

  lemma {:induction false} PacketPayload(e: Epd, r: Reply)
    requires EpdOk(e) && e.queue != [] && ReplyFits(PacketOf(e), r) && r.Ack?
    ensures r.rlen <= Remaining(e.queue[0])
    ensures
      var td, x := e.queue[0], Exchange(PacketOf(e), r);
      && (if td.pid.In? then |r.data| == r.rlen && Payload(x) == r.data
          else Payload(x) == td.buffer[td.pos..td.pos + r.rlen])
      && (td.pid.Out? ==> x.packet.size == Min(e.mps, |td.buffer| - td.pos))
  {
  }

  lemma {:induction false} AbsorbAck(e: Epd, r: Reply)
    requires EpdOk(e) && e.queue != [] && ReplyFits(PacketOf(e), r) && r.Ack?
    requires Progress(e.queue[0], e.mps)
    ensures HeadStep(e, r)
  {
    hide AckedBytes, AckedLen, ErrCount, AckedPids, AllWhole, MaxPackets, Bytes, PacketOf, Payload, CountsClosed;
    var x := Exchange(PacketOf(e), r);
    PacketPayload(e, r);
    var td := Resolve(e.queue[0], e.carry);
    assert Progress(td, e.mps);
    AdvanceExact(td, x);
    if e.mps >= 1 {
      AckCounts(td, x, e.mps);
    }
    AckStep(e, r);
  }

  lemma {:induction false} AckStep(e: Epd, r: Reply)
    requires EpdOk(e) && e.queue != [] && ReplyFits(PacketOf(e), r) && r.Ack? && r.rlen <= Remaining(e.queue[0])
    requires e.queue[0].pid.In? ==> |r.data| == r.rlen
    requires
      var x := Exchange(PacketOf(e), r);
      var td := Resolve(e.queue[0], e.carry);
      var td1 := Advance(Sent(e, r), r.rlen, r.data);
      var td2 := td.(trace := td.trace + [x], pos := td.pos + r.rlen);
      && td1.trace == td.trace + [x]
      && TdExact(td1) && Continues(td1, td) && td1.errorCount == td.errorCount == ErrCount(td1.trace)
      && (e.mps >= 1 ==> if Finished(e, td2, r.rlen) then CountsClosed(td2, ByAck, e.mps) else CountsOpen(td2, e.mps))
    ensures HeadStep(e, r)
  {
    hide AckedBytes, AckedLen, ErrCount, AckedPids, AllWhole, MaxPackets, Bytes, PacketOf, Payload;
    var td1 := Advance(Sent(e, r), r.rlen, r.data);
    assert td1.trace[|td1.trace| - 1].reply == r;
  }

  // ---------- the invariant of a track ----------

  /** The packets of the TDs of a track, one TD after the other. */
  function Traces(rs: seq<Retirement>): seq<Exchange> {
    if rs == [] then [] else Traces(rs[..|rs| - 1]) + rs[|rs| - 1].td.trace
  }

  function HeadTrace(queue: seq<Td>): seq<Exchange> {
    if queue == [] then [] else queue[0].trace
  }

  /** TDs retire in link order; only the head has sent packets; the wire carried their packets one TD after the other. */
  ghost predicate TrackInv(t: Track) {
    var q, n := t.epd.queue, |t.retired|;
    && EpdOk(t.epd)
    && |t.linked| == n + |q|
    && (forall i :: 0 <= i < n ==> Settled(t.retired[i], t.epd.mps) && Continues(t.retired[i].td, t.linked[i]))
    && (q != [] ==> Progress(q[0], t.epd.mps) && Continues(q[0], t.linked[n]))
    && (forall j :: 1 <= j < |q| ==> q[j] == t.linked[n + j] && Fresh(q[j]))
    && t.wire == Traces(t.retired) + HeadTrace(q)
  }

  lemma {:induction false} TracesGrow(rs: seq<Retirement>, r: Retirement)
    ensures Traces(rs + [r]) == Traces(rs) + r.td.trace
  {
    assert (rs + [r])[..|rs|] == rs;
  }

  lemma {:induction false} LinkKeepsInv(t: Track, td: Td)
    requires TrackInv(t) && Fresh(td)
    ensures TrackInv(Next(t, LinkOp(td)))
  {
    hide Settled, Progress, Continues;
    FreshProgress(td, t.epd.mps);
  }

  lemma {:induction false} AnswerKeepsInv(t: Track, r: Reply)
    requires TrackInv(t) && Allowed(t, AnswerOp(r))
    ensures TrackInv(Next(t, AnswerOp(r)))
  {
    hide Absorb, PacketOf, Settled, Progress, Continues, SetupAssertion, Traces, HeadTrace;
    AbsorbHead(t.epd, r);
    AbsorbKeepsOk(t.epd, r);
    if Absorb(t.epd, r).retired.Some? {
      RetireKeepsInv(t, r);
    } else {
      StayKeepsInv(t, r);
    }
  }

  lemma {:induction false} RetireKeepsInv(t: Track, r: Reply)
    requires TrackInv(t) && Allowed(t, AnswerOp(r))
    requires HeadStep(t.epd, r) && EpdOk(Absorb(t.epd, r).epd) && Absorb(t.epd, r).retired.Some?
    ensures TrackInv(Next(t, AnswerOp(r)))
  {
    hide Absorb, PacketOf, Settled, Progress, Continues, SetupAssertion, EpdOk, Traces;
    var q, n := t.epd.queue, |t.retired|;
    var ret := Absorb(t.epd, r).retired.value;
    var x := Exchange(PacketOf(t.epd), r);
    var t' := Next(t, AnswerOp(r));
    TracesGrow(t.retired, ret);
    ContinuesTransitive(ret.td, q[0], t.linked[n]);
    if |q| > 1 {
      assert q[1] == t.linked[n + 1] && Fresh(q[1]);
      FreshProgress(q[1], t.epd.mps);
    }
    assert t.wire + [x] == Traces(t.retired + [ret]) + [];
    forall j | 1 <= j < |t'.epd.queue| ensures t'.epd.queue[j] == t'.linked[n + 1 + j] && Fresh(t'.epd.queue[j]) {
      assert t'.epd.queue[j] == q[j + 1];
    }
  }

  lemma {:induction false} StayKeepsInv(t: Track, r: Reply)
    requires TrackInv(t) && Allowed(t, AnswerOp(r))
    requires HeadStep(t.epd, r) && EpdOk(Absorb(t.epd, r).epd) && Absorb(t.epd, r).retired.None?
    ensures TrackInv(Next(t, AnswerOp(r)))
  {
    hide Absorb, PacketOf, Settled, Progress, Continues, SetupAssertion, EpdOk, Traces;
    var q, n := t.epd.queue, |t.retired|;
    var q' := Absorb(t.epd, r).epd.queue;
    var x := Exchange(PacketOf(t.epd), r);
    ContinuesTransitive(q'[0], q[0], t.linked[n]);
    forall j | 1 <= j < |q| ensures q'[j] == q[j] {
      assert q'[j] == q'[1..][j - 1] == q[1..][j - 1];
    }
    assert t.retired + [] == t.retired;
    assert t.wire + [x] == Traces(t.retired) + (q[0].trace + [x]);
  }

  lemma {:induction false} FreshProgress(td: Td, mps: nat)
    requires Fresh(td)
    ensures Progress(td, mps) && Continues(td, td)
  {
  }

  lemma {:induction false} StartInv(addr: nat, ep: nat, mps: nat)
    requires addr <= 127 && ep < 16
    ensures TrackInv(Start(addr, ep, mps))
  {
  }

  lemma {:induction false} NextKeepsKey(t: Track, op: EpdOp)
    ensures var e, e' := t.epd, Next(t, op).epd; e'.addr == e.addr && e'.ep == e.ep && e'.mps == e.mps
  {
  }

  /** The invariant holds in every run of an endpoint descriptor. */
  lemma {:induction false} ReplayInv(addr: nat, ep: nat, mps: nat, ops: seq<EpdOp>)
    requires addr <= 127 && ep < 16
    ensures TrackInv(Replay(Start(addr, ep, mps), ops))
    ensures var e := Replay(Start(addr, ep, mps), ops).epd; e.addr == addr && e.ep == ep && e.mps == mps
  {
    hide TrackInv, Absorb, PacketOf, SetupAssertion;
    if ops == [] {
      StartInv(addr, ep, mps);
    } else {
      var t, op := Replay(Start(addr, ep, mps), ops[..|ops| - 1]), ops[|ops| - 1];
      ReplayInv(addr, ep, mps, ops[..|ops| - 1]);
      NextKeepsKey(t, op);
      if Allowed(t, op) {
        match op
        case LinkOp(td) => LinkKeepsInv(t, td);
        case AnswerOp(r) => AnswerKeepsInv(t, r);
      }
    }
  }

  // ---------- halting ----------

  predicate OnlyAnswers(ops: seq<EpdOp>) {
    forall i :: 0 <= i < |ops| ==> ops[i].AnswerOp?
  }

  lemma {:induction false} HaltedUntilLinked(t: Track, ops: seq<EpdOp>)
    requires t.epd.halted && OnlyAnswers(ops)
    ensures Replay(t, ops) == t
  {
    if ops != [] {
      HaltedUntilLinked(t, ops[..|ops| - 1]);
    }
  }

  /** An endpoint is halted by STALL and by no other reply: then it sends nothing, whatever is tried, until a TD is
      linked, which makes it eligible again. */
  lemma {:induction false} StallHalts(t: Track, r: Reply, ops: seq<EpdOp>, td: Td)
    requires Allowed(t, AnswerOp(r)) && OnlyAnswers(ops) && Fresh(td)
    ensures
      var t' := Next(t, AnswerOp(r));
      && (t'.epd.halted <==> r.Stall?)
      && (r.Stall? ==> Replay(t', ops) == t' && Eligible(Next(Replay(t', ops), LinkOp(td)).epd))
  {
    if r.Stall? {
      HaltedUntilLinked(Next(t, AnswerOp(r)), ops);
    }
  }
}
