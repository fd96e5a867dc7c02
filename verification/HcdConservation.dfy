/** Every transfer descriptor ever linked is in exactly one place, and is completed at most once, with its exact length. */
module HcdConservation {
  import opened UsbTypes
  import opened HcdModel
  import opened EpdTrack
  import opened HcdRuns

  function Ids(tds: seq<Td>): seq<nat> {
    seq(|tds|, i requires 0 <= i < |tds| => tds[i].id)
  }

  function IdsOf(tds: seq<Td>): multiset<nat> {
    multiset(Ids(tds))
  }

  /** The TDs queued on a list of endpoint descriptors. */
  function ListIds(l: seq<Epd>): multiset<nat> {
    if l == [] then multiset{} else ListIds(l[..|l| - 1]) + IdsOf(l[|l| - 1].queue)
  }

  function FreedInOrder(cs: seq<Completion>): seq<nat> {
    seq(|cs|, i requires 0 <= i < |cs| => cs[i].td.id)
  }

  /** The TDs that hcd_process_done_list has completed and freed. */
  function FreedIds(cs: seq<Completion>): multiset<nat> {
    multiset(FreedInOrder(cs))
  }

  function Holdings(s: State): multiset<nat> {
    ListIds(s.h.control) + ListIds(s.h.bulk) + IdsOf(s.h.done) + FreedIds(s.completed)
  }

  function UpTo(n: nat): multiset<nat> {
    if n == 0 then multiset{} else UpTo(n - 1) + multiset{n - 1}
  }

  lemma {:induction false} UpToOnce(n: nat, x: nat)
    ensures UpTo(n)[x] == if x < n then 1 else 0
  {
    if n > 0 {
      UpToOnce(n - 1, x);
    }
  }

  lemma {:induction false} IdsAppend(a: seq<Td>, b: seq<Td>)
    ensures IdsOf(a + b) == IdsOf(a) + IdsOf(b)
  {
    assert Ids(a + b) == Ids(a) + Ids(b);
  }

  lemma {:induction false} IdsSingle(td: Td)
    ensures IdsOf([td]) == multiset{td.id}
  {
    assert Ids([td]) == [td.id];
  }

  lemma {:induction false} IdsHead(q: seq<Td>)
    requires q != []
    ensures IdsOf(q) == multiset{q[0].id} + IdsOf(q[1..])
  {
    IdsAppend([q[0]], q[1..]);
    IdsSingle(q[0]);
    assert q == [q[0]] + q[1..];
  }

  lemma {:induction false} FreedAppend(cs: seq<Completion>, c: Completion)
    ensures FreedIds(cs + [c]) == FreedIds(cs) + multiset{c.td.id}
  {
    assert FreedInOrder(cs + [c]) == FreedInOrder(cs) + [c.td.id];
  }

  lemma {:induction false} Rearrange(a: multiset<nat>, x: multiset<nat>, b: multiset<nat>, c: multiset<nat>, d: multiset<nat>)
    ensures (a + x) + b == (a + b) + x
    ensures (c + x) + d == (c + d) + x
  {
  }

  lemma {:induction false} ListIdsUpdate(l: seq<Epd>, i: nat, e: Epd)
    requires i < |l|
    ensures ListIds(l[i := e]) + IdsOf(l[i].queue) == ListIds(l) + IdsOf(e.queue)
  {
    hide IdsOf;
    var n := |l| - 1;
    var l' := l[i := e];
    if i == n {
      assert l'[..n] == l[..n];
      Rearrange(ListIds(l[..n]), IdsOf(e.queue), IdsOf(l[i].queue), ListIds(l[..n]), multiset{});
    } else {
      ListIdsUpdate(l[..n], i, e);
      assert l'[..n] == l[..n][i := e];
      Rearrange(ListIds(l'[..n]), IdsOf(l[n].queue), IdsOf(l[i].queue), ListIds(l[..n]), IdsOf(e.queue));
    }
  }

  lemma {:induction false} Cancel(a: multiset<nat>, b: multiset<nat>, x: multiset<nat>, y: multiset<nat>)
    requires a + x == b + (x + y)
    ensures a == b + y
  {
    forall k: nat ensures a[k] == (b + y)[k] {
      assert (a + x)[k] == (b + (x + y))[k];
    }
  }

  lemma {:induction false} LinkIds(l: seq<Epd>, addr: nat, ep: nat, mps: nat, td: Td)
    ensures ListIds(LinkInto(l, addr, ep, mps, td)) == ListIds(l) + multiset{td.id}
  {
    hide IdsOf;
    IdsSingle(td);
    var i := FindFrom(l, addr, ep, 0);
    var e := if i < |l| then l[i] else NewEpd(addr, ep, mps);
    IdsAppend(e.queue, [td]);
    if i < |l| {
      ListIdsUpdate(l, i, Enqueue(e, td));
      Cancel(ListIds(LinkInto(l, addr, ep, mps, td)), ListIds(l), IdsOf(e.queue), multiset{td.id});
    } else {
      var l' := l + [Enqueue(e, td)];
      assert l'[..|l|] == l;
      assert e.queue + [td] == [td];
    }
  }

  /** A reply takes the head TD out of the queue, or leaves it there under its identity. */
  lemma {:induction false} AbsorbHeadId(e: Epd, r: Reply)
    requires EpdOk(e) && e.queue != [] && ReplyFits(PacketOf(e), r)
    ensures
      var o := Absorb(e, r);
      if o.retired.Some? then o.retired.value.td.id == e.queue[0].id && o.epd.queue == e.queue[1..]
      else o.epd.queue != [] && o.epd.queue[0].id == e.queue[0].id && o.epd.queue[1..] == e.queue[1..]
  {
    hide PacketOf, Finished;
  }

  lemma {:induction false} AbsorbIds(e: Epd, r: Reply)
    requires EpdOk(e) && e.queue != [] && ReplyFits(PacketOf(e), r)
    ensures
      var o := Absorb(e, r);
      IdsOf(e.queue) == IdsOf(o.epd.queue) + (if o.retired.Some? then multiset{o.retired.value.td.id} else multiset{})
  {
    hide PacketOf, Absorb, IdsOf;
    AbsorbHeadId(e, r);
    IdsHead(e.queue);
    if Absorb(e, r).retired.None? {
      IdsHead(Absorb(e, r).epd.queue);
    }
  }

  lemma {:induction false} LinkKeepsHoldings(s: State, req: LinkReq)
    ensures Holdings(DoLink(s, req)) == Holdings(s) + multiset{s.h.nextId}
  {
    hide ListIds, IdsOf, FreedIds;
    LinkIds(ListOf(s.h, KindOf(req)), req.addr, req.ep % 16, req.mps, NewTd(s.h.nextId, req));
  }

  lemma {:induction false} SendKeepsHoldings(s: State, r: Reply)
    requires s.thread.Captured? && SendAllowed(s.h, s.thread.kind, s.thread.headSeen, r)
    ensures Holdings(DoSend(s, r)) == Holdings(s)
  {
    hide Absorb, PacketOf, SetupAssertion, EpdOk, IdsOf, ListIds, FreedIds;
    var l := ListOf(s.h, s.thread.kind);
    var i := Selected(s.h, s.thread.kind, s.thread.headSeen);
    if i < |l| {
      var o := Absorb(l[i], r);
      AbsorbIds(l[i], r);
      ListIdsUpdate(l, i, o.epd);
      var l' := l[i := o.epd];
      var moved := if o.retired.Some? then multiset{o.retired.value.td.id} else multiset{};
      Cancel(ListIds(l), ListIds(l'), IdsOf(o.epd.queue), moved);
      if o.retired.Some? {
        IdsAppend([o.retired.value.td], s.h.done);
        IdsSingle(o.retired.value.td);
      }
      assert IdsOf(DoSend(s, r).h.done) == moved + IdsOf(s.h.done);
    }
  }

  lemma {:induction false} DoneKeepsHoldings(s: State)
    ensures Holdings(DoDone(s)) == Holdings(s)
  {
    if s.h.done != [] {
      IdsHead(s.h.done);
      FreedAppend(s.completed, Complete(s.h.done[0]));
    } else {
      assert s.completed + [] == s.completed;
    }
  }

  lemma {:induction false} HoldingsAre(steps: seq<Step>)
    ensures Holdings(Run(steps)) == UpTo(Run(steps).h.nextId)
  {
    hide Holdings, Send, SendAllowed;
    if steps == [] {
      InitHoldings();
    } else {
      var s, step := Run(steps[..|steps| - 1]), steps[|steps| - 1];
      HoldingsAre(steps[..|steps| - 1]);
      if Enabled(s, step) {
        match step
        case LinkStep(req) => LinkKeepsHoldings(s, req);
        case CaptureStep(kind) => CaptureKeepsHoldings(s, kind);
        case SendStep(r) =>
          SendKeepsHoldings(s, r);
          SendKeepsNextId(s, r);
        case DoneStep => DoneKeepsHoldings(s);
      }
    }
  }

  lemma {:induction false} InitHoldings()
    ensures Holdings(Init()) == multiset{}
  {
  }

  lemma {:induction false} CaptureKeepsHoldings(s: State, kind: ListKind)
    ensures Holdings(s.(thread := Captured(kind, ListOf(s.h, kind) != []))) == Holdings(s)
  {
  }

  lemma {:induction false} SendKeepsNextId(s: State, r: Reply)
    requires s.thread.Captured? && SendAllowed(s.h, s.thread.kind, s.thread.headSeen, r)
    ensures DoSend(s, r).h.nextId == s.h.nextId
  {
    hide Absorb, PacketOf, SetupAssertion, EpdOk;
  }

  /** In every run each TD linked so far is in exactly one queue, or on the done list, or freed with one completion;
      no other TD is anywhere. */
  lemma {:induction false} Conservation(steps: seq<Step>, id: nat)
    ensures
      var s := Run(steps);
      ListIds(s.h.control)[id] + ListIds(s.h.bulk)[id] + IdsOf(s.h.done)[id] + FreedIds(s.completed)[id]
      == if id < s.h.nextId then 1 else 0
  {
    HoldingsAre(steps);
    UpToOnce(Run(steps).h.nextId, id);
  }

  lemma {:induction false} CompletedOnce(steps: seq<Step>, i: nat, j: nat)
    requires i < j < |Run(steps).completed|
    ensures Run(steps).completed[i].td.id != Run(steps).completed[j].td.id
  {
    hide Run;
    var cs := Run(steps).completed;
    var ids := FreedInOrder(cs);
    Conservation(steps, cs[i].td.id);
    TwiceCounted(ids, i, j);
  }

  lemma {:induction false} TwiceCounted(ids: seq<nat>, i: nat, j: nat)
    requires i < j < |ids|
    ensures ids[i] == ids[j] ==> multiset(ids)[ids[i]] >= 2
  {
    var x := ids[i];
    assert ids == ids[..j] + [ids[j]] + ids[j + 1..];
    assert ids[..j][i] == x;
    assert multiset(ids[..j])[x] >= 1;
    assert multiset(ids)[x] >= 1 + multiset([ids[j]])[x];
  }
}
