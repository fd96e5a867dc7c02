/** hcd.c as it is written: linked endpoint descriptors, linked TD queues and the done list, updated in place.
    Every method is proved to compute the function of module HcdModel that carries its name. */
module HcdHeap {
  import opened UsbTypes
  import opened HcdModel

  /** The completion cell of urb.c: its handler runs when urb_done is called. */
  class Urb {
    const ref: UrbRef
    const bufferLength: nat
    const hasHandler: bool
    /** The bytes urb->data points to, as the TD leaves them. */
    var data: seq<byte>
    var length: int
    var status: bool
    var done: bool
    var handlerRuns: nat

    constructor (ref: UrbRef, bufferLength: nat, hasHandler: bool)
      ensures this.ref == ref && this.bufferLength == bufferLength && this.hasHandler == hasHandler
      ensures !done && handlerRuns == 0 && length == 0 && !status
    {
      this.ref, this.bufferLength, this.hasHandler := ref, bufferLength, hasHandler;
      data, length, status, done, handlerRuns := [], 0, false, false, 0;
    }

    /** urb_done. */
    method Done()
      modifies this`done, this`handlerRuns
      ensures done && handlerRuns == old(handlerRuns) + (if hasHandler then 1 else 0)
    {
      done := true;
      if hasHandler {
        handlerRuns := handlerRuns + 1;
      }
    }
  }

  class TdNode {
    ghost const id: nat
    const urb: Urb
    const pid: TdPid
    var toggle: nat
    var buffer: seq<byte>
    var pos: nat
    var errorCount: nat
    var nextTD: TdNode?
    ghost var trace: seq<Exchange>
    ghost var owner: object

    ghost predicate Is(td: Td)
      reads `toggle, `buffer, `pos, `errorCount, `trace
    {
      && id == td.id && urb.ref == td.urb && urb.bufferLength == td.urbLength && pid == td.pid
      && toggle == td.toggle && buffer == td.buffer && pos == td.pos && errorCount == td.errorCount
      && trace == td.trace
    }

    /** hcd_gtd_create. */
    constructor (ghost id: nat, pid: TdPid, toggle: nat, data: seq<byte>, urb: Urb)
      ensures this.id == id && this.pid == pid && this.urb == urb
      ensures this.toggle == toggle && buffer == data && pos == 0 && errorCount == 0 && trace == [] && nextTD == null
    {
      this.id, this.pid, this.urb, this.owner := id, pid, urb, this;
      this.toggle, buffer, pos, errorCount, trace, nextTD := toggle, data, 0, 0, [], null;
    }

    /** The part of hcd_process_done_list that fills in the URB. */
    method CompleteUrb(ghost td: Td)
      requires Is(td)
      modifies urb
      ensures
        var c := Complete(td);
        && urb.ref == td.urb && urb.status == c.status && urb.length == c.length && urb.done && urb.data == td.buffer
        && urb.handlerRuns == old(urb.handlerRuns) + (if urb.hasHandler then 1 else 0)
    {
      urb.status := errorCount != 0;
      urb.length := urb.bufferLength - (|buffer| - pos);
      urb.data := buffer;
      urb.Done();
    }
  }

  /** `q` is the list that starts at `head` and follows nextTD. */
  ghost predicate Chain(q: seq<TdNode>, head: TdNode?)
    reads q`nextTD
  {
    && head == (if q == [] then null else q[0])
    && (forall i {:trigger q[i].nextTD} :: 0 <= i < |q| - 1 ==> q[i].nextTD == q[i + 1])
    && (q != [] ==> q[|q| - 1].nextTD == null)
    && (forall i, j :: 0 <= i < j < |q| ==> q[i] != q[j])
  }

  lemma {:induction false} ChainTail(q: seq<TdNode>, head: TdNode?)
    requires Chain(q, head) && q != []
    ensures Chain(q[1..], q[0].nextTD)
  {
    var r := q[1..];
    assert |r| > 0 ==> r[|r| - 1] == q[|q| - 1];
    forall i | 0 <= i < |r| - 1 ensures r[i].nextTD == r[i + 1] {
      assert r[i] == q[i + 1] && r[i + 1] == q[i + 2];
    }
  }

  ghost predicate TdsAre(q: seq<TdNode>, tds: seq<Td>, owner: object)
    reads q`toggle, q`buffer, q`pos, q`errorCount, q`trace, q`owner
  {
    |q| == |tds| && forall i :: 0 <= i < |q| ==> q[i].Is(tds[i]) && q[i].owner == owner
  }

  /** An endpoint descriptor whose head TD has its toggle resolved. */
  function Prepared(e: Epd): Epd
    requires e.queue != []
  {
    e.(queue := [Resolve(e.queue[0], e.carry)] + e.queue[1..])
  }

  lemma {:induction false} ReplyBounds(e: Epd, r: Reply)
    requires EpdOk(e) && e.queue != [] && ReplyFits(PacketOf(e), r)
    ensures r.Ack? ==> r.rlen <= Remaining(e.queue[0]) && (e.queue[0].pid.In? ==> |r.data| == r.rlen)
  {
  }

  /** As TdsAre, whoever owns the TDs. */
  ghost predicate TdsShow(q: seq<TdNode>, tds: seq<Td>)
    reads q`toggle, q`buffer, q`pos, q`errorCount, q`trace
  {
    |q| == |tds| && forall i :: 0 <= i < |q| ==> q[i].Is(tds[i])
  }

  lemma {:induction false} TdsTail(q: seq<TdNode>, tds: seq<Td>)
    requires TdsShow(q, tds) && q != []
    ensures tds != [] && q[0].Is(tds[0]) && TdsShow(q[1..], tds[1..])
  {
  }

  class EpdNode {
    const addr: nat
    const ep: nat
    const mps: nat
    var skip: bool
    var halted: bool
    var carry: nat
    var head: TdNode?
    var tail: TdNode?
    var nextEPD: EpdNode?
    ghost var queue: seq<TdNode>

    /** The next pointer is not read: relinking the list keeps every descriptor as it is. */
    ghost predicate Is(e: Epd)
      reads `skip, `halted, `carry, `head, `tail, `queue, queue
    {
      && addr == e.addr && ep == e.ep && mps == e.mps
      && skip == e.skip && halted == e.halted && carry == e.carry
      && TdsAre(queue, e.queue, this)
      && Chain(queue, head)
      && tail == (if queue == [] then null else queue[|queue| - 1])
    }

    /** hcd_epd_create. */
    constructor (addr: nat, ep: nat, mps: nat)
      ensures this.addr == addr && this.ep == ep && this.mps == mps
      ensures Is(NewEpd(addr, ep, mps)) && nextEPD == null && queue == []
    {
      this.addr, this.ep, this.mps := addr, ep, mps;
      skip, halted, carry, head, tail, nextEPD, queue := false, false, 0, null, null, null, [];
    }

    /** The tail of hcd_gtd_link: t goes to the end of the queue. */
    method Append(t: TdNode, ghost e: Epd, ghost td: Td)
      requires Is(e) && t !in queue && t.Is(td) && t.nextTD == null
      modifies `head, `tail, `skip, `halted, `queue, t`owner, if queue != [] then {queue[|queue| - 1]} else {}
      ensures Is(Enqueue(e, td)) && queue == old(queue) + [t]
    {
      hide TdNode.Is;
      t.owner := this;
      if tail != null {
        tail.nextTD := t;
      }
      if head == null {
        head := t;
      }
      tail := t;
      skip := false;
      halted := false;
      queue := queue + [t];
      assert forall i :: 0 <= i < |queue| - 1 ==> queue[i] == old(queue)[i];
    }

    /** The part of __hcd_unlink_gtd reached from hcd_gtd_send: the head leaves the queue. */
    method PopHead(ghost e: Epd, ghost td: Td)
      requires Is(e.(queue := [td] + e.queue)) && queue != []
      modifies `head, `tail, `queue
      ensures Is(e) && queue == old(queue)[1..]
    {
      var gtd := head;
      head := gtd.nextTD;
      if tail == gtd {
        tail := null;
      }
      queue := queue[1..];
      ChainTail(old(queue), gtd);
      assert queue == [] <==> gtd == old(queue)[|old(queue)| - 1];
    }

    /** The first half of hcd_gtd_send on the selected endpoint: resolve the head TD's toggle and build its packet. */
    method PreparePacket(ghost e: Epd) returns (packet: Packet)
      requires Is(e) && EpdOk(e) && queue != [] && e.queue != [] && SetupAssertion(e)
      modifies queue[0]
      ensures Is(Prepared(e)) && packet == PacketOf(e)
    {
      hide Chain, TdsAre;
      var p := head;
      Split(e);
      var buflen := |p.buffer| - p.pos;
      if p.toggle >= 2 {
        p.toggle := carry;
      }
      Join(e, Resolve(e.queue[0], e.carry));
      match p.pid
      case Setup =>
        assert buflen == SETUP_SIZE;
        packet := Packet(addr, ep, false, PidSetup, p.buffer[p.pos..], buflen);
      case Out =>
        var sz := Min(mps, buflen);
        packet := Packet(addr, ep, false, DataPid(p.toggle), p.buffer[p.pos..p.pos + sz], sz);
      case In => packet := Packet(addr, ep, true, DataPid(p.toggle), [], buflen);
    }

    /** The second half of hcd_gtd_send on the selected endpoint: the reply switch. */
    method Answer(r: Reply, ghost e: Epd) returns (retired: TdNode?)
      requires EpdOk(e) && e.queue != [] && queue != [] && ReplyFits(PacketOf(e), r) && Is(Prepared(e))
      modifies `head, `tail, `queue, `carry, `halted, queue[0]
      ensures
        var o := Absorb(e, r);
        && Is(o.epd)
        && (o.retired.None? ==> retired == null && queue == old(queue))
        && (o.retired.Some? ==>
              retired == old(queue[0]) && retired.Is(o.retired.value.td) && queue == old(queue)[1..])
    {
      hide PacketOf, Chain, TdsAre;
      var p := head;
      retired := null;
      Split(Prepared(e));
      ghost var td := Sent(e, r);
      p.trace := p.trace + [Exchange(PacketOf(e), r)];
      match r
      case Ack(rlen, data) =>
        ReplyBounds(e, r);
        retired := Acknowledge(rlen, data, e.(queue := e.queue[1..]), td);
      case Nak => Join(e, td);
      case Invalid => Join(e, td);
      case Err => retired := CountError(e, td);
      case Stall =>
        Join(e, td);
        halted := true;
        PopHead(e.(queue := e.queue[1..], halted := true), td);
        retired := p;
    }

    /** The __RET_ERR case: `td` is the head TD as sent. */
    method CountError(ghost e: Epd, ghost td: Td) returns (retired: TdNode?)
      requires queue != [] && e.queue != [] && head == queue[0] && head.Is(td) && head.owner == this && head !in queue[1..]
      requires addr == e.addr && ep == e.ep && mps == e.mps && skip == e.skip && halted == e.halted && carry == e.carry
      requires Chain(queue, head) && tail == queue[|queue| - 1] && TdsAre(queue[1..], e.queue[1..], this)
      modifies `head, `tail, `queue, head
      ensures
        if td.errorCount == MAX_ERRORS then
          Is(e.(queue := e.queue[1..])) && queue == old(queue)[1..] && retired == old(head) && retired.Is(td)
        else
          && Is(e.(queue := [td.(errorCount := td.errorCount + 1)] + e.queue[1..]))
          && queue == old(queue) && retired == null
    {
      hide Chain, TdsAre;
      retired := null;
      if head.errorCount == MAX_ERRORS {
        retired := head;
        Join(e, td);
        PopHead(e.(queue := e.queue[1..]), td);
      } else {
        head.errorCount := head.errorCount + 1;
        Join(e, td.(errorCount := td.errorCount + 1));
      }
    }

    /** The __RET_ACK case: `td` is the head TD as sent, `rest` the endpoint descriptor without it. */
    method Acknowledge(rlen: nat, data: seq<byte>, ghost rest: Epd, ghost td: Td) returns (retired: TdNode?)
      requires TdOk(td) && td.toggle <= 1 && rlen <= Remaining(td) && (td.pid.In? ==> |data| == rlen)
      requires queue != [] && head == queue[0] && head.Is(td) && head.owner == this && head !in queue[1..]
      requires addr == rest.addr && ep == rest.ep && mps == rest.mps
      requires skip == rest.skip && halted == rest.halted && carry == rest.carry
      requires Chain(queue, head) && tail == queue[|queue| - 1] && TdsAre(queue[1..], rest.queue, this)
      modifies `head, `tail, `queue, `carry, head
      ensures
        var td1 := Advance(td, rlen, data);
        if Finished(rest, td1, rlen) then
          && Is(rest.(carry := td1.toggle % 2)) && queue == old(queue)[1..]
          && retired == old(head) && retired.Is(td1)
        else Is(rest.(queue := [td1] + rest.queue)) && queue == old(queue) && retired == null
    {
      hide Chain, TdsAre;
      var p := head;
      if p.pid.In? {
        p.buffer := p.buffer[..p.pos] + data + p.buffer[p.pos + rlen..];
      }
      p.pos := p.pos + rlen;
      p.toggle := 1 - p.toggle;
      ghost var td1 := Advance(td, rlen, data);
      Join(rest.(queue := [td1] + rest.queue), td1);
      if p.pos >= |p.buffer| || (p.pid.In? && rlen < mps) {
        PopHead(rest, td1);
        carry := p.toggle % 2;
        retired := p;
      } else {
        retired := null;
      }
    }

    lemma {:induction false} Split(e: Epd)
      requires Is(e) && queue != []
      ensures head == queue[0] && head.Is(e.queue[0]) && head.owner == this
      ensures head !in queue[1..] && TdsAre(queue[1..], e.queue[1..], this)
    {
    }

    /** The head TD is `td`, the rest of the queue as before. */
    lemma {:induction false} Join(e: Epd, td: Td)
      requires addr == e.addr && ep == e.ep && mps == e.mps && skip == e.skip && halted == e.halted && carry == e.carry
      requires queue != [] && e.queue != [] && Chain(queue, head) && tail == queue[|queue| - 1]
      requires queue[0].Is(td) && queue[0].owner == this && TdsAre(queue[1..], e.queue[1..], this)
      ensures Is(e.(queue := [td] + e.queue[1..]))
    {
      var m := [td] + e.queue[1..];
      forall i | 0 <= i < |queue| ensures queue[i].Is(m[i]) && queue[i].owner == this {
        if i > 0 {
          assert queue[i] == queue[1..][i - 1];
        }
      }
    }
  }

  /** `l` is the list that starts at `head` and follows nextEPD. */
  ghost predicate EpdChain(l: seq<EpdNode>, head: EpdNode?)
    reads l`nextEPD
  {
    && head == (if l == [] then null else l[0])
    && (forall i {:trigger l[i].nextEPD} :: 0 <= i < |l| - 1 ==> l[i].nextEPD == l[i + 1])
    && (l != [] ==> l[|l| - 1].nextEPD == null)
  }

  lemma {:induction false} ChainSnoc(l: seq<EpdNode>, e: EpdNode, head: EpdNode?)
    requires e.nextEPD == null && head == (if l == [] then e else l[0])
    requires l != [] ==> l[|l| - 1].nextEPD == e
    requires forall i {:trigger l[i].nextEPD} :: 0 <= i < |l| - 1 ==> l[i].nextEPD == l[i + 1]
    ensures EpdChain(l + [e], head)
  {
    var l' := l + [e];
    forall i | 0 <= i < |l'| - 1 ensures l'[i].nextEPD == l'[i + 1] {
      assert l'[i] == l[i];
    }
  }

  lemma {:induction false} NewEpdOk(addr: nat, ep: nat, mps: nat)
    requires addr <= 127 && ep < 16
    ensures EpdOk(NewEpd(addr, ep, mps))
  {
  }

  /** A list of endpoint descriptors with one for (addr, ep). */
  function WithEpd(l: seq<Epd>, addr: nat, ep: nat, mps: nat): seq<Epd> {
    if FindFrom(l, addr, ep, 0) < |l| then l else l + [NewEpd(addr, ep, mps)]
  }

  lemma {:induction false} LinkIntoWithEpd(l: seq<Epd>, addr: nat, ep: nat, mps: nat, td: Td)
    ensures
      var i, l1 := FindFrom(l, addr, ep, 0), WithEpd(l, addr, ep, mps);
      i < |l1| && LinkInto(l, addr, ep, mps, td) == l1[i := Enqueue(l1[i], td)]
  {
  }

  /** One of the controller's two lists: `head` is control_list or bulk_list. */
  class EpdList {
    var head: EpdNode?
    ghost var nodes: seq<EpdNode>
    ghost var model: seq<Epd>
    ghost var repr: set<object>
    /** The URBs the queued TDs belong to are among these. */
    ghost var urbs: set<Urb>

    ghost predicate Holds(e: EpdNode)
      reads `repr, `urbs, e`queue
    {
      e in repr && forall j :: 0 <= j < |e.queue| ==> e.queue[j] in repr && e.queue[j].urb in urbs
    }

    ghost predicate Shape()
      reads this, repr
    {
      && this in repr && (forall u: Urb :: u !in repr)
      && (forall i :: 0 <= i < |nodes| ==> nodes[i] in repr && Holds(nodes[i])) && EpdChain(nodes, head)
    }

    /** Each node is the endpoint descriptor at its place in the model. */
    ghost predicate Valid()
      reads this, repr
      ensures Valid() ==> this in repr && forall u: Urb :: u !in repr
    {
      && Shape() && |nodes| == |model| && (forall i :: 0 <= i < |nodes| ==> nodes[i].Is(model[i]))
      && UniqueKeys(model) && AllOk(model)
    }

    constructor ()
      ensures Valid() && fresh(repr) && model == [] && head == null && urbs == {}
    {
      head, nodes, model, repr, urbs := null, [], [], {this}, {};
    }

    lemma {:induction false} Distinct()
      requires Valid()
      ensures forall i, j :: 0 <= i < j < |nodes| ==> nodes[i] != nodes[j]
    {
      forall i, j | 0 <= i < j < |nodes| ensures nodes[i] != nodes[j] {
        assert nodes[i].Is(model[i]) && nodes[j].Is(model[j]);
      }
    }

    /** hcd_epd_create, with the new endpoint descriptor linked after `last`, or first on the list. */
    method Create(last: EpdNode?, addr: nat, ep: nat, mps: nat) returns (e: EpdNode)
      requires Valid() && ep < 16 && addr <= 127 && FindFrom(model, addr, ep, 0) == |model|
      requires last == (if nodes == [] then null else nodes[|nodes| - 1])
      modifies this, repr
      ensures Valid() && fresh(repr - old(repr)) && urbs == old(urbs)
      ensures model == old(model) + [NewEpd(addr, ep, mps)] && nodes == old(nodes) + [e]
    {
      hide EpdNode.Is, EpdOk, EpdChain, Holds, UniqueKeys;
      NewEpdOk(addr, ep, mps);
      e := new EpdNode(addr, ep, mps);
      Attach(last, e);
      Extend(e, NewEpd(addr, ep, mps));
    }

    /** The two assignments that put e at the end of the list. */
    method Attach(last: EpdNode?, e: EpdNode)
      requires Valid() && e !in repr && e.nextEPD == null && e.queue == []
      requires last == (if nodes == [] then null else nodes[|nodes| - 1])
      modifies this`head, if last != null then {last} else {}
      ensures EpdChain(nodes + [e], head)
      ensures forall i :: 0 <= i < |nodes| ==> Holds(nodes[i]) && nodes[i].Is(model[i])
    {
      hide EpdNode.Is, EpdOk;
      Distinct();
      if last != null {
        last.nextEPD := e;
      } else {
        head := e;
      }
      forall i | 0 <= i < |nodes| - 1 ensures nodes[i].nextEPD == nodes[i + 1] {
        assert nodes[i] != nodes[|nodes| - 1];
      }
      ChainSnoc(nodes, e, head);
    }

    ghost method Extend(e: EpdNode, m: Epd)
      requires this in repr && (forall u: Urb :: u !in repr)
      requires forall i :: 0 <= i < |nodes| ==> nodes[i] in repr && Holds(nodes[i])
      requires |nodes| == |model| && forall i :: 0 <= i < |nodes| ==> nodes[i].Is(model[i])
      requires EpdChain(nodes + [e], head) && e.queue == [] && e.Is(m)
      requires UniqueKeys(model) && AllOk(model) && EpdOk(m) && FindFrom(model, m.addr, m.ep, 0) == |model|
      modifies this`nodes, this`model, this`repr
      ensures Valid() && model == old(model) + [m] && nodes == old(nodes) + [e] && repr == old(repr) + {e}
    {
      hide EpdNode.Is, EpdOk, EpdChain;
      nodes := nodes + [e];
      repr := repr + {e};
      model := model + [m];
      forall i | 0 <= i < |nodes| ensures nodes[i] in repr && Holds(nodes[i]) && nodes[i].Is(model[i]) {
        if i < |nodes| - 1 {
          assert old(Holds(nodes[i])) && old(nodes[i].Is(model[i]));
        }
      }
    }

    lemma {:induction false} At(i: nat)
      requires Valid() && i < |nodes|
      ensures nodes[i] in repr && Holds(nodes[i]) && nodes[i].Is(model[i]) && EpdOk(model[i])
      ensures |nodes[i].queue| == |model[i].queue|
      ensures nodes[i].nextEPD == if i + 1 < |nodes| then nodes[i + 1] else null
      ensures nodes[i].head == null <==> model[i].queue == []
      ensures nodes[i].addr == model[i].addr && nodes[i].ep == model[i].ep
    {
    }

    /** The search of hcd_gtd_link: it stops at the endpoint descriptor for (addr, ep), or at the last one. */
    method Search(addr: nat, ep: nat) returns (p: EpdNode?, ghost i: nat)
      requires Valid()
      ensures p == null <==> nodes == []
      ensures p != null ==> i < |nodes| && p == nodes[i]
      ensures p != null ==>
        if p.addr == addr && p.ep == ep then i == FindFrom(model, addr, ep, 0)
        else i == |nodes| - 1 && FindFrom(model, addr, ep, 0) == |model|
    {
      hide EpdNode.Is, Holds, UniqueKeys, AllOk;
      p := head;
      i := 0;
      if p == null {
        return;
      }
      At(0);
      while !(p.addr == addr && p.ep == ep) && p.nextEPD != null
        invariant i < |nodes| && p == nodes[i] && p.addr == model[i].addr && p.ep == model[i].ep
        invariant FindFrom(model, addr, ep, 0) == FindFrom(model, addr, ep, i)
        decreases |nodes| - i
      {
        At(i);
        p := p.nextEPD;
        i := i + 1;
        At(i);
      }
      At(i);
    }

    /** The search of hcd_gtd_link, with the endpoint descriptor created at the end of the list if need be. */
    method FindOrCreate(addr: nat, ep: nat, mps: nat) returns (p: EpdNode, ghost i: nat)
      requires Valid() && ep < 16 && (FindFrom(model, addr, ep, 0) == |model| ==> addr <= 127)
      modifies this, repr
      ensures Valid() && fresh(repr - old(repr)) && urbs == old(urbs)
      ensures model == old(WithEpd(model, addr, ep, mps))
      ensures i == FindFrom(old(model), addr, ep, 0) < |nodes| && p == nodes[i]
    {
      var q, k := Search(addr, ep);
      if q == null || !(q.addr == addr && q.ep == ep) {
        i := |nodes|;
        p := Create(q, addr, ep, mps);
      } else {
        p, i := q, k;
      }
    }

    /** The replacement of one endpoint descriptor by its new state, once its node shows it. */
    ghost method Replace(i: nat, e: Epd)
      requires Shape() && i < |nodes| == |model| && nodes[i].Is(e) && EpdOk(e)
      requires forall j :: 0 <= j < |nodes| && j != i ==> nodes[j].Is(model[j])
      requires UniqueKeys(model) && AllOk(model) && e.addr == model[i].addr && e.ep == model[i].ep
      modifies `model
      ensures Valid() && model == old(model)[i := e]
    {
      hide EpdNode.Is, EpdOk, Holds, EpdChain;
      model := model[i := e];
    }

    /** The rest of hcd_gtd_link, given the new TD. */
    method LinkTd(addr: nat, ep: nat, mps: nat, t: TdNode, ghost td: Td)
      requires Valid() && ep < 16 && (FindFrom(model, addr, ep, 0) == |model| ==> addr <= 127)
      requires t !in repr && t.Is(td) && t.nextTD == null && TdOk(td)
      modifies this, repr, t
      ensures Valid() && fresh(repr - old(repr) - {t}) && urbs == old(urbs) + {t.urb}
      ensures model == old(LinkInto(model, addr, ep, mps, td))
    {
      hide EpdList.Valid, EpdNode.Is, HcdModel.FindFrom, EpdOk;
      LinkIntoWithEpd(model, addr, ep, mps, td);
      var p, i := FindOrCreate(addr, ep, mps);
      AppendAt(p, i, t, td);
    }

    method AppendAt(p: EpdNode, ghost i: nat, t: TdNode, ghost td: Td)
      requires Valid() && i < |nodes| && p == nodes[i]
      requires t !in repr && t.Is(td) && t.nextTD == null && TdOk(td)
      modifies this, repr, t
      ensures Valid() && repr == old(repr) + {t} && urbs == old(urbs) + {t.urb}
      ensures model == old(model[i := Enqueue(model[i], td)])
    {
      hide EpdNode.Is, Chain, TdsAre, EpdChain;
      At(i);
      Distinct();
      Elsewhere(i);
      ghost var e := model[i];
      p.Append(t, e, td);
      repr, urbs := repr + {t}, urbs + {t.urb};
      assert Shape();
      EnqueueOk(e, td);
      Replace(i, Enqueue(e, td));
    }

    lemma {:induction false} EnqueueOk(e: Epd, td: Td)
      requires EpdOk(e) && TdOk(td)
      ensures EpdOk(Enqueue(e, td))
    {
    }

    /** The TDs of one endpoint descriptor are in no other. */
    lemma {:induction false} Elsewhere(i: nat)
      requires Valid() && i < |nodes|
      ensures forall j, k :: 0 <= j < |nodes| && j != i && 0 <= k < |nodes[j].queue| ==> nodes[j].queue[k] !in nodes[i].queue
    {
      forall j, k | 0 <= j < |nodes| && j != i && 0 <= k < |nodes[j].queue|
        ensures nodes[j].queue[k] !in nodes[i].queue
      {
        assert nodes[i].Is(model[i]) && nodes[j].Is(model[j]);
      }
    }

    /** The walk of hcd_gtd_send from the captured list head to the first endpoint descriptor it can serve. */
    method Select(epd: EpdNode?) returns (p: EpdNode?, ghost i: nat)
      requires Valid() && (epd != null ==> epd == head)
      ensures i == (if epd != null then FirstEligible(model, 0) else |model|)
      ensures |nodes| == |model|
      ensures p == if epd != null && FirstEligible(model, 0) < |model| then nodes[FirstEligible(model, 0)] else null
    {
      hide EpdNode.Is, Chain, TdsAre, UniqueKeys, AllOk;
      p := epd;
      i := if epd == null then |model| else 0;
      if epd == null {
        return;
      }
      At(0);
      while p != null && (p.skip || p.halted || p.head == null)
        invariant i <= |nodes| == |model| && (if i < |nodes| then p == nodes[i] else p == null)
        invariant FirstEligible(model, 0) == FirstEligible(model, i)
        decreases |nodes| - i
      {
        At(i);
        Flags(i);
        p := p.nextEPD;
        i := i + 1;
      }
      if p != null {
        At(i);
        Flags(i);
      }
    }

    lemma {:induction false} Flags(i: nat)
      requires Valid() && i < |nodes|
      ensures nodes[i].skip == model[i].skip && nodes[i].halted == model[i].halted
      ensures |nodes[i].queue| == |model[i].queue|
    {
    }

    /** Whether a send from here would pass the assertion on the SETUP branch, for a device with this many endpoints. */
    method Passes(epd: EpdNode?, eps: nat) returns (ok: bool)
      requires Valid() && (epd != null ==> epd == head)
      ensures
        var i := if epd != null then FirstEligible(model, 0) else |model|;
        ok <==> (i < |model| ==> EpdOk(model[i]) && SetupAssertion(model[i]) && model[i].ep < eps)
    {
      hide HcdModel.FirstEligible;
      ghost var i;
      var p;
      p, i := Select(epd);
      ok := true;
      if p != null {
        At(i);
        p.Split(model[i]);
        ok := p.ep < eps && (p.head.pid.Setup? ==> |p.head.buffer| - p.head.pos == SETUP_SIZE);
      }
    }

    /** The first half of hcd_gtd_send on this list: the packet that goes out, if any, and the endpoint it is for. */
    method Begin(epd: EpdNode?) returns (p: EpdNode?, packet: Option<Packet>)
      requires Valid() && (epd != null ==> epd == head)
      requires var i := if epd != null then FirstEligible(model, 0) else |model|; i < |model| ==> SetupAssertion(model[i])
      modifies this, repr
      ensures Valid() && repr == old(repr) && urbs == old(urbs) && packet == Outgoing(old(model), epd != null)
      ensures packet.None? ==> p == null && model == old(model)
      ensures packet.Some? ==>
        var i := FirstEligible(old(model), 0);
        i < |old(model)| && i < |nodes| && p == nodes[i] && model == old(model)[i := Prepared(old(model)[i])]
    {
      ghost var i;
      p, i := Select(epd);
      if p == null {
        return null, None;
      }
      var sent := PrepareAt(p, i);
      packet := Some(sent);
    }

    method PrepareAt(p: EpdNode, ghost i: nat) returns (packet: Packet)
      requires Valid() && i < |model| && p == nodes[i] && model[i].queue != [] && SetupAssertion(model[i])
      modifies this, repr
      ensures Valid() && repr == old(repr) && urbs == old(urbs) && nodes == old(nodes)
      ensures packet == PacketOf(old(model)[i]) && model == old(model)[i := Prepared(old(model)[i])]
    {
      hide EpdNode.Is, Chain, TdsAre, EpdChain, PacketOf, EpdOk, Prepared;
      At(i);
      Distinct();
      Elsewhere(i);
      HeadOnce(i);
      ghost var e := model[i];
      PreparedOk(e);
      packet := p.PreparePacket(e);
      assert Shape();
      Replace(i, Prepared(e));
    }

    lemma {:induction false} PreparedOk(e: Epd)
      requires EpdOk(e) && e.queue != []
      ensures EpdOk(Prepared(e)) && Prepared(e).addr == e.addr && Prepared(e).ep == e.ep && Prepared(e).queue != []
    {
    }

    /** The second half: the reply to the packet of endpoint i, which was `e` before the first half. */
    method Finish(p: EpdNode, ghost i: nat, r: Reply, ghost e: Epd) returns (retired: TdNode?)
      requires Valid() && i < |model| && p == nodes[i] && EpdOk(e) && e.queue != [] && model[i] == Prepared(e)
      requires ReplyFits(PacketOf(e), r)
      modifies this, repr
      ensures Valid() && urbs == old(urbs)
      ensures
        var o := Absorb(e, r);
        && model == old(model)[i := o.epd]
        && (o.retired.None? ==> retired == null && repr == old(repr))
        && (o.retired.Some? ==>
              && retired != null && retired in old(repr) && retired.Is(o.retired.value.td) && retired.urb in urbs
              && repr == old(repr) - {retired})
    {
      hide EpdNode.Is, Chain, TdsAre, EpdChain, Absorb, PacketOf, EpdOk, Prepared;
      PreparedOk(e);
      At(i);
      Distinct();
      Elsewhere(i);
      HeadOnce(i);
      retired := p.Answer(r, e);
      AbsorbKeepsOk(e, r);
      AbsorbKeepsKey(e, r);
      if retired != null {
        repr := repr - {retired};
        assert retired as object != this;
        forall j | 0 <= j < |nodes| ensures nodes[j] in repr && Holds(nodes[j]) {
          assert nodes[j] as object != retired;
          assert old(Holds(nodes[j]));
        }
      }
      assert Shape();
      Replace(i, Absorb(e, r).epd);
    }

    lemma {:induction false} HeadOnce(i: nat)
      requires Valid() && i < |nodes| && model[i].queue != []
      ensures nodes[i].queue != [] && forall k :: 1 <= k < |nodes[i].queue| ==> nodes[i].queue[k] != nodes[i].queue[0]
    {
      assert nodes[i].Is(model[i]);
    }

    lemma {:induction false} AbsorbKeepsKey(e: Epd, r: Reply)
      requires EpdOk(e) && e.queue != [] && ReplyFits(PacketOf(e), r)
      ensures Absorb(e, r).epd.addr == e.addr && Absorb(e, r).epd.ep == e.ep
    {
    }
  }

  /** hcd_t. */
  class Controller {
    const control: EpdList
    const bulk: EpdList
    var notify: bv8
    var doneList: TdNode?
    ghost var done: seq<TdNode>
    ghost var doneTds: seq<Td>
    ghost var nextId: nat

    ghost predicate Valid()
      reads this, control, bulk, Footprint()
    {
      && control.Valid() && bulk.Valid() && control.repr !! bulk.repr
      && this !in control.repr && this !in bulk.repr
      && (forall i :: 0 <= i < |done| ==> done[i] !in control.repr && done[i] !in bulk.repr && done[i].urb in Urbs())
      && Chain(done, doneList) && TdsShow(done, doneTds)
    }

    ghost function Model(): Hcd
      reads this, control, bulk
    {
      Hcd(control.model, bulk.model, doneTds, notify, nextId)
    }

    ghost function Footprint(): set<object>
      reads this, control, bulk
    {
      {this} + control.repr + bulk.repr + set t | t in done
    }

    /** The URBs of the TDs on their way are among these. */
    ghost function Urbs(): set<Urb>
      reads control`urbs, bulk`urbs
    {
      control.urbs + bulk.urbs
    }

    function ListAt(kind: ListKind): EpdList {
      if kind.Control? then control else bulk
    }

    /** hcd_init. */
    constructor ()
      ensures Valid() && fresh(Footprint()) && Model() == Hcd([], [], [], 0, 0) && Urbs() == {}
    {
      hide EpdList.Valid;
      control := new EpdList();
      bulk := new EpdList();
      notify, doneList, done, doneTds, nextId := 0, null, [], [], 0;
    }

    /** hcd_gtd_link. */
    method GtdLink(addr: nat, endpoint: nat, dirIn: bool, setup: bool, toggle: nat, mps: nat, data: seq<byte>, urb: Urb)
      requires Valid()
      requires LinkAllowed(Model(), LinkReq(addr, endpoint, dirIn, setup, toggle, mps, data, urb.ref, urb.bufferLength))
      modifies Footprint()
      ensures Valid() && fresh(Footprint() - old(Footprint())) && Urbs() == old(Urbs()) + {urb}
      ensures Model() ==
        Link(old(Model()), LinkReq(addr, endpoint, dirIn, setup, toggle, mps, data, urb.ref, urb.bufferLength))
    {
      hide EpdList.Valid, TdsShow, Chain, Urbs, TdNode.Is, LinkInto, HcdModel.FindFrom;
      ghost var req := LinkReq(addr, endpoint, dirIn, setup, toggle, mps, data, urb.ref, urb.bufferLength);
      var ep := endpoint % 16;
      var pid := if setup then Setup else if dirIn then In else Out;
      var t := NewNode(pid, toggle, data, urb);
      if setup || ep == 0 {
        LinkOn(control, addr, ep, mps, t, NewTd(nextId, req));
        Linked(NOTIFY_CONTROL);
      } else {
        LinkOn(bulk, addr, ep, mps, t, NewTd(nextId, req));
        Linked(NOTIFY_BULK);
      }
    }

    /** A TD known to nobody else yet. */
    method NewNode(pid: TdPid, toggle: nat, data: seq<byte>, urb: Urb) returns (t: TdNode)
      requires Valid()
      ensures Valid() && fresh(t) && t !in Footprint() && t.nextTD == null && t.urb == urb
      ensures t.Is(Td(nextId, urb.ref, urb.bufferLength, pid, toggle, data, 0, 0, []))
      ensures Model() == old(Model()) && Footprint() == old(Footprint()) && Urbs() == old(Urbs())
    {
      hide EpdList.Valid, TdsShow, Chain;
      t := new TdNode(nextId, pid, toggle, data, urb);
    }

    method Linked(mask: bv8)
      requires Valid()
      modifies `notify, `nextId
      ensures Valid() && Footprint() == old(Footprint()) && Urbs() == old(Urbs())
      ensures Model() == Notify(old(Model()), mask).(nextId := old(nextId) + 1)
    {
      hide EpdList.Valid, TdsShow, Chain;
      notify := notify | mask;
      nextId := nextId + 1;
    }

    /** One of the two lists takes the new TD; the other one and the done list keep theirs. */
    method LinkOn(list: EpdList, addr: nat, ep: nat, mps: nat, t: TdNode, ghost td: Td)
      requires Valid() && (list == control || list == bulk) && ep < 16
      requires FindFrom(list.model, addr, ep, 0) == |list.model| ==> addr <= 127
      requires t !in Footprint() && t.Is(td) && t.nextTD == null && TdOk(td)
      modifies list, list.repr, t
      ensures Valid() && fresh(Footprint() - old(Footprint()) - {t}) && Urbs() == old(Urbs()) + {t.urb}
      ensures list.model == old(LinkInto(list.model, addr, ep, mps, td))
    {
      hide EpdList.Valid, TdsShow, Chain, LinkInto, HcdModel.FindFrom;
      list.LinkTd(addr, ep, mps, t, td);
    }

    /** All TDs are gone, and with them their URBs. */
    ghost method Forget()
      requires Valid() && doneTds == []
      requires forall i :: 0 <= i < |control.model| ==> control.model[i].queue == []
      requires forall i :: 0 <= i < |bulk.model| ==> bulk.model[i].queue == []
      modifies control`urbs, bulk`urbs
      ensures Valid() && Urbs() == {}
    {
      hide EpdNode.Is, EpdChain;
      EmptyQueues(control);
      EmptyQueues(bulk);
      control.urbs := {};
      bulk.urbs := {};
    }

    lemma {:induction false} EmptyQueues(list: EpdList)
      requires list.Valid() && forall i :: 0 <= i < |list.model| ==> list.model[i].queue == []
      ensures forall i :: 0 <= i < |list.nodes| ==> list.nodes[i].queue == []
    {
      forall i | 0 <= i < |list.nodes| ensures list.nodes[i].queue == [] {
        list.At(i);
      }
    }

    /** hcd_gtd_send with `epd` the list head captured before the lock; `device` answers the packet. */
    method GtdSend(kind: ListKind, epd: EpdNode?, device: Packet -> Reply) returns (sent: Option<Packet>)
      requires Valid() && (epd != null ==> epd == ListAt(kind).head) && forall p: Packet :: ReplyFits(p, device(p))
      requires SendAllowed(Model(), kind, epd != null, Nak)
      modifies Footprint()
      ensures Valid() && Footprint() == old(Footprint()) && Urbs() == old(Urbs())
      ensures sent == Outgoing(ListOf(old(Model()), kind), epd != null)
      ensures var r := if sent.Some? then device(sent.value) else Nak;
        SendAllowed(old(Model()), kind, epd != null, r) && Model() == Send(old(Model()), kind, epd != null, r)
    {
      hide Valid, Absorb, PacketOf, HcdModel.FirstEligible, EpdOk;
      ghost var h := Model();
      var p;
      p, sent := BeginSend(kind, epd);
      if sent.Some? {
        EndSend(kind, p, device(sent.value), h);
      }
    }

    /** Between the two halves of hcd_gtd_send: p is the endpoint that was first eligible in h, its head TD prepared. */
    ghost predicate Awaiting(kind: ListKind, p: EpdNode?, h: Hcd)
      reads this, control, bulk
    {
      var l, list := ListOf(h, kind), ListAt(kind);
      var i := FirstEligible(l, 0);
      && i < |l| && i < |list.nodes| && p == list.nodes[i] && l[i].queue != []
      && Model() == WithList(h, kind, l[i := Prepared(l[i])])
    }

    /** hcd_gtd_send up to the call of __usb_transfer. */
    method BeginSend(kind: ListKind, epd: EpdNode?) returns (p: EpdNode?, packet: Option<Packet>)
      requires Valid() && (epd != null ==> epd == ListAt(kind).head)
      requires SendAllowed(Model(), kind, epd != null, Nak)
      modifies Footprint()
      ensures Valid() && Footprint() == old(Footprint()) && Urbs() == old(Urbs())
      ensures packet == Outgoing(ListOf(old(Model()), kind), epd != null)
      ensures packet.None? ==> Model() == Send(old(Model()), kind, epd != null, Nak)
      ensures packet.Some? ==> p != null && Awaiting(kind, p, old(Model()))
    {
      hide EpdList.Valid, TdsShow, Chain, Absorb, PacketOf, HcdModel.FirstEligible, EpdOk;
      if kind.Control? {
        p, packet := BeginOn(control, epd);
      } else {
        p, packet := BeginOn(bulk, epd);
      }
      if packet.None? {
        SetNotify(notify & !Mask(kind));
      }
    }

    /** The notification word alone changes. */
    method SetNotify(bits: bv8)
      requires Valid()
      modifies `notify
      ensures Valid() && Footprint() == old(Footprint()) && Urbs() == old(Urbs())
      ensures Model() == old(Model()).(notify := bits)
    {
      hide EpdList.Valid, TdsShow, Chain;
      notify := bits;
    }

    /** One of the two lists prepares its packet; the other one and the done list stay as they are. */
    method BeginOn(list: EpdList, epd: EpdNode?) returns (p: EpdNode?, packet: Option<Packet>)
      requires Valid() && (list == control || list == bulk) && (epd != null ==> epd == list.head)
      requires AllOk(list.model)
      requires var i := if epd != null then FirstEligible(list.model, 0) else |list.model|;
        i < |list.model| ==> SetupAssertion(list.model[i])
      modifies list, list.repr
      ensures Valid() && Footprint() == old(Footprint()) && Urbs() == old(Urbs())
      ensures packet == Outgoing(old(list.model), epd != null)
      ensures packet.None? ==> p == null && list.model == old(list.model)
      ensures packet.Some? ==>
        var i := FirstEligible(old(list.model), 0);
        i < |old(list.model)| && i < |list.nodes| && p == list.nodes[i]
        && list.model == old(list.model)[i := Prepared(old(list.model)[i])]
    {
      hide EpdList.Valid, TdsShow, Chain, Absorb, PacketOf, HcdModel.FirstEligible, EpdOk;
      p, packet := list.Begin(epd);
    }

    lemma {:induction false} SendIs(h: Hcd, kind: ListKind, r: Reply)
      requires SendAllowed(h, kind, true, r) && FirstEligible(ListOf(h, kind), 0) < |ListOf(h, kind)|
      ensures
        var l, i := ListOf(h, kind), FirstEligible(ListOf(h, kind), 0);
        var o := Absorb(l[i], r);
        var h1 := WithList(h, kind, l[i := o.epd]);
        Send(h, kind, true, r) ==
          if o.retired.Some? then Notify(h1.(done := [o.retired.value.td] + h1.done), NOTIFY_DONE) else h1
    {
      hide Absorb, PacketOf;
    }

    /** hcd_gtd_send from the reply of __usb_transfer on; h is the state before the first half. */
    method EndSend(kind: ListKind, p: EpdNode, r: Reply, ghost h: Hcd)
      requires Valid() && Awaiting(kind, p, h) && SendAllowed(h, kind, true, r)
      modifies Footprint()
      ensures Valid() && Footprint() == old(Footprint()) && Urbs() == old(Urbs()) && Model() == Send(h, kind, true, r)
    {
      hide EpdList.Valid, TdsShow, Chain, Absorb, PacketOf, HcdModel.FirstEligible, HcdModel.Send, EpdOk;
      ghost var i := FirstEligible(ListOf(h, kind), 0);
      ghost var e := ListOf(h, kind)[i];
      SendIs(h, kind, r);
      var retired := FinishOn(ListAt(kind), p, i, r, e);
      assert Model() == WithList(h, kind, ListOf(h, kind)[i := Absorb(e, r).epd]);
      if retired != null {
        AppendToDoneList(retired, Absorb(e, r).retired.value.td);
      }
    }

    /** One of the two lists takes the reply; a retired TD is then on no list. */
    method FinishOn(list: EpdList, p: EpdNode, ghost i: nat, r: Reply, ghost e: Epd) returns (retired: TdNode?)
      requires Valid() && (list == control || list == bulk) && i < |list.model| && i < |list.nodes| && p == list.nodes[i]
      requires EpdOk(e) && e.queue != [] && list.model[i] == Prepared(e) && ReplyFits(PacketOf(e), r)
      modifies list, list.repr
      ensures Valid() && Urbs() == old(Urbs()) && list.model == old(list.model)[i := Absorb(e, r).epd]
      ensures Absorb(e, r).retired.None? ==> retired == null && Footprint() == old(Footprint())
      ensures Absorb(e, r).retired.Some? ==>
        && retired != null && retired !in control.repr && retired !in bulk.repr && retired !in done
        && retired.Is(Absorb(e, r).retired.value.td) && retired.urb in Urbs()
        && Footprint() + {retired} == old(Footprint())
    {
      hide EpdList.Valid, TdsShow, Chain, Absorb, PacketOf, EpdOk;
      retired := list.Finish(p, i, r, e);
    }

    /** __append_to_done_list. */
    method AppendToDoneList(gtd: TdNode, ghost td: Td)
      requires Valid() && gtd !in control.repr && gtd !in bulk.repr && gtd !in done && gtd.Is(td) && gtd.urb in Urbs()
      modifies `doneList, `done, `doneTds, `notify, gtd
      ensures Valid() && done == [gtd] + old(done)
      ensures Model() == Notify(old(Model()).(done := [td] + old(Model()).done), NOTIFY_DONE)
    {
      hide EpdList.Valid, Urbs;
      if doneList == null {
        doneList := gtd;
        gtd.nextTD := null;
      } else {
        gtd.nextTD := doneList;
        doneList := gtd;
      }
      done := [gtd] + done;
      doneTds := [td] + doneTds;
      notify := notify | NOTIFY_DONE;
    }

    /** hcd_process_done_list; the completed URB is returned. */
    method ProcessDoneList() returns (urb: Urb?)
      requires Valid()
      modifies `notify, `doneList, `done, `doneTds, if done == [] then {} else {done[0].urb}
      ensures Valid() && Footprint() <= old(Footprint()) && Urbs() == old(Urbs())
      ensures Model() == ProcessDone(old(Model())).0
      ensures urb == (if old(done) == [] then null else old(done)[0].urb)
      ensures urb == null <==> ProcessDone(old(Model())).1 == None
      ensures urb != null ==>
        var c := ProcessDone(old(Model())).1.value;
        && urb in Urbs() && urb.ref == c.td.urb && urb.status == c.status && urb.length == c.length && urb.done
        && urb.data == c.td.buffer
        && urb.handlerRuns == old(done[0].urb.handlerRuns) + (if urb.hasHandler then 1 else 0)
    {
      hide EpdList.Valid, Chain, TdsShow;
      DoneHead();
      if doneList == null {
        notify := notify & !NOTIFY_DONE;
        return null;
      }
      var td := doneList;
      urb := td.urb;
      PopDone();
      td.CompleteUrb(old(doneTds)[0]);
    }

    lemma {:induction false} DoneHead()
      requires Valid()
      ensures |done| == |doneTds| && doneList == (if done == [] then null else done[0])
      ensures done != [] ==> doneList.Is(doneTds[0])
    {
    }

    /** The TD at the head of the done list leaves it. */
    method PopDone()
      requires Valid() && done != []
      modifies `doneList, `done, `doneTds
      ensures Valid() && done == old(done)[1..] && doneTds == old(doneTds)[1..]
    {
      hide EpdList.Valid;
      TdsTail(done, doneTds);
      ChainTail(done, doneList);
      doneList := doneList.nextTD;
      done := done[1..];
      doneTds := doneTds[1..];
    }
  }
}
