/** The number of TDs on their way: what each step of the lockstep system does to it. */
module TdCount {
  import opened UsbTypes
  import opened HcdModel
  import opened HcdLoop
  import opened DeviceModel
  import opened FirmwareModel
  import opened ControlDevice
  import opened Lockstep

  function Queued(l: seq<Epd>): nat {
    if l == [] then 0 else Queued(l[..|l| - 1]) + |l[|l| - 1].queue|
  }

  function Tds(h: Hcd): nat {
    Queued(h.control) + Queued(h.bulk) + |h.done|
  }

  lemma {:induction false} QueuedAppend(l: seq<Epd>, e: Epd)
    ensures Queued(l + [e]) == Queued(l) + |e.queue|
  {
    assert (l + [e])[..|l|] == l;
  }

  lemma {:induction false} QueuedUpdate(l: seq<Epd>, i: nat, e: Epd)
    requires i < |l|
    ensures Queued(l[i := e]) == Queued(l) - |l[i].queue| + |e.queue|
  {
    if i == |l| - 1 {
      assert l[i := e][..|l| - 1] == l[..|l| - 1];
    } else {
      QueuedUpdate(l[..|l| - 1], i, e);
      assert l[i := e][..|l| - 1] == l[..|l| - 1][i := e];
    }
  }

  lemma {:induction false} NoneQueued(l: seq<Epd>)
    ensures Queued(l) == 0 <==> NoQueues(l)
  {
    if l != [] {
      var l0 := l[..|l| - 1];
      NoneQueued(l0);
      assert l == l0 + [l[|l| - 1]];
      if NoQueues(l0) && l[|l| - 1].queue == [] {
        assert forall i :: 0 <= i < |l| ==> l[i].queue == [];
      }
      if NoQueues(l) {
        assert forall i :: 0 <= i < |l0| ==> l0[i] == l[i];
        assert l[|l| - 1].queue == [];
      }
    }
  }

  lemma {:induction false} LinkCounts(h: Hcd, req: LinkReq)
    ensures Tds(Link(h, req)) == Tds(h) + 1
  {
    var l := ListOf(h, KindOf(req));
    var i := FindFrom(l, req.addr, req.ep % 16, 0);
    var td := NewTd(h.nextId, req);
    if i < |l| {
      QueuedUpdate(l, i, Enqueue(l[i], td));
    } else {
      QueuedAppend(l, Enqueue(NewEpd(req.addr, req.ep % 16, req.mps), td));
    }
  }

  lemma {:induction false} SendCounts(h: Hcd, kind: ListKind, headSeen: bool, r: Reply)
    requires SendAllowed(h, kind, headSeen, r)
    ensures Tds(Send(h, kind, headSeen, r)) == Tds(h)
  {
    hide PacketOf, SetupAssertion, Queued, EpdOk;
    var l := ListOf(h, kind);
    var i := Selected(h, kind, headSeen);
    if i < |l| {
      QueuedUpdate(l, i, Absorb(l[i], r).epd);
      AbsorbQueue(l[i], r);
    }
  }

  lemma {:induction false} AbsorbQueue(e: Epd, r: Reply)
    requires EpdOk(e) && e.queue != [] && ReplyFits(PacketOf(e), r)
    ensures |Absorb(e, r).epd.queue| == |e.queue| - (if Absorb(e, r).retired.Some? then 1 else 0)
  {
  }

  /** An iteration of the loop completes as many TDs as leave the system. */
  lemma {:induction false} StepCounts(w: World, key: byte)
    ensures
      var w' := LoopStep(w, key);
      Tds(w'.h) + |w'.completed| == Tds(w.h) + |w.completed| && |w'.completed| >= |w.completed|
  {
    hide Queued, Send, Transfer, Serve, PacketOf;
    if w.h.notify != 0 && AttemptOf(w.phase).Sending? && CanSend(w, AttemptOf(w.phase).kind) {
      SendPacketCounts(w, AttemptOf(w.phase).kind, key);
    }
  }

  lemma {:induction false} SendPacketCounts(w: World, kind: ListKind, key: byte)
    requires CanSend(w, kind)
    ensures Tds(SendPacket(w, kind, key).h) == Tds(w.h) && SendPacket(w, kind, key).completed == w.completed
  {
    hide Tds, Send, Transfer, Serve, PacketOf;
    var l := ListOf(w.h, kind);
    var i := FirstEligible(l, 0);
    if i == |l| {
      SendCounts(w.h, kind, l != [], Nak);
    } else {
      PacketShape(l[i]);
      TransferBoard(w.d, PacketOf(l[i]));
      SendCounts(w.h, kind, true, Transfer(w.d, PacketOf(l[i])).1);
    }
  }
}
