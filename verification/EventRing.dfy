/** The event queue of usb_lib_usbip.c: sixteen slots, a front and a back index.
    It is a FIFO queue exactly as long as at most fifteen events are unread. */
module EventRing {

  const SLOTS: nat := 16

  datatype Ring = Ring(front: nat, back: nat, slots: seq<int>)

  predicate RingOk(r: Ring) {
    r.front < SLOTS && r.back < SLOTS && |r.slots| == SLOTS
  }

  function EmptyRing(): Ring {
    Ring(0, 0, seq(SLOTS, _ => 0))
  }

  /** __notify_ep. */
  function Post(r: Ring, ep: int): Ring
    requires RingOk(r)
  {
    Ring(r.front, (r.back + 1) % SLOTS, r.slots[r.back := ep])
  }

  /** __get_event, without the value it returns. */
  function Advanced(r: Ring): Ring
    requires RingOk(r)
  {
    Ring((r.front + 1) % SLOTS, r.back, r.slots)
  }

  /** __is_event. */
  predicate HasEvent(r: Ring) {
    r.front != r.back
  }

  function Count(r: Ring): nat
    requires RingOk(r)
  {
    if r.front <= r.back then r.back - r.front else r.back + SLOTS - r.front
  }

  function Slot(r: Ring, i: nat): int
    requires RingOk(r) && i < SLOTS
  {
    r.slots[if r.front + i < SLOTS then r.front + i else r.front + i - SLOTS]
  }

  /** The events posted and not yet read, oldest first. */
  function Unread(r: Ring): (s: seq<int>)
    requires RingOk(r)
    ensures |s| == Count(r)
  {
    seq(Count(r), i requires 0 <= i < Count(r) => Slot(r, i))
  }

  /** A post appends to the unread events, unless fifteen are unread: then all sixteen are lost. */
  lemma {:induction false} PostAppends(r: Ring, ep: int)
    requires RingOk(r)
    ensures RingOk(Post(r, ep))
    ensures Unread(Post(r, ep)) == if |Unread(r)| < 15 then Unread(r) + [ep] else []
  {
    var u, u' := Unread(r), Unread(Post(r, ep));
    assert Post(r, ep).back == if r.back == SLOTS - 1 then 0 else r.back + 1;
    assert |u'| == if |u| < SLOTS - 1 then |u| + 1 else 0;
    if |u| < SLOTS - 1 {
      forall i | 0 <= i < |u'| ensures u'[i] == (u + [ep])[i] {}
    }
  }

  /** A get that was guarded by __is_event takes the oldest unread event. */
  lemma {:induction false} GetTakesOldest(r: Ring)
    requires RingOk(r)
    ensures RingOk(Advanced(r))
    ensures HasEvent(r) <==> Unread(r) != []
    ensures HasEvent(r) ==> r.slots[r.front] == Unread(r)[0] && Unread(Advanced(r)) == Unread(r)[1..]
  {
    if HasEvent(r) {
      var u, u' := Unread(r), Unread(Advanced(r));
      assert |u'| == |u| - 1;
      forall i | 0 <= i < |u'| ensures u'[i] == u[1..][i] {}
    }
  }

  // ---------- runs ----------

  datatype RingOp = PostOp(ep: int) | GetOp

  /** `posted` and `got` are the events in the order they went in and came out. */
  datatype RingRun = RingRun(ring: Ring, posted: seq<int>, got: seq<int>)

  function Step(s: RingRun, op: RingOp): RingRun
    requires RingOk(s.ring)
  {
    match op
    case PostOp(ep) => RingRun(Post(s.ring, ep), s.posted + [ep], s.got)
    case GetOp =>
      if HasEvent(s.ring) then RingRun(Advanced(s.ring), s.posted, s.got + [s.ring.slots[s.ring.front]])
      else s
  }

  function Run(ops: seq<RingOp>): (s: RingRun)
    ensures RingOk(s.ring)
  {
    if ops == [] then RingRun(EmptyRing(), [], [])
    else Step(Run(ops[..|ops| - 1]), ops[|ops| - 1])
  }

  /** No event is posted while fifteen are unread. */
  predicate NeverFull(ops: seq<RingOp>) {
    ops == [] ||
    (NeverFull(ops[..|ops| - 1]) &&
     (ops[|ops| - 1].PostOp? ==> |Unread(Run(ops[..|ops| - 1]).ring)| < 15))
  }

  /** Over any interleaving of posts and guarded gets, however often the indices wrap, the events come out in the order
      they went in, none lost, none twice. */
  lemma {:induction false} RingIsFifo(ops: seq<RingOp>)
    requires NeverFull(ops)
    ensures var s := Run(ops); s.posted == s.got + Unread(s.ring)
  {
    if ops != [] {
      var s, op := Run(ops[..|ops| - 1]), ops[|ops| - 1];
      RingIsFifo(ops[..|ops| - 1]);
      match op
      case PostOp(ep) => PostAppends(s.ring, ep);
      case GetOp =>
        GetTakesOldest(s.ring);
        if HasEvent(s.ring) {
          assert Unread(s.ring) == [Unread(s.ring)[0]] + Unread(s.ring)[1..];
        }
    }
  }

  /** The bound is exact: from a FIFO state a post keeps the FIFO law if and only if fewer than fifteen events are unread. */
  lemma {:induction false} FifoKeptIff(s: RingRun, ep: int)
    requires RingOk(s.ring) && s.posted == s.got + Unread(s.ring)
    ensures
      var s' := Step(s, PostOp(ep));
      s'.posted == s'.got + Unread(s'.ring) <==> |Unread(s.ring)| < 15
  {
    PostAppends(s.ring, ep);
    var s' := Step(s, PostOp(ep));
    if |Unread(s.ring)| == SLOTS - 1 {
      assert |s'.posted| == |s.got| + SLOTS;
      assert |s'.got + Unread(s'.ring)| == |s.got|;
    }
  }

  /** The ring as it is written: an array and two indices, updated in place (the mutex regions are the methods). */
  class EventQueue {
    var front: nat
    var back: nat
    const queue: array<int>

    ghost predicate Valid()
      reads this, queue
    {
      front < SLOTS && back < SLOTS && queue.Length == SLOTS
    }

    ghost function Value(): (r: Ring)
      reads this, queue
      requires Valid()
      ensures RingOk(r)
    {
      Ring(front, back, queue[..])
    }

    /** __ep_queue_init. */
    constructor ()
      ensures Valid() && Value() == EmptyRing() && fresh(queue)
    {
      queue := new int[SLOTS](_ => 0);
      front, back := 0, 0;
      new;
      assert queue[..] == EmptyRing().slots;
    }

    method IsEvent() returns (r: bool)
      requires Valid()
      ensures r == (Unread(Value()) != [])
    {
      GetTakesOldest(Value());
      r := front != back;
    }

    method GetEvent() returns (r: int)
      requires Valid()
      modifies this
      ensures Valid() && Value() == Advanced(old(Value())) && r == old(queue[front])
      ensures old(Unread(Value())) != [] ==> r == old(Unread(Value()))[0] && Unread(Value()) == old(Unread(Value()))[1..]
    {
      GetTakesOldest(Value());
      var i := front;
      front := (front + 1) % SLOTS;
      r := queue[i];
    }

    method NotifyEp(ep: int)
      requires Valid()
      modifies this`back, queue
      ensures Valid() && Value() == Post(old(Value()), ep)
      ensures Unread(Value()) ==
        if |old(Unread(Value()))| < SLOTS - 1 then old(Unread(Value())) + [ep] else []
    {
      PostAppends(Value(), ep);
      var i := back;
      queue[i] := ep;
      back := (back + 1) % SLOTS;
    }
  }
}
