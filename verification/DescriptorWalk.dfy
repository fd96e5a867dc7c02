/** create_op_rep_list (usbip.c): the walk through the configuration descriptor that collects the class, subclass and
    protocol of each interface. */
module DescriptorWalk {
  import opened UsbTypes
  import opened FirmwareModel

  const INTERFACE: byte := 4
  /** The bytes of an interface descriptor up to bInterfaceProtocol. */
  const FIELDS_END: nat := 8

  datatype Interface = Interface(class_: byte, subClass: byte, protocol: byte)

  function FieldsAt(cfg: seq<byte>, p: nat): Interface
    requires p + FIELDS_END <= |cfg|
  {
    Interface(cfg[p + 5], cfg[p + 6], cfg[p + 7])
  }

  // ---------- the walk on any bytes ----------

  /** Where the inner loop stops; None if it would read past the descriptor or never advance. */
  function Seek(cfg: seq<byte>, at: nat): Option<nat>
    decreases |cfg| - at
  {
    if at >= |cfg| then Some(at)
    else if at + 1 >= |cfg| then None
    else if cfg[at + 1] == INTERFACE then Some(at)
    else if cfg[at] == 0 then None
    else Seek(cfg, at + cfg[at])
  }

  /** The positions at which the outer loop takes n interfaces; None if it would read past the descriptor or hang. */
  function Walk(cfg: seq<byte>, at: nat, n: nat): (ps: Option<seq<nat>>)
    ensures ps.Some? ==> |ps.value| == n && forall i :: 0 <= i < n ==> ps.value[i] + FIELDS_END <= |cfg|
    decreases n
  {
    if n == 0 then Some([])
    else
      var p := Seek(cfg, at);
      if p.None? || p.value + FIELDS_END > |cfg| then None
      else
        var rest := Walk(cfg, p.value + cfg[p.value], n - 1);
        if rest.None? then None else Some([p.value] + rest.value)
  }

  function Prepend(ps: seq<nat>, rest: Option<seq<nat>>): Option<seq<nat>> {
    if rest.None? then None else Some(ps + rest.value)
  }

  /** The nested loops; `ok` is false where the source would read past the descriptor or never leave the inner loop. */
  method CreateOpRepList(cfg: seq<byte>, interfaces: array<Interface>) returns (ok: bool)
    requires |cfg| >= 9 && |cfg| == Word(cfg[2], cfg[3]) && interfaces.Length == cfg[4]
    modifies interfaces
    ensures
      var ps := Walk(cfg, cfg[0], cfg[4]);
      && ok == ps.Some?
      && (ok ==> forall i :: 0 <= i < interfaces.Length ==>
            var p := ps.value[i];
            && interfaces[i].class_ == cfg[p + 5] && interfaces[i].subClass == cfg[p + 6]
            && interfaces[i].protocol == cfg[p + 7])
  {
    hide Walk, Seek, Prepend;
    var at: nat, i := cfg[0], 0;
    ghost var ps: seq<nat> := [];
    PrependNothing(cfg, at, cfg[4]);
    while i < interfaces.Length
      invariant i <= interfaces.Length && |ps| == i
      invariant Walk(cfg, cfg[0], cfg[4]) == Prepend(ps, Walk(cfg, at, cfg[4] - i))
      invariant forall j :: 0 <= j < i ==> ps[j] + FIELDS_END <= |cfg| && interfaces[j] == FieldsAt(cfg, ps[j])
    {
      ghost var from := at;
      while at < |cfg|
        invariant Seek(cfg, from) == Seek(cfg, at)
        decreases |cfg| - at
        modifies {}
      {
        SeekStep(cfg, at);
        if at + 1 >= |cfg| {
          WalkEnds(cfg, from, cfg[4] - i, ps);
          return false;
        }
        if cfg[at + 1] == INTERFACE {
          break;
        }
        if cfg[at] == 0 {
          WalkEnds(cfg, from, cfg[4] - i, ps);
          return false;
        }
        at := at + cfg[at];
      }
      SeekStep(cfg, at);
      if at + FIELDS_END > |cfg| {
        WalkEnds(cfg, from, cfg[4] - i, ps);
        return false;
      }
      interfaces[i] := Interface(cfg[at + 5], cfg[at + 6], cfg[at + 7]);
      WalkTakes(cfg, from, at, cfg[4] - i, ps);
      ps := ps + [at];
      at := at + cfg[at];
      i := i + 1;
    }
    WalkDone(cfg, at, ps);
    ok := true;
  }

  /** One turn of the inner loop. */
  lemma {:induction false} SeekStep(cfg: seq<byte>, at: nat)
    ensures at >= |cfg| ==> Seek(cfg, at) == Some(at)
    ensures at + 1 == |cfg| ==> Seek(cfg, at) == None
    ensures at + 1 < |cfg| ==>
              Seek(cfg, at) == if cfg[at + 1] == INTERFACE then Some(at)
                               else if cfg[at] == 0 then None else Seek(cfg, at + cfg[at])
  {
  }

  lemma {:induction false} PrependNothing(cfg: seq<byte>, at: nat, n: nat)
    ensures Prepend([], Walk(cfg, at, n)) == Walk(cfg, at, n)
  {
    var all := Walk(cfg, at, n);
    assert all.Some? ==> [] + all.value == all.value;
  }

  lemma {:induction false} WalkDone(cfg: seq<byte>, at: nat, ps: seq<nat>)
    ensures Prepend(ps, Walk(cfg, at, 0)) == Some(ps)
  {
    assert ps + [] == ps;
  }

  /** One turn of the outer loop. */
  lemma {:induction false} WalkTakes(cfg: seq<byte>, from: nat, at: nat, n: nat, ps: seq<nat>)
    requires n > 0 && Seek(cfg, from) == Some(at) && at + FIELDS_END <= |cfg|
    ensures Prepend(ps, Walk(cfg, from, n)) == Prepend(ps + [at], Walk(cfg, at + cfg[at], n - 1))
  {
    var rest := Walk(cfg, at + cfg[at], n - 1);
    assert rest.Some? ==> ps + ([at] + rest.value) == (ps + [at]) + rest.value;
  }

  lemma {:induction false} WalkEnds(cfg: seq<byte>, from: nat, n: nat, ps: seq<nat>)
    requires n > 0 && (Seek(cfg, from).None? || Seek(cfg, from).value + FIELDS_END > |cfg|)
    ensures Prepend(ps, Walk(cfg, from, n)) == None
  {
  }

  // ---------- descriptors as records ----------

  /** A descriptor starts with its length. */
  predicate IsRecord(r: seq<byte>) {
    |r| >= 1 && r[0] == |r|
  }

  predicate AllRecords(rs: seq<seq<byte>>) {
    forall i :: 0 <= i < |rs| ==> IsRecord(rs[i])
  }

  predicate IsInterface(r: seq<byte>) {
    |r| >= 2 && r[1] == INTERFACE
  }

  function Flat(rs: seq<seq<byte>>): seq<byte> {
    if rs == [] then [] else rs[0] + Flat(rs[1..])
  }

  function Interfaces(rs: seq<seq<byte>>): seq<seq<byte>> {
    if rs == [] then [] else (if IsInterface(rs[0]) then [rs[0]] else []) + Interfaces(rs[1..])
  }

  /** The offsets of the first n interface descriptors, when the records start at `at`. */
  function Offsets(rs: seq<seq<byte>>, at: nat, n: nat): (ps: seq<nat>)
    ensures |ps| == Min(n, |Interfaces(rs)|)
    ensures forall i :: 0 <= i < |ps| ==> at <= ps[i]
    decreases |rs|
  {
    if n == 0 || rs == [] then []
    else if IsInterface(rs[0]) then [at] + Offsets(rs[1..], at + |rs[0]|, n - 1)
    else Offsets(rs[1..], at + |rs[0]|, n)
  }

  /** Up to the n-th interface descriptor, no one-byte record stands before a four-byte one, whose length would be taken
      for the type, and each interface descriptor has eight bytes from its start on. */
  predicate Readable(rs: seq<seq<byte>>, n: nat)
    requires AllRecords(rs)
    decreases |rs|
  {
    n == 0 || rs == [] ||
    if IsInterface(rs[0]) then |Flat(rs)| >= 8 && Readable(rs[1..], n - 1)
    else (|rs[0]| == 1 && |rs| > 1 ==> |rs[1]| != 4) && Readable(rs[1..], n)
  }

  /** The byte after the first record's length: its type, or the next record's length if it has no other byte. */
  lemma {:induction false} SecondByte(pre: seq<byte>, rs: seq<seq<byte>>)
    requires AllRecords(rs) && rs != [] && (|rs[0]| > 1 || |rs| > 1)
    ensures
      var cfg := pre + Flat(rs);
      && |cfg| > |pre| + 1 && cfg[|pre|] == |rs[0]|
      && cfg[|pre| + 1] == if |rs[0]| > 1 then rs[0][1] else |rs[1]|
  {
    if |rs[0]| == 1 {
      assert Flat(rs[1..]) == rs[1] + Flat(rs[2..]);
    }
  }

  lemma {:induction false} FirstRecord(rs: seq<seq<byte>>)
    requires rs != []
    ensures Flat(rs) == rs[0] + Flat(rs[1..])
    ensures Interfaces(rs) == if IsInterface(rs[0]) then [rs[0]] + Interfaces(rs[1..]) else Interfaces(rs[1..])
  {
  }

  /** The walk stops exactly at the first n interface descriptors if and only if the records are readable. */
  lemma {:induction false} WalkIff(pre: seq<byte>, rs: seq<seq<byte>>, n: nat)
    requires AllRecords(rs) && n <= |Interfaces(rs)|
    ensures Walk(pre + Flat(rs), |pre|, n) == Some(Offsets(rs, |pre|, n)) <==> Readable(rs, n)
    decreases |rs|
  {
    hide Interfaces, Flat, Seek, IsInterface;
    if n > 0 {
      assert rs != [] by { NoRecords(); }
      var r := rs[0];
      FirstRecord(rs);
      assert pre + Flat(rs) == (pre + r) + Flat(rs[1..]);
      if IsInterface(r) {
        WalkIff(pre + r, rs[1..], n - 1);
        TakesInterface(pre, rs, n);
      } else if |r| == 1 && |rs| > 1 && |rs[1]| == 4 {
        TakesLength(pre, rs, n);
      } else {
        WalkIff(pre + r, rs[1..], n);
        SkipsRecord(pre, rs, n);
      }
    }
  }

  lemma {:induction false} NoRecords()
    ensures Interfaces([]) == [] && Flat([]) == []
  {
  }

  /** Before a four-byte record a one-byte one is taken for an interface. */
  lemma {:induction false} TakesLength(pre: seq<byte>, rs: seq<seq<byte>>, n: nat)
    requires AllRecords(rs) && 0 < n <= |Interfaces(rs)| && |rs| > 1 && |rs[0]| == 1 && |rs[1]| == 4
    ensures Walk(pre + Flat(rs), |pre|, n) != Some(Offsets(rs, |pre|, n))
  {
    hide Interfaces, Flat;
    var cfg := pre + Flat(rs);
    FirstRecord(rs);
    SecondByte(pre, rs);
    assert Seek(cfg, |pre|) == Some(|pre|);
    var ps := Walk(cfg, |pre|, n);
    assert ps.Some? ==> ps.value[0] == |pre|;
    assert Offsets(rs[1..], |pre| + 1, n)[0] > |pre|;
  }

  /** Any other record that is no interface is skipped. */
  lemma {:induction false} SkipsRecord(pre: seq<byte>, rs: seq<seq<byte>>, n: nat)
    requires AllRecords(rs) && rs != [] && !IsInterface(rs[0]) && 0 < n <= |Interfaces(rs)|
    requires |rs[0]| == 1 && |rs| > 1 ==> |rs[1]| != 4
    ensures Walk(pre + Flat(rs), |pre|, n) == Walk(pre + Flat(rs), |pre| + |rs[0]|, n)
  {
    hide Interfaces, Flat;
    var cfg := pre + Flat(rs);
    FirstRecord(rs);
    if |rs| == 1 {
      assert rs[1..] == [];
      NoRecords();
    }
    SecondByte(pre, rs);
    assert Seek(cfg, |pre|) == Seek(cfg, |pre| + |rs[0]|);
  }

  /** At an interface descriptor the walk takes it and goes on behind it. */
  lemma {:induction false} TakesInterface(pre: seq<byte>, rs: seq<seq<byte>>, n: nat)
    requires AllRecords(rs) && n > 0 && rs != [] && IsInterface(rs[0])
    ensures
      var cfg, at := pre + Flat(rs), |pre| + |rs[0]|;
      Walk(cfg, |pre|, n) == Some(Offsets(rs, |pre|, n)) <==>
      |Flat(rs)| >= FIELDS_END && Walk(cfg, at, n - 1) == Some(Offsets(rs[1..], at, n - 1))
  {
    hide Interfaces;
    var cfg := pre + Flat(rs);
    SecondByte(pre, rs);
    assert |cfg| == |pre| + |Flat(rs)|;
    assert Seek(cfg, |pre|) == Some(|pre|);
    var rest, ps := Walk(cfg, |pre| + |rs[0]|, n - 1), Offsets(rs[1..], |pre| + |rs[0]|, n - 1);
    if rest.Some? {
      assert ([|pre|] + rest.value)[1..] == rest.value && ([|pre|] + ps)[1..] == ps;
    }
  }

  // ---------- descriptors as section 9.6 of USB 2.0 has them ----------

  /** Every record has a type, and an interface descriptor all its fields. */
  predicate Standard(rs: seq<seq<byte>>) {
    AllRecords(rs) && forall i :: 0 <= i < |rs| ==> |rs[i]| >= 2 && (IsInterface(rs[i]) ==> |rs[i]| >= 8)
  }

  lemma {:induction false} StandardReadable(rs: seq<seq<byte>>, n: nat)
    requires Standard(rs)
    ensures Readable(rs, n)
    decreases |rs|
  {
    if n > 0 && rs != [] {
      StandardReadable(rs[1..], if IsInterface(rs[0]) then n - 1 else n);
    }
  }

  lemma {:induction false} InterfacesStandard(rs: seq<seq<byte>>)
    requires Standard(rs)
    ensures forall i :: 0 <= i < |Interfaces(rs)| ==> |Interfaces(rs)[i]| >= 8 && Interfaces(rs)[i][1] == 4
    decreases |rs|
  {
    if rs != [] {
      InterfacesStandard(rs[1..]);
    }
  }

  /** What stands at the offset of an interface descriptor is that descriptor. */
  lemma {:induction false} OffsetsHold(pre: seq<byte>, rs: seq<seq<byte>>, n: nat, k: nat)
    requires Standard(rs) && k < n <= |Interfaces(rs)|
    ensures
      var p, r := Offsets(rs, |pre|, n)[k], Interfaces(rs)[k];
      p + |r| <= |pre + Flat(rs)| && (pre + Flat(rs))[p..p + |r|] == r
    decreases |rs|
  {
    hide Interfaces, Flat, IsInterface, Offsets;
    assert rs != [] by { NoRecords(); }
    var r := rs[0];
    FirstRecord(rs);
    FirstOffset(rs, |pre|, n);
    assert pre + Flat(rs) == (pre + r) + Flat(rs[1..]);
    if !IsInterface(r) {
      OffsetsHold(pre + r, rs[1..], n, k);
    } else if k > 0 {
      OffsetsHold(pre + r, rs[1..], n - 1, k - 1);
    }
  }

  lemma {:induction false} FirstOffset(rs: seq<seq<byte>>, at: nat, n: nat)
    requires rs != [] && n > 0
    ensures Offsets(rs, at, n) ==
            if IsInterface(rs[0]) then [at] + Offsets(rs[1..], at + |rs[0]|, n - 1) else Offsets(rs[1..], at + |rs[0]|, n)
  {
  }

  /** For a configuration descriptor followed by standard records, at least bNumInterfaces of them interfaces, the loops
      terminate and take class, subclass and protocol of the first bNumInterfaces interface descriptors, in order. */
  lemma {:induction false} WalkIsFilter(conf: seq<byte>, rs: seq<seq<byte>>, k: nat)
    requires IsRecord(conf) && |conf| >= 9 && Standard(rs) && k < conf[4] <= |Interfaces(rs)|
    ensures
      var ps := Walk(conf + Flat(rs), conf[0], conf[4]);
      && ps.Some? && |Interfaces(rs)[k]| >= 8
      && var fields, r := FieldsAt(conf + Flat(rs), ps.value[k]), Interfaces(rs)[k];
         r[1] == 4 && fields.class_ == r[5] && fields.subClass == r[6] && fields.protocol == r[7]
  {
    StandardReadable(rs, conf[4]);
    WalkIff(conf, rs, conf[4]);
    InterfacesStandard(rs);
    OffsetsHold(conf, rs, conf[4], k);
    var cfg, p, r := conf + Flat(rs), Offsets(rs, |conf|, conf[4])[k], Interfaces(rs)[k];
    assert cfg[p..p + |r|] == r;
    assert cfg[p + 5] == r[5] && cfg[p + 6] == r[6] && cfg[p + 7] == r[7];
  }

  /** On standard records the walk stays within the descriptor if and only if there are enough interfaces. */
  lemma {:induction false} WalkSafeIff(pre: seq<byte>, rs: seq<seq<byte>>, n: nat)
    requires Standard(rs)
    ensures Walk(pre + Flat(rs), |pre|, n).Some? <==> n <= |Interfaces(rs)|
  {
    if n <= |Interfaces(rs)| {
      StandardReadable(rs, n);
      WalkIff(pre, rs, n);
    } else {
      TooFew(pre, rs, n);
    }
  }

  lemma {:induction false} TooFew(pre: seq<byte>, rs: seq<seq<byte>>, n: nat)
    requires Standard(rs) && n > |Interfaces(rs)|
    ensures Walk(pre + Flat(rs), |pre|, n).None?
    decreases |rs|
  {
    var cfg := pre + Flat(rs);
    if rs == [] {
      assert Seek(cfg, |pre|) == Some(|pre|);
    } else {
      var r := rs[0];
      SecondByte(pre, rs);
      assert cfg == (pre + r) + Flat(rs[1..]);
      TooFew(pre + r, rs[1..], if IsInterface(r) then n - 1 else n);
    }
  }

  lemma {:induction false} WalkOne(cfg: seq<byte>, at: nat)
    requires Seek(cfg, at).Some? && Seek(cfg, at).value + FIELDS_END <= |cfg|
    ensures Walk(cfg, at, 1) == Some([Seek(cfg, at).value])
  {
    var p := Seek(cfg, at).value;
    assert Walk(cfg, p + cfg[p], 0) == Some([]);
    assert [p] + [] == [p];
  }

  /** The device's own configuration: one interface, of the vendor-specific class. */
  lemma {:induction false} OwnConfiguration()
    ensures
      var cfg := CONFIG_DESCRIPTOR;
      && |cfg| == Word(cfg[2], cfg[3]) && cfg[0] == 9 && cfg[4] == 1
      && Walk(cfg, 9, 1) == Some([9]) && FieldsAt(cfg, 9) == Interface(0xFF, 0, 0)
  {
    var cfg := CONFIG_DESCRIPTOR;
    assert |cfg| == 32 && cfg[0] == 9 && cfg[4] == 1 && cfg[10] == INTERFACE;
    assert cfg[2] == 32 && cfg[3] == 0;
    assert cfg[14] == 0xFF && cfg[15] == 0 && cfg[16] == 0;
    assert FieldsAt(cfg, 9) == Interface(0xFF, 0, 0);
    assert Seek(cfg, 9) == Some(9);
    WalkOne(cfg, 9);
  }

  /** A configuration whose only interface has class 3, subclass 1 and protocol 2. */
  lemma {:induction false} FieldsInOrder()
    ensures
      var cfg: seq<byte> := [9, 2, 18, 0, 1, 1, 0, 0x80, 50, 9, 4, 0, 0, 1, 3, 1, 2, 0];
      |cfg| == Word(cfg[2], cfg[3]) && Walk(cfg, cfg[0], cfg[4]) == Some([9]) && FieldsAt(cfg, 9) == Interface(3, 1, 2)
  {
    var cfg: seq<byte> := [9, 2, 18, 0, 1, 1, 0, 0x80, 50, 9, 4, 0, 0, 1, 3, 1, 2, 0];
    assert cfg[10] == 4 && cfg[14] == 3 && cfg[15] == 1 && cfg[16] == 2;
    assert FieldsAt(cfg, 9) == Interface(3, 1, 2);
    assert Seek(cfg, 9) == Some(9);
    WalkOne(cfg, 9);
  }

  /** A one-byte record before a four-byte one is taken for an interface. */
  lemma {:induction false} OneByteRecord()
    ensures
      var rs: seq<seq<byte>> := [[1], [4, 0, 0, 0], [9, 4, 0, 0, 0, 0xFF, 0, 0, 0]];
      && AllRecords(rs) && |Interfaces(rs)| == 1
      && Walk(Flat(rs), 0, 1) == Some([0]) && Offsets(rs, 0, 1) == [5]
  {
    hide Interfaces, Flat, Offsets, Walk;
    var a, b, c: seq<byte> := [1], [4, 0, 0, 0], [9, 4, 0, 0, 0, 0xFF, 0, 0, 0];
    var rs: seq<seq<byte>> := [a, b, c];
    assert rs[1..] == [b, c] && [b, c][1..] == [c] && [c][1..] == [];
    FirstRecord(rs);
    FirstRecord([b, c]);
    FirstRecord([c]);
    NoRecords();
    var cfg := Flat(rs);
    assert cfg == [1, 4, 0, 0, 0, 9, 4, 0, 0, 0, 0xFF, 0, 0, 0];
    assert Seek(cfg, 0) == Some(0);
    WalkOne(cfg, 0);
    FirstOffset(rs, 0, 1);
    FirstOffset([b, c], 1, 1);
    FirstOffset([c], 5, 1);
    assert |Offsets([], 14, 0)| == 0;
  }
}
