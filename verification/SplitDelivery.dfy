/** Split package deliveries: streamed digests, part names, and the two checks that admit them. */
module SplitDelivery {
  import opened Sequences
  import opened Text
  import opened Decimal

  type Bytes = seq<bv8>

  const MAX_PARTS := 900
  const MAX_PART_BYTES := 2147483647

  /** A running digest: what it has absorbed decides its value. */
  class Hasher {
    var absorbed: Bytes

    constructor ()
      ensures absorbed == []
    {
      absorbed := [];
    }

    method Update(block: Bytes)
      modifies this
      ensures absorbed == old(absorbed) + block
    {
      absorbed := absorbed + block;
    }
  }

  /** A delivery part as its record declares it, and the package it belongs to. */
  datatype Part = Part(path: string, sha256: string, size: nat, index: nat, count: nat)
  datatype Delivery = Delivery(split: bool, parts: seq<Part>)
  datatype Package = Package(sha256: string, size: nat, delivery: Delivery)

  /** SHA-256, the staged files, and the length of every read. */
  datatype Staged = Staged(sha256: Bytes -> string, file: string -> Bytes, readLength: nat -> nat)

  function Contents(s: Staged): Part -> Bytes { (p: Part) => s.file(p.path) }

  /** The parts of a delivery, put together in order. */
  function Joined(s: Staged, parts: seq<Part>): Bytes { FlatMap(Contents(s), parts) }

  function SizeSum(parts: seq<Part>): nat { if parts == [] then 0 else parts[0].size + SizeSum(parts[1..]) }

  /** Every part is the declared file. */
  ghost predicate PartsMatch(s: Staged, parts: seq<Part>) {
    forall p :: p in parts ==> |s.file(p.path)| == p.size && s.sha256(s.file(p.path)) == p.sha256
  }

  /** Sizes are conserved: matching parts join to their declared total. */
  lemma {:induction false} JoinedSize(s: Staged, parts: seq<Part>)
    requires PartsMatch(s, parts)
    ensures |Joined(s, parts)| == SizeSum(parts)
  {
    if parts != [] { JoinedSize(s, parts[1..]); }
  }

  // ----- Streaming one part -----

  function BlockLength(s: Staged, t: nat, left: nat): (n: nat)
    requires left > 0
    ensures 0 < n <= left && n <= 1048576
  {
    var most := if left < 1048576 then left else 1048576;
    var wanted := s.readLength(t);
    if wanted == 0 then 1 else if wanted < most then wanted else most
  }

  /** Reads one file in blocks of any lengths into two running digests; `limit` stops an oversized part. */
  method StreamPart(s: Staged, data: Bytes, own: Hasher, logical: Hasher, limit: Option<nat>) returns (total: Option<nat>)
    requires own != logical
    modifies own, logical
    ensures total.Some? <==> limit.None? || |data| <= limit.value
    ensures total.Some? ==> total.value == |data| && own.absorbed == old(own.absorbed) + data
                            && logical.absorbed == old(logical.absorbed) + data
  {
    var done, t := 0, 0;
    ghost var o, l := own.absorbed, logical.absorbed;
    while done < |data|
      invariant done <= |data| && (limit.Some? ==> done <= limit.value)
      invariant own.absorbed == o + data[..done] && logical.absorbed == l + data[..done]
    {
      var n := BlockLength(s, t, |data| - done);
      var block := data[done..done + n];
      if limit.Some? && done + n > limit.value { return None; }
      own.Update(block);
      logical.Update(block);
      assert data[..done + n] == data[..done] + block;
      done, t := done + n, t + 1;
    }
    assert data[..|data|] == data;
    total := Some(done);
  }

  // ----- The release-root adapter -----

  /** The delivery checks when a server root is read. */
  predicate RootAdmits(p: Package) {
    var parts := p.delivery.parts;
    && parts != [] && |parts| <= MAX_PARTS && (if p.delivery.split then |parts| >= 2 else |parts| == 1)
    && (forall i :: 0 <= i < |parts| ==> parts[i].index == i + 1 && parts[i].count == |parts| && 0 < parts[i].size <= MAX_PART_BYTES)
    && SizeSum(parts) == p.size
    && (!p.delivery.split ==> parts[0].sha256 == p.sha256 && parts[0].size == p.size)
  }

  /** What both checks establish: every part is the declared file and together they are the package. */
  ghost predicate Delivered(s: Staged, p: Package) {
    PartsMatch(s, p.delivery.parts) && SizeSum(p.delivery.parts) == p.size && s.sha256(Joined(s, p.delivery.parts)) == p.sha256
  }

  /** `_verify_delivery`. */
  method AdapterVerifies(s: Staged, p: Package) returns (ok: bool)
    requires forall part :: part in p.delivery.parts ==> part.size <= MAX_PART_BYTES
    ensures ok <==> Delivered(s, p)
  {
    var parts := p.delivery.parts;
    var logical := new Hasher();
    var total := 0;
    for i := 0 to |parts|
      invariant fresh(logical)
      invariant logical.absorbed == Joined(s, parts[..i]) && total == SizeSum(parts[..i])
      invariant PartsMatch(s, parts[..i])
    {
      var part, data := parts[i], s.file(parts[i].path);
      StreamStep(s, parts, i);
      if |data| != part.size { return false; }
      var own := new Hasher();
      var size := StreamPart(s, data, own, logical, Some(MAX_PART_BYTES));
      assert [] + data == data;
      if size.None? || size.value != part.size || s.sha256(own.absorbed) != part.sha256 { return false; }
      total := total + size.value;
    }
    assert parts[..|parts|] == parts;
    ok := total == p.size && s.sha256(logical.absorbed) == p.sha256;
  }

  lemma StreamStep(s: Staged, parts: seq<Part>, i: nat)
    requires i < |parts|
    ensures Joined(s, parts[..i + 1]) == Joined(s, parts[..i]) + s.file(parts[i].path)
    ensures SizeSum(parts[..i + 1]) == SizeSum(parts[..i]) + parts[i].size
    ensures parts[i] in parts
    ensures PartsMatch(s, parts[..i + 1]) <==> PartsMatch(s, parts[..i]) && |s.file(parts[i].path)| == parts[i].size
                                               && s.sha256(s.file(parts[i].path)) == parts[i].sha256
  {
    FlatMapStep(Contents(s), parts, i);
    assert parts[..i + 1] == parts[..i] + [parts[i]];
    SizeAppend(parts[..i], parts[i]);
    assert forall p :: p in parts[..i + 1] <==> p in parts[..i] || p == parts[i];
  }

  lemma {:induction false} SizeAppend(parts: seq<Part>, p: Part)
    ensures SizeSum(parts + [p]) == SizeSum(parts) + p.size
  {
    if parts == [] {
      assert [p][1..] == [];
    } else {
      SizeAppend(parts[1..], p);
      assert (parts + [p])[1..] == parts[1..] + [p];
    }
  }

  // ----- The gate -----

  /** The order and shape checks the gate makes on a target's delivery. */
  predicate GateShape(p: Package) {
    var parts := p.delivery.parts;
    && parts != [] && (if p.delivery.split then |parts| >= 2 else |parts| == 1)
    && forall i :: 0 <= i < |parts| ==> parts[i].index == i + 1 && parts[i].count == |parts|
  }

  /** The delivery part of `_validate_target`. */
  method GateVerifies(s: Staged, p: Package) returns (ok: bool)
    ensures ok <==> GateShape(p) && Delivered(s, p)
  {
    var parts := p.delivery.parts;
    if parts == [] || (p.delivery.split && |parts| < 2) || (!p.delivery.split && |parts| != 1) { return false; }
    var logical := new Hasher();
    var observed := 0;
    for i := 0 to |parts|
      invariant fresh(logical)
      invariant logical.absorbed == Joined(s, parts[..i]) && observed == SizeSum(parts[..i])
      invariant PartsMatch(s, parts[..i])
      invariant forall k :: 0 <= k < i ==> parts[k].index == k + 1 && parts[k].count == |parts|
    {
      var part, data := parts[i], s.file(parts[i].path);
      StreamStep(s, parts, i);
      if part.index != i + 1 || part.count != |parts| { return false; }
      var own := new Hasher();
      var size := StreamPart(s, data, own, logical, None);
      assert [] + data == data;
      if s.sha256(own.absorbed) != part.sha256 || size.value != part.size { return false; }
      observed := observed + size.value;
    }
    assert parts[..|parts|] == parts;
    ok := observed == p.size && s.sha256(logical.absorbed) == p.sha256;
  }

  /** Every package a root admits has the shape the gate demands, so adapter and gate accept the same
      staged files, and these add up to the package. */
  lemma SameDeliveries(s: Staged, p: Package)
    requires RootAdmits(p)
    ensures GateShape(p) && forall part :: part in p.delivery.parts ==> part.size <= MAX_PART_BYTES
    ensures Delivered(s, p) ==> |Joined(s, p.delivery.parts)| == p.size
  {
    if Delivered(s, p) { JoinedSize(s, p.delivery.parts); }
  }

  // ----- Part names -----

  function Width(count: nat): nat { if |Spell(count)| > 3 then |Spell(count)| else 3 }

  function PartName(file: string, index: nat, count: nat): string {
    file + ".part-" + Pad(index, Width(count)) + ("-of-" + Pad(count, Width(count)))
  }

  /** Part names differ and sort as text in the order of their indices. */
  lemma PartNamesOrdered(file: string, i: nat, j: nat, count: nat)
    requires i <= count && j <= count
    ensures StrLeq(PartName(file, i, count), PartName(file, j, count)) <==> i <= j
    ensures PartName(file, i, count) == PartName(file, j, count) <==> i == j
  {
    hide Pad, Spell, StrLeq;
    var w := Width(count);
    SpellBound(count);
    PowerGrows(|Spell(count)|, w);
    PadOrder(i, j, w);
    StrLeqMiddle(file + ".part-", Pad(i, w), Pad(j, w), "-of-" + Pad(count, w));
  }

  /** The file names a server root demands of its parts: the package itself, or numbered parts. */
  predicate NamedParts(file: string, p: Package) {
    var parts := p.delivery.parts;
    forall i :: 0 <= i < |parts| ==> parts[i].path == if p.delivery.split then PartName(file, i + 1, |parts|) else file
  }

  /** The parts of an admitted package are distinct files and listed in the order of their names. */
  lemma PartsInOrder(file: string, p: Package, i: nat, j: nat)
    requires RootAdmits(p) && NamedParts(file, p) && i < j < |p.delivery.parts|
    ensures StrLeq(p.delivery.parts[i].path, p.delivery.parts[j].path) && p.delivery.parts[i].path != p.delivery.parts[j].path
  {
    hide PartName, StrLeq;
    PartNamesOrdered(file, i + 1, j + 1, |p.delivery.parts|);
  }
}
