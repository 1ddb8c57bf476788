/** The release snapshot: copying a directory that may change underneath. */
module ReleaseSnapshot {
  import opened Sequences
  import opened Sorting
  import opened Text

  type Byte = bv8

  const CHUNK := 1048576
  const MAX_FILE := 134217728
  const MAX_TOTAL := 536870912

  /** The metadata compared before and after a copy. */
  datatype Meta = Meta(device: nat, inode: nat, size: nat, mtime: int, ctime: int)

  /** A file at one instant; `plain` says regular, owned, singly linked and not writable by others. */
  datatype FileState = FileState(content: seq<Byte>, meta: Meta, plain: bool)

  /** A file over time, one instant per system call. */
  type Timeline = nat -> FileState

  /** The lengths the kernel returns for reads and writes, one per call. */
  datatype Kernel = Kernel(readLength: nat -> nat, writeLength: nat -> int)

  /** The size is the content's, and contents that differ leave different metadata around them. */
  ghost predicate Honest(f: Timeline) {
    && (forall t :: f(t).meta.size == |f(t).content|)
    && (forall a, b, c :: a <= b <= c && f(a).meta == f(c).meta ==> f(b).content == f(a).content)
  }

  /** A read returns between one byte and a chunk of what is left. */
  function ReadCount(k: Kernel, t: nat, left: nat): (n: nat)
    ensures n <= left && n <= CHUNK && (left > 0 ==> n > 0)
  {
    var most := if left < CHUNK then left else CHUNK;
    var wanted := k.readLength(t);
    if wanted == 0 then (if most > 0 then 1 else 0) else if wanted < most then wanted else most
  }

  /** The inner loop: short writes until the chunk is gone; a write of nothing fails. */
  method WriteChunk(chunk: seq<Byte>, destination: seq<Byte>, k: Kernel, start: nat) returns (r: Option<seq<Byte>>, t: nat)
    ensures t >= start
    ensures r.Some? ==> r.value == destination + chunk
    ensures (forall u :: k.writeLength(u) > 0) ==> r.Some?
  {
    var view, written := chunk, destination;
    t := start;
    while view != []
      invariant t >= start && written + view == destination + chunk
      decreases |view|
    {
      var w := k.writeLength(t);
      t := t + 1;
      if w <= 0 { return None, t; }
      var n := if w < |view| then w else |view|;
      assert view == view[..n] + view[n..];
      assert written + view == written + view[..n] + view[n..];
      written, view := written + view[..n], view[n..];
    }
    assert written + [] == written;
    r := Some(written);
  }

  /** Each copied byte was the file's byte at that offset at some instant of the copy. */
  ghost predicate Observed(f: Timeline, copied: seq<Byte>, start: nat, end: nat) {
    forall i :: 0 <= i < |copied| ==> ByteSeen(f, i, copied[i], start, end)
  }

  ghost predicate ByteSeen(f: Timeline, i: nat, b: Byte, start: nat, end: nat) {
    exists u: nat :: start <= u <= end && i < |f(u).content| && f(u).content[i] == b
  }

  /** The read loop of one file, until a read returns nothing. */
  method CopyFile(f: Timeline, k: Kernel, start: nat, ghost bound: nat) returns (r: Option<seq<Byte>>, t: nat)
    requires forall u :: |f(u).content| <= bound
    ensures t >= start
    ensures r.Some? ==> Observed(f, r.value, start, t) && |r.value| >= |f(t).content|
    ensures (forall u :: k.writeLength(u) > 0) ==> r.Some?
  {
    t := start;
    var copied: seq<Byte> := [];
    while |copied| < |f(t).content|
      invariant t >= start && Observed(f, copied, start, t)
      decreases bound - |copied|
    {
      var n := ReadCount(k, t, |f(t).content| - |copied|);
      var chunk := f(t).content[|copied|..|copied| + n];
      var written, next := WriteChunk(chunk, copied, k, t + 1);
      ObserveMore(f, copied, chunk, start, t, next);
      if written.None? { return None, next; }
      copied, t := written.value, next;
    }
    r := Some(copied);
  }

  lemma ObserveMore(f: Timeline, copied: seq<Byte>, chunk: seq<Byte>, start: nat, t: nat, next: nat)
    requires start <= t <= next && Observed(f, copied, start, t) && |copied| + |chunk| <= |f(t).content|
    requires chunk == f(t).content[|copied|..|copied| + |chunk|]
    ensures Observed(f, copied + chunk, start, next)
  {
    var all := copied + chunk;
    forall i | 0 <= i < |all| ensures ByteSeen(f, i, all[i], start, next) {
      if i < |copied| {
        assert ByteSeen(f, i, copied[i], start, t);
      } else {
        assert all[i] == chunk[i - |copied|] == f(t).content[i];
      }
    }
  }

  /** When the metadata is the same before and after, the copy is the file, byte for byte. */
  lemma StableCopy(f: Timeline, copied: seq<Byte>, start: nat, end: nat, after: nat)
    requires Honest(f) && start <= end <= after && f(start).meta == f(after).meta
    requires Observed(f, copied, start, end) && |copied| >= |f(end).content|
    ensures copied == f(start).content
  {
    assert f(end).content == f(start).content;
    forall i | 0 <= i < |copied| ensures i < |f(start).content| && copied[i] == f(start).content[i] {
      assert ByteSeen(f, i, copied[i], start, end);
      var u: nat :| start <= u <= end && i < |f(u).content| && f(u).content[i] == copied[i];
      assert f(u).content == f(start).content;
    }
    if copied != [] {
      var last := |copied| - 1;
      assert copied[last] == f(start).content[last];
    }
  }

  // ----- The whole directory -----

  datatype Directory = Directory(list: nat -> seq<string>, file: string -> Timeline)

  function SafeChar(c: char): bool { 'A' <= c <= 'Z' || 'a' <= c <= 'z' || '0' <= c <= '9' || c == '.' || c == '_' || c == '-' }

  /** `validate_filename`. */
  predicate SafeName(n: string) {
    n != "" && (forall i :: 0 <= i < |n| ==> SafeChar(n[i])) && n[0] !in {'.', '_', '-'}
  }

  function SizeSum(sizes: string -> nat, names: seq<string>): nat {
    if names == [] then 0 else SizeSum(sizes, names[..|names| - 1]) + sizes(names[|names| - 1])
  }

  function SizeIn(copy: map<string, seq<Byte>>): string -> nat { n => if n in copy then |copy[n]| else 0 }

  lemma {:induction false} SizeSumSame(a: string -> nat, b: string -> nat, names: seq<string>)
    requires forall n :: n in names ==> a(n) == b(n)
    ensures SizeSum(a, names) == SizeSum(b, names)
  {
    if names != [] { SizeSumSame(a, b, names[..|names| - 1]); }
  }

  ghost predicate HonestDirectory(d: Directory) { forall n :: Honest(d.file(n)) }

  /** Throughout a stretch of time a plain file held these bytes, and its metadata came out unchanged. */
  ghost predicate Held(f: Timeline, bytes: seq<Byte>, from: nat, to: nat) {
    from <= to && f(from).plain && f(from).meta == f(to).meta && forall u :: from <= u <= to ==> f(u).content == bytes
  }

  /** A copy of one listed file is what the file held while it was copied, within the size limit. */
  ghost predicate FileCopied(d: Directory, name: string, copied: seq<Byte>, end: nat) {
    |copied| <= MAX_FILE && exists a: nat, b: nat :: b <= end && Held(d.file(name), copied, a, b)
  }

  /** One iteration of the loop over names. */
  method SnapshotFile(d: Directory, name: string, total: nat, k: Kernel, start: nat, ghost bound: nat)
    returns (r: Option<(seq<Byte>, nat)>, t: nat)
    requires forall u :: |d.file(name)(u).content| <= bound
    ensures t >= start
    ensures r.Some? ==> SafeName(name) && d.file(name)(start).plain && d.file(name)(start).meta == d.file(name)(t).meta
    ensures r.Some? && Honest(d.file(name)) ==>
              && Held(d.file(name), r.value.0, start, t) && |r.value.0| <= MAX_FILE
              && r.value.1 == total + |r.value.0| <= MAX_TOTAL
    ensures Honest(d.file(name)) && (forall u :: k.writeLength(u) > 0) && (forall u :: d.file(name)(u) == d.file(name)(0)) ==>
              (r.Some? <==> SafeName(name) && d.file(name)(0).plain && |d.file(name)(0).content| <= MAX_FILE
                            && total + |d.file(name)(0).content| <= MAX_TOTAL)
  {
    t := start;
    if !SafeName(name) { return None, t; }
    var before := d.file(name)(start);
    if !before.plain || before.meta.size > MAX_FILE { return None, t; }
    var sum := total + before.meta.size;
    if sum > MAX_TOTAL { return None, t; }
    var copied, end := CopyFile(d.file(name), k, start + 1, bound);
    t := end + 1;
    if copied.None? { return None, t; }
    if d.file(name)(t).meta != before.meta { return None, t; }
    if Honest(d.file(name)) {
      EarlierStart(d.file(name), copied.value, start, start + 1, end);
      StableCopy(d.file(name), copied.value, start, end, t);
    }
    r := Some((copied.value, sum));
  }

  lemma EarlierStart(f: Timeline, copied: seq<Byte>, start: nat, later: nat, end: nat)
    requires start <= later && Observed(f, copied, later, end)
    ensures Observed(f, copied, start, end)
  {
    forall i | 0 <= i < |copied| ensures ByteSeen(f, i, copied[i], start, end) {
      assert ByteSeen(f, i, copied[i], later, end);
    }
  }

  /** What a successful snapshot guarantees. */
  ghost predicate Snapshotted(d: Directory, copy: map<string, seq<Byte>>, end: nat) {
    && copy.Keys == Elems(d.list(0)) && multiset(d.list(end)) == multiset(d.list(0)) && NoDup(d.list(0)) && d.list(0) != []
    && (forall n :: n in copy ==> SafeName(n) && FileCopied(d, n, copy[n], end))
    && SizeSum(SizeIn(copy), SortedNames(d.list(0))) <= MAX_TOTAL
  }

  ghost predicate Progress(d: Directory, names: seq<string>, copy: map<string, seq<Byte>>, total: nat, t: nat) {
    && copy.Keys == Elems(names) && total == SizeSum(SizeIn(copy), names) <= MAX_TOTAL
    && (forall n :: n in names ==> SafeName(n) && FileCopied(d, n, copy[n], t))
  }

  lemma ProgressStep(d: Directory, names: seq<string>, copy: map<string, seq<Byte>>, total: nat, t: nat, name: string,
                     copied: seq<Byte>, start: nat, next: nat)
    requires Progress(d, names, copy, total, t) && name !in names && t <= start <= next
    requires SafeName(name) && Held(d.file(name), copied, start, next) && |copied| <= MAX_FILE && total + |copied| <= MAX_TOTAL
    ensures Progress(d, names + [name], copy[name := copied], total + |copied|, next)
  {
    hide SafeName, Held;
    var more, all := copy[name := copied], names + [name];
    assert all[..|all| - 1] == names;
    SizeSumSame(SizeIn(copy), SizeIn(more), names);
    forall n | n in all ensures SafeName(n) && FileCopied(d, n, more[n], next) {
      if n != name {
        assert n in names && FileCopied(d, n, copy[n], t);
        var a: nat, b: nat :| b <= t && Held(d.file(n), copy[n], a, b);
        assert b <= next && more[n] == copy[n];
      }
    }
  }

  lemma ProgressDone(d: Directory, names: seq<string>, copy: map<string, seq<Byte>>, total: nat, t: nat)
    requires names == SortedNames(d.list(0)) && names != [] && NoDup(names) && SortedNames(d.list(t)) == names
    requires Progress(d, names, copy, total, t)
    ensures Snapshotted(d, copy, t)
  {
    hide SafeName, FileCopied;
    NoDupPermutation(d.list(0), names);
    SortedNamesEqual(d.list(0), d.list(t));
  }

  /** Nothing changes while the snapshot runs, and every write makes progress. */
  ghost predicate Quiet(d: Directory, k: Kernel) {
    && (forall u :: k.writeLength(u) > 0) && (forall u :: d.list(u) == d.list(0))
    && (forall n, u :: d.file(n)(u) == d.file(n)(0))
  }

  function SizeNow(d: Directory): string -> nat { n => |d.file(n)(0).content| }

  predicate FileFits(d: Directory, n: string) { SafeName(n) && d.file(n)(0).plain && SizeNow(d)(n) <= MAX_FILE }

  /** The limits a directory must meet. */
  ghost predicate Fits(d: Directory) {
    && d.list(0) != [] && NoDup(d.list(0)) && (forall n :: n in d.list(0) ==> FileFits(d, n))
    && SizeSum(SizeNow(d), SortedNames(d.list(0))) <= MAX_TOTAL
  }

  lemma {:induction false} SizeSumGrows(sizes: string -> nat, a: seq<string>, b: seq<string>)
    ensures SizeSum(sizes, a) <= SizeSum(sizes, a + b)
  {
    if b == [] {
      assert a + b == a;
    } else {
      SizeSumGrows(sizes, a, b[..|b| - 1]);
      assert (a + b)[..|a + b| - 1] == a + b[..|b| - 1];
    }
  }

  /** A file that does not fit ends a snapshot of a quiet directory, and only such a file does. */
  lemma QuietFailure(d: Directory, names: seq<string>, i: nat)
    requires names == SortedNames(d.list(0)) && i < |names|
    requires !(FileFits(d, names[i]) && SizeSum(SizeNow(d), names[..i]) + SizeNow(d)(names[i]) <= MAX_TOTAL)
    ensures !Fits(d)
  {
    hide FileFits;
    assert names[i] in multiset(names);
    assert names[i] in d.list(0);
    assert names == names[..i + 1] + names[i + 1..] && names[..i + 1][..i] == names[..i];
    SizeSumGrows(SizeNow(d), names[..i + 1], names[i + 1..]);
  }

  lemma QuietSuccess(d: Directory, names: seq<string>)
    requires names == SortedNames(d.list(0)) && names != [] && NoDup(names)
    requires (forall i :: 0 <= i < |names| ==> FileFits(d, names[i])) && SizeSum(SizeNow(d), names) <= MAX_TOTAL
    ensures Fits(d)
  {
    hide FileFits;
    NoDupPermutation(d.list(0), names);
    forall n | n in d.list(0) ensures FileFits(d, n) {
      assert n in Elems(names);
    }
  }

  /** `secure_release_snapshot`: a success is a byte-exact copy of every listed file, each plain and
      with unchanged metadata while it was copied, all within the limits, and a quiet directory is copied exactly when it meets them. */
  method Snapshot(d: Directory, k: Kernel, ghost bound: nat) returns (r: Option<map<string, seq<Byte>>>, t: nat)
    requires HonestDirectory(d) && forall n, u :: |d.file(n)(u).content| <= bound
    ensures r.Some? ==> Snapshotted(d, r.value, t)
    ensures Quiet(d, k) ==> (r.Some? <==> Fits(d))
  {
    hide SafeName, Honest, Progress, Snapshotted, Fits, SizeSum, FileFits;
    t := 0;
    var names := SortedNames(d.list(0));
    DistinctCount(names);
    if names == [] || |names| != |Elems(names)| {
      EmptyOrRepeated(d);
      return None, t;
    }
    var copy: map<string, seq<Byte>> := map[];
    var total := 0;
    ProgressStart(d, t);
    for i := 0 to |names|
      invariant Progress(d, names[..i], copy, total, t)
      invariant Quiet(d, k) ==> total == SizeSum(SizeNow(d), names[..i]) <= MAX_TOTAL && forall j :: 0 <= j < i ==> FileFits(d, names[j])
    {
      var name := names[i];
      var copied, next := SnapshotFile(d, name, total, k, t, bound);
      QuietStep(d, k, names, i);
      if copied.None? {
        if Quiet(d, k) {
          QuietOne(d, k, name);
          QuietFailure(d, names, i);
        }
        return None, next;
      }
      if Quiet(d, k) { QuietOne(d, k, name); }
      assert names[..i + 1] == names[..i] + [name] && name !in names[..i];
      assert Honest(d.file(name));
      ProgressStep(d, names[..i], copy, total, t, name, copied.value.0, t, next);
      copy, total, t := copy[name := copied.value.0], copied.value.1, next;
    }
    assert names[..|names|] == names;
    if SortedNames(d.list(t)) != names { return None, t; }
    ProgressDone(d, names, copy, total, t);
    if Quiet(d, k) { QuietSuccess(d, names); }
    r := Some(copy);
  }

  lemma EmptyOrRepeated(d: Directory)
    requires SortedNames(d.list(0)) == [] || !NoDup(SortedNames(d.list(0)))
    ensures !Fits(d)
  {
    NoDupPermutation(d.list(0), SortedNames(d.list(0)));
  }

  lemma ProgressStart(d: Directory, t: nat)
    ensures Progress(d, [], map[], 0, t) && SizeSum(SizeNow(d), []) == 0
  {
  }

  lemma QuietStep(d: Directory, k: Kernel, names: seq<string>, i: nat)
    requires i < |names|
    ensures SizeSum(SizeNow(d), names[..i + 1]) == SizeSum(SizeNow(d), names[..i]) + SizeNow(d)(names[i])
  {
    assert names[..i + 1][..i] == names[..i];
  }

  /** What a quiet directory means for one file. */
  lemma QuietOne(d: Directory, k: Kernel, name: string)
    requires Quiet(d, k)
    ensures (forall u :: k.writeLength(u) > 0) && (forall u :: d.file(name)(u) == d.file(name)(0))
    ensures FileFits(d, name) <==> SafeName(name) && d.file(name)(0).plain && |d.file(name)(0).content| <= MAX_FILE
    ensures SizeNow(d)(name) == |d.file(name)(0).content|
  {
  }
}
