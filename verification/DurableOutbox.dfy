/** The durable-outbox migration: its guards and the idempotency keys its downgrade rewrites. */
module DurableOutbox {
  import opened Sequences
  import opened Text

  datatype Device = Device(lastServerSequence: int, lastServerAckedSequence: int)
  datatype Frame = Frame(device: int, sequence: int, ackedAt: Option<int>)

  /** A row of `commands`; `id` is the identifier's 32 hexadecimal digits, `scope` the added column. */
  datatype Command = Command(id: string, owner: string, device: string, scope: Option<string>, key: string, createdAt: int)

  const MARK := ":downgrade:"

  // ----- The rewrite -----

  function IdOf(c: Command): string { c.id }
  function OwnerKey(c: Command): (string, string) { (c.owner, c.key) }
  function ScopedKey(c: Command): (string, string, Option<string>, string) { (c.owner, c.device, c.scope, c.key) }

  /** Row identifiers are a primary key of fixed width. */
  predicate Keyed(rows: seq<Command>) { NoDup(Map(IdOf, rows)) && forall c :: c in rows ==> |c.id| == 32 }

  /** The window order of the ranking: creation time, then identifier. */
  predicate Earlier(a: Command, b: Command) {
    a.createdAt < b.createdAt || (a.createdAt == b.createdAt && a.id != b.id && StrLeq(a.id, b.id))
  }

  /** A rank above one: some earlier row has the same owner and key. */
  predicate Later(rows: seq<Command>, c: Command) { exists d :: d in rows && OwnerKey(d) == OwnerKey(c) && Earlier(d, c) }

  function Left(s: string, n: nat): string { if |s| <= n then s else s[..n] }

  function NewKey(c: Command): string { Left(c.key, 85) + MARK + c.id }

  function Rewrite(rows: seq<Command>): Command -> Command {
    (c: Command) => if Later(rows, c) then c.(key := NewKey(c)) else c
  }

  function Rewritten(rows: seq<Command>): seq<Command> { Map(Rewrite(rows), rows) }

  function DropScope(c: Command): Command { c.(scope := None) }
  function LegacyScope(c: Command): Command { c.(scope := Some("legacy")) }

  /** Owner and key identify a row. */
  predicate OwnerUnique(rows: seq<Command>) { NoDup(Map(OwnerKey, rows)) }
  predicate ScopedUnique(rows: seq<Command>) { NoDup(Map(ScopedKey, rows)) }

  // ----- What the rewrite keeps and restores -----

  lemma NewKeyLength(c: Command)
    requires |c.id| == 32
    ensures |NewKey(c)| <= 128
  {
  }

  /** The identifier at the end tells rewritten keys apart. */
  lemma NewKeysDiffer(c: Command, d: Command)
    requires |c.id| == 32 && |d.id| == 32 && NewKey(c) == NewKey(d)
    ensures c.id == d.id
  {
    var k := NewKey(c);
    assert k[|k| - 32..] == c.id;
    assert k[|k| - 32..] == d.id;
  }

  /** All rows stay, in order, and only keys of later duplicates change. */
  lemma RowsKept(rows: seq<Command>)
    requires forall c :: c in rows ==> |c.id| == 32
    ensures |Rewritten(rows)| == |rows|
    ensures forall i :: 0 <= i < |rows| ==>
              && Rewritten(rows)[i] == rows[i].(key := Rewritten(rows)[i].key)
              && (!Later(rows, rows[i]) ==> Rewritten(rows)[i] == rows[i])
              && (Later(rows, rows[i]) ==> Rewritten(rows)[i].key == NewKey(rows[i]) && |Rewritten(rows)[i].key| <= 128)
  {
    forall i | 0 <= i < |rows| && Later(rows, rows[i]) ensures |NewKey(rows[i])| <= 128 {
      assert rows[i] in rows;
      NewKeyLength(rows[i]);
    }
  }

  /** Identifiers differ, so of two rows one is earlier, and never both. */
  lemma EarlierTotal(a: Command, b: Command)
    requires a.id != b.id
    ensures Earlier(a, b) != Earlier(b, a)
  {
    StrTotal(a.id, b.id);
  }

  lemma EarlierTransitive(a: Command, b: Command, c: Command)
    requires Earlier(a, b) && Earlier(b, c)
    ensures Earlier(a, c)
  {
    StrTotal(a.id, b.id);
    StrTotal(b.id, c.id);
    if a.createdAt == c.createdAt {
      StrTransitive(a.id, b.id, c.id);
      StrTotal(a.id, c.id);
    }
  }

  lemma IdsDiffer(rows: seq<Command>, i: nat, j: nat)
    requires Keyed(rows) && i < |rows| && j < |rows| && i != j
    ensures rows[i].id != rows[j].id
  {
    assert Map(IdOf, rows)[i] != Map(IdOf, rows)[j];
  }

  /** Of two rows with the same owner and key the later one is ranked above one. */
  lemma OneKept(rows: seq<Command>, i: nat, j: nat)
    requires Keyed(rows) && i < |rows| && j < |rows| && i != j && OwnerKey(rows[i]) == OwnerKey(rows[j])
    ensures Later(rows, rows[i]) || Later(rows, rows[j])
  {
    IdsDiffer(rows, i, j);
    EarlierTotal(rows[i], rows[j]);
    assert rows[i] in rows && rows[j] in rows;
  }

  lemma {:induction false} Earliest(rows: seq<Command>, k: nat) returns (i: nat)
    requires Keyed(rows) && k < |rows|
    ensures i < |rows| && OwnerKey(rows[i]) == OwnerKey(rows[k]) && !Later(rows, rows[i])
    ensures forall j :: 0 <= j < |rows| && j != i && OwnerKey(rows[j]) == OwnerKey(rows[k]) ==> Earlier(rows[i], rows[j])
  {
    i := k;
    for j := 0 to |rows|
      invariant i < |rows| && OwnerKey(rows[i]) == OwnerKey(rows[k])
      invariant forall h :: 0 <= h < j && h != i && OwnerKey(rows[h]) == OwnerKey(rows[k]) ==> Earlier(rows[i], rows[h])
    {
      if j != i && OwnerKey(rows[j]) == OwnerKey(rows[k]) {
        IdsDiffer(rows, i, j);
        EarlierTotal(rows[i], rows[j]);
        if Earlier(rows[j], rows[i]) {
          forall h | 0 <= h < j && h != i && OwnerKey(rows[h]) == OwnerKey(rows[k]) ensures Earlier(rows[j], rows[h]) {
            EarlierTransitive(rows[j], rows[i], rows[h]);
          }
          i := j;
        }
      }
    }
    forall d | d in rows && OwnerKey(d) == OwnerKey(rows[i]) ensures !Earlier(d, rows[i]) {
      var j :| 0 <= j < |rows| && rows[j] == d;
      if j != i {
        IdsDiffer(rows, i, j);
        EarlierTotal(rows[i], rows[j]);
      }
    }
  }

  /** A key that is already the new key of its own row. */
  predicate OwnNewKey(c: Command) { |c.key| == 128 && c.key[85..] == MARK + c.id }

  /** A key survives its own rewriting exactly when it is the new key already. */
  lemma RewrittenToItself(c: Command)
    requires |c.id| == 32
    ensures NewKey(c) == c.key <==> OwnNewKey(c)
  {
    var k := NewKey(c);
    assert |k| == |Left(c.key, 85)| + 43;
    assert k[|Left(c.key, 85)|..] == MARK + c.id;
    if OwnNewKey(c) { assert c.key == c.key[..85] + c.key[85..]; }
  }

  /** A row comes out as it was exactly when it is the first of its group or its key is its own new key. */
  lemma RowUnchanged(rows: seq<Command>, i: nat)
    requires Keyed(rows) && i < |rows|
    ensures Rewritten(rows)[i] == rows[i] <==> !Later(rows, rows[i]) || OwnNewKey(rows[i])
  {
    hide NewKey, OwnNewKey, Later;
    assert rows[i] in rows;
    RewrittenToItself(rows[i]);
  }

  /** Every group has exactly one row that is ranked first, its earliest; the others change unless
      their key is already their own new key. */
  lemma {:induction false} EarliestKept(rows: seq<Command>, k: nat) returns (i: nat)
    requires Keyed(rows) && k < |rows|
    ensures i < |rows| && OwnerKey(rows[i]) == OwnerKey(rows[k])
    ensures forall j :: 0 <= j < |rows| && j != i && OwnerKey(rows[j]) == OwnerKey(rows[k]) ==> Earlier(rows[i], rows[j])
    ensures forall j :: 0 <= j < |rows| && OwnerKey(rows[j]) == OwnerKey(rows[k]) ==>
              && (Later(rows, rows[j]) <==> j != i)
              && (Rewritten(rows)[j] == rows[j] <==> j == i || OwnNewKey(rows[j]))
  {
    hide Rewrite, OwnNewKey;
    i := Earliest(rows, k);
    forall j | 0 <= j < |rows| && OwnerKey(rows[j]) == OwnerKey(rows[k])
      ensures (Later(rows, rows[j]) <==> j != i) && (Rewritten(rows)[j] == rows[j] <==> j == i || OwnNewKey(rows[j]))
    {
      assert rows[i] in rows;
      RowUnchanged(rows, j);
    }
  }

  /** No kept key is, for the same owner, the new key of a rewritten row. */
  predicate NoKeyTaken(rows: seq<Command>) {
    forall c, d :: c in rows && d in rows && !Later(rows, c) && Later(rows, d) && c.owner == d.owner ==> c.key != NewKey(d)
  }

  /** When the downgrade can succeed, the rows it leaves alone are exactly the earliest of each group. */
  lemma OnlyEarliestUnchanged(rows: seq<Command>, j: nat)
    requires Keyed(rows) && NoKeyTaken(rows) && j < |rows|
    ensures Rewritten(rows)[j] == rows[j] <==> !Later(rows, rows[j])
  {
    hide Rewritten, OwnNewKey, NewKey, Earlier;
    RowUnchanged(rows, j);
    RewrittenToItself(rows[j]);
    if Later(rows, rows[j]) {
      var i := EarliestKept(rows, j);
      assert rows[i] in rows && rows[j] in rows;
    }
  }

  lemma SelfKey(c: Command, stem: string, id: string)
    requires |stem| == 85 && |id| == 32 && c.id == id && c.key == stem + MARK + id
    ensures OwnNewKey(c)
  {
    assert c.key[85..] == MARK + id;
  }

  /** A later duplicate that stays as it is: its key ends in its own identifier. */
  lemma SelfKeyExample()
    ensures var id: string := seq(32, i => 'a');
      var key := seq(85, i => 'k') + MARK + id;
      var first := Command(seq(32, i => '0'), "owner", "phone", Some("a"), key, 0);
      var second := Command(id, "owner", "phone", Some("b"), key, 1);
      var rows := [first, second];
      Keyed(rows) && ScopedUnique(rows) && Later(rows, second) && Rewritten(rows)[1] == second
  {
    hide Rewritten, OwnNewKey, MARK;
    var id: string := seq(32, i => 'a');
    var key := seq(85, i => 'k') + MARK + id;
    var first := Command(seq(32, i => '0'), "owner", "phone", Some("a"), key, 0);
    var second := Command(id, "owner", "phone", Some("b"), key, 1);
    var rows := [first, second];
    assert first.id[0] == '0' && second.id[0] == 'a' && first.scope.value[0] == 'a' && second.scope.value[0] == 'b';
    assert rows[1] == second && first in rows && Earlier(first, second);
    SelfKey(second, seq(85, i => 'k'), id);
    RowUnchanged(rows, 1);
  }

  /** Owner and key identify the rows again exactly when no kept key was already a new key. */
  lemma UniquenessRestored(rows: seq<Command>)
    requires Keyed(rows)
    ensures OwnerUnique(Rewritten(rows)) <==> NoKeyTaken(rows)
  {
    if NoKeyTaken(rows) {
      var keys := Map(OwnerKey, Rewritten(rows));
      forall i, j | 0 <= i < j < |keys| ensures keys[i] != keys[j] { RowsApart(rows, i, j); }
    }
    if OwnerUnique(Rewritten(rows)) {
      forall c, d | c in rows && d in rows && !Later(rows, c) && Later(rows, d) && c.owner == d.owner ensures c.key != NewKey(d) {
        var i :| 0 <= i < |rows| && rows[i] == c;
        var j :| 0 <= j < |rows| && rows[j] == d;
        var keys := Map(OwnerKey, Rewritten(rows));
        assert keys[i] == (c.owner, c.key) && keys[j] == (d.owner, NewKey(d));
        assert i < j ==> keys[i] != keys[j];
        assert j < i ==> keys[j] != keys[i];
      }
    }
  }

  lemma RowsApart(rows: seq<Command>, i: nat, j: nat)
    requires Keyed(rows) && NoKeyTaken(rows) && i < j < |rows|
    ensures OwnerKey(Rewritten(rows)[i]) != OwnerKey(Rewritten(rows)[j])
  {
    var c, d := rows[i], rows[j];
    assert c in rows && d in rows;
    IdsDiffer(rows, i, j);
    if Later(rows, c) && Later(rows, d) {
      if NewKey(c) == NewKey(d) { NewKeysDiffer(c, d); }
    } else if !Later(rows, c) && !Later(rows, d) {
      if OwnerKey(c) == OwnerKey(d) { OneKept(rows, i, j); }
    }
  }

  lemma SameRow(rows: seq<Command>, i: nat, j: nat)
    requires OwnerUnique(rows) && i < |rows| && j < |rows| && OwnerKey(rows[i]) == OwnerKey(rows[j])
    ensures i == j
  {
    var keys := Map(OwnerKey, rows);
    assert keys[i] == keys[j];
  }

  /** Without duplicates nothing is rewritten. */
  lemma NothingRewritten(rows: seq<Command>)
    requires OwnerUnique(rows)
    ensures Rewritten(rows) == rows
  {
    forall i | 0 <= i < |rows| ensures !Later(rows, rows[i]) { NotLater(rows, i); }
  }

  // ----- The migration over a database -----

  predicate Acknowledged(devices: seq<Device>) {
    forall d :: d in devices ==> d.lastServerSequence == d.lastServerAckedSequence
  }

  predicate FramesAcked(frames: seq<Frame>) { forall f :: f in frames ==> f.ackedAt.Some? }

  /** The rows a downgrade leaves. */
  function Downgraded(rows: seq<Command>): seq<Command> { Map(DropScope, Rewritten(rows)) }

  lemma SameOwnerKeys(rows: seq<Command>)
    ensures Map(OwnerKey, Map(DropScope, rows)) == Map(OwnerKey, rows)
    ensures Map(IdOf, Map(DropScope, rows)) == Map(IdOf, rows)
  {
  }

  /** Added with one value for every row, the scope separates nothing: the new constraint holds. */
  lemma LegacyScoped(rows: seq<Command>)
    requires OwnerUnique(rows)
    ensures ScopedUnique(Map(LegacyScope, rows))
  {
    var keys := Map(ScopedKey, Map(LegacyScope, rows));
    forall i, j | 0 <= i < j < |keys| ensures keys[i] != keys[j] {
      assert Map(OwnerKey, rows)[i] != Map(OwnerKey, rows)[j];
    }
  }

  class Database {
    var devices: seq<Device>
    var commands: seq<Command>
    var outbox: Option<seq<Frame>>

    /** Revision 0002: no outbox, no scope, owner and key unique. */
    predicate AtOld()
      reads this
    {
      outbox.None? && Keyed(commands) && OwnerUnique(commands) && forall c :: c in commands ==> c.scope.None?
    }

    /** Revision 0003: an outbox, a scope on every row, scoped keys unique. */
    predicate AtNew()
      reads this
    {
      outbox.Some? && Keyed(commands) && ScopedUnique(commands) && forall c :: c in commands ==> c.scope.Some?
    }

    /** The guards scan the device cursors. */
    method CursorsAcknowledged() returns (ok: bool)
      ensures ok <==> Acknowledged(devices)
    {
      for i := 0 to |devices|
        invariant forall k :: 0 <= k < i ==> devices[k].lastServerSequence == devices[k].lastServerAckedSequence
      {
        if devices[i].lastServerSequence != devices[i].lastServerAckedSequence { return false; }
      }
      ok := true;
    }

    /** `upgrade`: succeeds exactly when every server frame is acknowledged. */
    method Upgrade() returns (ok: bool)
      requires AtOld()
      modifies this
      ensures devices == old(devices)
      ensures ok <==> Acknowledged(devices)
      ensures ok ==> AtNew() && outbox == Some([]) && commands == Map(LegacyScope, old(commands))
      ensures !ok ==> commands == old(commands) && outbox == old(outbox)
    {
      ok := CursorsAcknowledged();
      if !ok { return; }
      LegacyScoped(commands);
      assert Map(IdOf, Map(LegacyScope, commands)) == Map(IdOf, commands);
      commands := Map(LegacyScope, commands);
      outbox := Some([]);
    }

    /** The ranked update, row by row over the rows as they were. */
    method RewriteKeys() returns (rows: seq<Command>)
      ensures rows == Rewritten(commands)
    {
      hide Later, NewKey;
      rows := [];
      for i := 0 to |commands|
        invariant rows == Map(Rewrite(commands), commands[..i])
      {
        var c := commands[i];
        var rank := RowNumber(commands, c);
        assert Map(Rewrite(commands), commands[..i + 1]) == rows + [Rewrite(commands)(c)];
        rows := rows + [if rank > 1 then c.(key := NewKey(c)) else c];
      }
      assert commands[..|commands|] == commands;
    }

    /** `downgrade`: succeeds exactly when everything is acknowledged and no kept key is already a
        new key; a failure changes nothing. */
    method Downgrade() returns (ok: bool)
      requires AtNew()
      modifies this
      ensures devices == old(devices)
      ensures ok <==> Acknowledged(devices) && FramesAcked(old(outbox).value) && NoKeyTaken(old(commands))
      ensures ok ==> AtOld() && commands == Downgraded(old(commands))
      ensures !ok ==> commands == old(commands) && outbox == old(outbox)
    {
      ok := CursorsAcknowledged();
      if !ok { return; }
      var frames := outbox.value;
      for i := 0 to |frames|
        invariant forall k :: 0 <= k < i ==> frames[k].ackedAt.Some?
      {
        if frames[i].ackedAt.None? { return false; }
      }
      var rows := RewriteKeys();
      UniquenessRestored(commands);
      if !OwnerUnique(rows) { return false; }
      SameOwnerKeys(rows);
      assert Map(IdOf, rows) == Map(IdOf, commands);
      RowIds(commands, Map(DropScope, rows));
      commands := Map(DropScope, rows);
      outbox := None;
    }
  }

  /** A row's number among the rows of its owner and key, by creation time and identifier. */
  method RowNumber(rows: seq<Command>, c: Command) returns (rank: nat)
    ensures rank >= 1 && (rank > 1 <==> Later(rows, c))
  {
    hide Earlier;
    rank := 1;
    for j := 0 to |rows|
      invariant rank >= 1 && (rank > 1 <==> Later(rows[..j], c))
    {
      assert rows[..j + 1] == rows[..j] + [rows[j]];
      assert rows[j] in rows[..j + 1];
      if OwnerKey(rows[j]) == OwnerKey(c) && Earlier(rows[j], c) { rank := rank + 1; }
    }
    assert rows[..|rows|] == rows;
  }

  lemma RowIds(a: seq<Command>, b: seq<Command>)
    requires Keyed(a) && Map(IdOf, a) == Map(IdOf, b)
    ensures Keyed(b)
  {
    forall c | c in b ensures |c.id| == 32 {
      var i :| 0 <= i < |b| && b[i] == c;
      assert Map(IdOf, b)[i] == Map(IdOf, a)[i];
      assert a[i] in a;
    }
  }

  /** An upgrade that is taken back before any new command arrives restores every row. */
  lemma UpgradeTakenBack(rows: seq<Command>)
    requires OwnerUnique(rows) && forall c :: c in rows ==> c.scope.None?
    ensures Downgraded(Map(LegacyScope, rows)) == rows && NoKeyTaken(Map(LegacyScope, rows))
  {
    var upgraded := Map(LegacyScope, rows);
    assert Map(OwnerKey, upgraded) == Map(OwnerKey, rows);
    NothingRewritten(upgraded);
    forall i | 0 <= i < |rows| ensures DropScope(upgraded[i]) == rows[i] { assert rows[i] in rows; }
    forall d | d in upgraded ensures !Later(upgraded, d) {
      var j :| 0 <= j < |upgraded| && upgraded[j] == d;
      NotLater(upgraded, j);
    }
  }

  lemma NotLater(rows: seq<Command>, i: nat)
    requires OwnerUnique(rows) && i < |rows|
    ensures !Later(rows, rows[i])
  {
    forall d | d in rows && OwnerKey(d) == OwnerKey(rows[i]) ensures !Earlier(d, rows[i]) {
      var j :| 0 <= j < |rows| && rows[j] == d;
      SameRow(rows, i, j);
    }
  }

  /** A kept key that already looks like a rewritten one stops the downgrade: the second row of the
      group takes the key of the first row of another. */
  lemma TakenKeyExample()
    ensures var id: string := seq(32, i => 'a');
      var other: string := seq(32, i => 'b');
      var first := Command(seq(32, i => '0'), "owner", "phone", Some("a"), "key", 0);
      var second := Command(id, "owner", "phone", Some("b"), "key", 1);
      var third := Command(other, "owner", "phone", Some("c"), "key" + MARK + id, 2);
      Keyed([first, second, third]) && ScopedUnique([first, second, third]) && !NoKeyTaken([first, second, third])
  {
    var id: string := seq(32, i => 'a');
    var other: string := seq(32, i => 'b');
    var first := Command(seq(32, i => '0'), "owner", "phone", Some("a"), "key", 0);
    var second := Command(id, "owner", "phone", Some("b"), "key", 1);
    var third := Command(other, "owner", "phone", Some("c"), "key" + MARK + id, 2);
    var rows := [first, second, third];
    assert first.id[0] == '0' && second.id[0] == 'a' && third.id[0] == 'b';
    assert |third.key| != |"key"|;
    assert Earlier(first, second) && first in rows && OwnerKey(first) == OwnerKey(second);
    assert Later(rows, second) && second in rows && third in rows;
    assert !Later(rows, third);
    assert third.key == NewKey(second);
  }
}
