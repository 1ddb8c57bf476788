/** Relative paths as `pathlib` reads them: empty and `.` components disappear. */
module StagedPaths {
  import opened Sequences

  function Split(s: string): (r: seq<string>)
    ensures r != []
  {
    if s == "" then [""]
    else if s[0] == '/' then [""] + Split(s[1..])
    else var r := Split(s[1..]); [[s[0]] + r[0]] + r[1..]
  }

  function Join(pieces: seq<string>): string {
    if pieces == [] then "" else if |pieces| == 1 then pieces[0] else pieces[0] + ("/" + Join(pieces[1..]))
  }

  predicate Kept(piece: string) { piece != "" && piece != "." }

  /** The path a relative path is written back as. */
  function Clean(s: string): string { Join(Select(Kept, Split(s))) }

  lemma {:induction false} SplitPieces(s: string, piece: string)
    requires piece in Split(s)
    ensures '/' !in piece
  {
    if s != "" {
      var r := Split(s[1..]);
      assert r[0] in r;
      SplitPieces(s[1..], r[0]);
      if piece in r { SplitPieces(s[1..], piece); }
    }
  }

  lemma {:induction false} SplitOne(piece: string)
    requires '/' !in piece
    ensures Split(piece) == [piece]
  {
    if piece != "" {
      SplitOne(piece[1..]);
      assert [piece[0]] + piece[1..] == piece;
    }
  }

  lemma {:induction false} SplitFirst(piece: string, rest: string)
    requires '/' !in piece
    ensures Split(piece + ("/" + rest)) == [piece] + Split(rest)
  {
    var s := piece + ("/" + rest);
    if piece == "" {
      assert s == "/" + rest && s[1..] == rest;
    } else {
      var tail := piece[1..] + ("/" + rest);
      SplitFirst(piece[1..], rest);
      assert s[0] == piece[0] && s[1..] == tail && Split(tail)[0] == piece[1..] && Split(tail)[1..] == Split(rest);
      assert [piece[0]] + piece[1..] == piece;
    }
  }

  /** Splitting undoes joining. */
  lemma {:induction false} SplitJoin(pieces: seq<string>)
    requires pieces != [] && forall p :: p in pieces ==> '/' !in p
    ensures Split(Join(pieces)) == pieces
  {
    if |pieces| == 1 {
      SplitOne(pieces[0]);
    } else {
      SplitJoin(pieces[1..]);
      SplitFirst(pieces[0], Join(pieces[1..]));
    }
  }

  /** A cleaned path is clean, and is relative. */
  lemma CleanAgain(s: string)
    ensures Clean(Clean(s)) == Clean(s)
    ensures Clean(s) != "" ==> Clean(s)[0] != '/'
  {
    var pieces := Select(Kept, Split(s));
    forall p | p in pieces ensures '/' !in p && Kept(p) {
      SelectMembers(Kept, Split(s), p);
      SplitPieces(s, p);
    }
    if pieces != [] {
      SplitJoin(pieces);
      SelectAll(Kept, pieces);
      assert pieces[0] in pieces;
    }
  }
}
