/** The closed-form asset matrix of a release, and when it agrees with the manifest. */
module CoreAssets {
  import opened Sequences
  import opened Text
  import opened ReleaseManifest

  // ----- How a matrix-derived name is spelled: stem, architecture, ending -----

  datatype Family = ConnectorFile | ExecutableEvidence | PackageEvidence | SigningKey

  function Stem(f: Family, version: string, os: Os): string {
    match f
    case ConnectorFile => ArtifactStem(version, os)
    case ExecutableEvidence => "native-" + OsName(os) + "-"
    case PackageEvidence => "native-package-" + OsName(os) + "-"
    case SigningKey => "rpm-signing-" + OsName(os) + "-"
  }

  /** A signed file with its SBOM, its provenance, their signature bundles and the attestation. */
  function KindNames(file: string): seq<string> {
    [file, SbomName(file), ProvenanceName(file), BundleName(file), BundleName(SbomName(file)),
     BundleName(ProvenanceName(file)), AttestationName(file)]
  }

  function SignedNames(file: string): seq<string> { [file, BundleName(file)] }

  function Endings(f: Family, os: Os): seq<string> {
    match (f, os)
    case (ConnectorFile, Linux) => KindNames("") + KindNames(".deb") + KindNames(".rpm")
    case (ConnectorFile, Darwin) => KindNames("") + KindNames(".pkg")
    case (ExecutableEvidence, Linux) => []
    case (ExecutableEvidence, Darwin) => SignedNames(".json")
    case (PackageEvidence, Linux) => SignedNames("-rpm.json")
    case (PackageEvidence, Darwin) => SignedNames("-pkg.json")
    case (SigningKey, Linux) => SignedNames(".asc")
    case (SigningKey, Darwin) => []
  }

  /** `tail` extends one ending of an OS to another ending of the same family. */
  ghost predicate ImitatingTail(os: Os, tail: string) {
    tail != "" &&
    exists f: Family, i, j ::
      0 <= i < |Endings(f, os)| && 0 <= j < |Endings(f, os)| && tail + Endings(f, os)[i] == Endings(f, os)[j]
  }

  /** No architecture token is another token of the same OS followed by an imitating tail. */
  ghost predicate Admissible(matrix: seq<Target>) {
    forall i, j :: 0 <= i < |matrix| && 0 <= j < |matrix| ==> !Imitates(matrix[i], matrix[j])
  }

  ghost predicate Imitates(t: Target, u: Target) {
    t.os == u.os && exists tail :: ImitatingTail(t.os, tail) && t.arch == u.arch + tail
  }

  lemma TailStartsWithDot(f: Family, os: Os, i: nat, j: nat, tail: string)
    requires i < |Endings(f, os)| && j < |Endings(f, os)|
    requires tail != "" && tail + Endings(f, os)[i] == Endings(f, os)[j]
    ensures tail[0] == '.'
  {
    if f.PackageEvidence? {
      NoHyphenTail(os, i, j, tail);
    } else {
      assert tail[0] == Endings(f, os)[j][0];
    }
  }

  lemma NoHyphenTail(os: Os, i: nat, j: nat, tail: string)
    requires i < 2 && j < 2 && tail != ""
    ensures tail + Endings(PackageEvidence, os)[i] != Endings(PackageEvidence, os)[j]
  {
    var extended := tail + Endings(PackageEvidence, os)[i];
    if i == 0 && j == 1 && |tail| == 14 {
      assert extended[14] == '-' && Endings(PackageEvidence, os)[1][14] == 't';
    }
  }

  /** Every imitating tail starts with '.', so tokens without a dot are admissible. */
  lemma PlainTokensAdmissible(matrix: seq<Target>)
    requires forall t :: t in matrix ==> '.' !in t.arch
    ensures Admissible(matrix)
  {
    forall i, j | 0 <= i < |matrix| && 0 <= j < |matrix| ensures !Imitates(matrix[i], matrix[j]) {
      var t, u := matrix[i], matrix[j];
      assert t in matrix;
      if t.os == u.os {
        forall tail | ImitatingTail(t.os, tail) ensures t.arch != u.arch + tail {
          var f: Family, a, b :| 0 <= a < |Endings(f, t.os)| && 0 <= b < |Endings(f, t.os)|
                                 && tail + Endings(f, t.os)[a] == Endings(f, t.os)[b];
          TailStartsWithDot(f, t.os, a, b, tail);
          assert (u.arch + tail)[|u.arch|] == '.';
        }
      }
    }
  }

  function Spell(version: string, t: Target, f: Family, ending: string): string {
    Stem(f, version, t.os) + t.arch + ending
  }

  function SpellAll(version: string, t: Target, f: Family): seq<string> {
    Map(e => Spell(version, t, f, e), Endings(f, t.os))
  }

  function TargetAssets(version: string, t: Target): seq<string> {
    SpellAll(version, t, ConnectorFile) + SpellAll(version, t, ExecutableEvidence)
    + SpellAll(version, t, PackageEvidence) + SpellAll(version, t, SigningKey)
  }

  function AssetsOf(version: string): Target -> seq<string> { t => TargetAssets(version, t) }

  function FixedBundles(): seq<string> {
    [BundleName(MANIFEST), BundleName(CHECKSUMS), BundleName(RELEASE_METADATA)]
  }

  function FixedAssets(): seq<string> {
    [RELEASE_METADATA] + [MANIFEST] + [CHECKSUMS] + FixedBundles()
  }

  function MatrixAssets(version: string, matrix: seq<Target>): seq<string> {
    FixedAssets() + FlatMap(AssetsOf(version), matrix)
  }

  // ----- Two assets share a name exactly when a token imitates an ending -----

  /** Stems of different families or operating systems differ at a character both have. */
  lemma StemsApart(version: string, f: Family, os: Os, g: Family, os': Os) returns (k: nat)
    requires f != g || os != os'
    ensures k < |Stem(f, version, os)| && k < |Stem(g, version, os')|
    ensures Stem(f, version, os)[k] != Stem(g, version, os')[k]
  {
    var a, b := Stem(f, version, os), Stem(g, version, os');
    if f == g {
      k := match f case ConnectorFile => |PRODUCT| + |version| + 2 case ExecutableEvidence => 7
           case PackageEvidence => 15 case SigningKey => 12;
      if f == ConnectorFile {
        assert ArtifactStem(version, os)[k] == OsName(os)[0] && ArtifactStem(version, os')[k] == OsName(os')[0];
      }
    } else {
      k := if {f, g} == {ExecutableEvidence, PackageEvidence} then 7 else 0;
      assert a[0] == 's' <==> f.ConnectorFile?;
      assert b[0] == 's' <==> g.ConnectorFile?;
    }
  }

  lemma SpelledAlike(version: string, t: Target, f: Family, i: nat, u: Target, g: Family, j: nat)
    requires i < |Endings(f, t.os)| && j < |Endings(g, u.os)|
    requires Spell(version, t, f, Endings(f, t.os)[i]) == Spell(version, u, g, Endings(g, u.os)[j])
    ensures f == g && t.os == u.os && t.arch + Endings(f, t.os)[i] == u.arch + Endings(f, t.os)[j]
  {
    if f != g || t.os != u.os {
      var k := StemsApart(version, f, t.os, g, u.os);
      ApartFrom(Stem(f, version, t.os), Stem(g, version, u.os), k, t.arch, Endings(f, t.os)[i], u.arch,
                Endings(g, u.os)[j]);
    } else {
      SameStem(Stem(f, version, t.os), t.arch, Endings(f, t.os)[i], u.arch, Endings(g, u.os)[j]);
    }
  }

  lemma ApartFrom(a: string, b: string, k: nat, x: string, e: string, y: string, e': string)
    requires k < |a| && k < |b| && a[k] != b[k]
    ensures a + x + e != b + y + e'
  {
    assert (a + x + e)[k] == a[k] && (b + y + e')[k] == b[k];
  }

  lemma SameStem(stem: string, x: string, e: string, y: string, e': string)
    requires stem + x + e == stem + y + e'
    ensures x + e == y + e'
  {
    assert (stem + x + e)[|stem|..] == x + e;
    assert (stem + y + e')[|stem|..] == y + e';
  }

  lemma SamePrefix(prefix: string, e: string, e': string)
    requires prefix + e == prefix + e'
    ensures e == e'
  {
    assert (prefix + e)[|prefix|..] == e && (prefix + e')[|prefix|..] == e';
  }

  lemma AssetSpelling(version: string, t: Target, name: string) returns (f: Family, i: nat)
    requires name in TargetAssets(version, t)
    ensures i < |Endings(f, t.os)| && name == Spell(version, t, f, Endings(f, t.os)[i])
  {
    if name in SpellAll(version, t, ConnectorFile) {
      f := ConnectorFile;
    } else if name in SpellAll(version, t, ExecutableEvidence) {
      f := ExecutableEvidence;
    } else if name in SpellAll(version, t, PackageEvidence) {
      f := PackageEvidence;
    } else {
      f := SigningKey;
    }
    i :| 0 <= i < |Endings(f, t.os)| && SpellAll(version, t, f)[i] == name;
  }

  lemma SpelledIsAsset(version: string, t: Target, f: Family, i: nat)
    requires i < |Endings(f, t.os)|
    ensures Spell(version, t, f, Endings(f, t.os)[i]) in TargetAssets(version, t)
  {
    assert SpellAll(version, t, f)[i] == Spell(version, t, f, Endings(f, t.os)[i]);
  }

  lemma EndingsDistinct(f: Family, os: Os)
    ensures NoDup(Endings(f, os))
  {
    if f.ConnectorFile? {
      KindNamesDistinct("");
      KindNamesDistinct(".deb");
      KindNamesDistinct(".rpm");
      KindNamesDistinct(".pkg");
      KindNamesApart(".deb", ".rpm");
      KindNamesApart("", ".deb");
      KindNamesApart("", ".rpm");
      KindNamesApart("", ".pkg");
      NoDupConcat(KindNames(""), KindNames(".pkg"));
      NoDupConcat(KindNames(""), KindNames(".deb"));
      NoDupConcat(KindNames("") + KindNames(".deb"), KindNames(".rpm"));
    }
  }

  lemma KindNamesDistinct(x: string)
    ensures NoDup(KindNames(x))
  {
    var k := KindNames(x);
    assert |k[3]| != |k[1]| && k[4][|x| + 1] == 's' && k[5][|x| + 1] == 'i';
  }

  /** Extensions tell two files' assets apart: an extension never starts another kind's ending. */
  lemma KindNamesApart(x: string, y: string)
    requires (x == "" || (|x| == 4 && x[0] == '.' && x[1] !in {'s', 'i'}))
    requires |y| == 4 && y[0] == '.' && y[1] !in {'s', 'i'} && x != y
    ensures forall name :: name in KindNames(x) ==> name !in KindNames(y)
  {
    var a, b := KindNames(x), KindNames(y);
    forall i | 0 <= i < 7 ensures |b[i]| >= 4 && b[i][..4] == y {}
    forall i | 0 <= i < 7 ensures if x == "" then |a[i]| < 2 || a[i][1] in {'s', 'i'} else |a[i]| >= 4 && a[i][..4] == x {}
  }

  lemma TargetAssetsDistinct(version: string, t: Target)
    ensures NoDup(TargetAssets(version, t))
  {
    forall f: Family ensures NoDup(SpellAll(version, t, f)) { FamilyDistinct(version, t, f); }
    forall f: Family, g: Family, name | f != g && name in SpellAll(version, t, f) ensures name !in SpellAll(version, t, g) {
      FamiliesApart(version, t, f, g, name);
    }
    NoDupConcat(SpellAll(version, t, ConnectorFile), SpellAll(version, t, ExecutableEvidence));
    NoDupConcat(SpellAll(version, t, ConnectorFile) + SpellAll(version, t, ExecutableEvidence),
                SpellAll(version, t, PackageEvidence));
    NoDupConcat(SpellAll(version, t, ConnectorFile) + SpellAll(version, t, ExecutableEvidence)
                + SpellAll(version, t, PackageEvidence), SpellAll(version, t, SigningKey));
  }

  lemma FamilyDistinct(version: string, t: Target, f: Family)
    ensures NoDup(SpellAll(version, t, f))
  {
    var names, ends := SpellAll(version, t, f), Endings(f, t.os);
    EndingsDistinct(f, t.os);
    forall i, j | 0 <= i < j < |names| ensures names[i] != names[j] {
      if names[i] == names[j] {
        SamePrefix(Stem(f, version, t.os) + t.arch, ends[i], ends[j]);
      }
    }
  }

  lemma FamiliesApart(version: string, t: Target, f: Family, g: Family, name: string)
    requires f != g && name in SpellAll(version, t, f)
    ensures name !in SpellAll(version, t, g)
  {
    var i :| 0 <= i < |Endings(f, t.os)| && SpellAll(version, t, f)[i] == name;
    forall j | 0 <= j < |Endings(g, t.os)| ensures SpellAll(version, t, g)[j] != name {
      if SpellAll(version, t, g)[j] == name {
        SpelledAlike(version, t, f, i, t, g, j);
      }
    }
  }

  /** Two different targets share an asset name only when one token imitates the other. */
  lemma SharedNameImitates(version: string, t: Target, u: Target, name: string)
    requires t != u && name in TargetAssets(version, t) && name in TargetAssets(version, u)
    ensures Imitates(t, u) || Imitates(u, t)
  {
    var f, i := AssetSpelling(version, t, name);
    var g, j := AssetSpelling(version, u, name);
    SpelledAlike(version, t, f, i, u, g, j);
    if |t.arch| >= |u.arch| {
      var tail := SplitTail(t.arch, Endings(f, t.os)[i], u.arch, Endings(f, t.os)[j]);
      assert ImitatingTail(t.os, tail);
    } else {
      var tail := SplitTail(u.arch, Endings(f, t.os)[j], t.arch, Endings(f, t.os)[i]);
      assert ImitatingTail(t.os, tail);
    }
  }

  lemma SplitTail(x: string, e: string, y: string, e': string) returns (tail: string)
    requires x + e == y + e' && |x| >= |y| && x != y
    ensures tail != "" && x == y + tail && tail + e == e'
  {
    tail := x[|y|..];
    assert (x + e)[..|y|] == x[..|y|] && (y + e')[..|y|] == y;
    assert (x + e)[|y|..] == tail + e && (y + e')[|y|..] == e';
  }

  lemma ImitationShares(version: string, t: Target, u: Target) returns (name: string)
    requires Imitates(t, u)
    ensures t != u && name in TargetAssets(version, t) && name in TargetAssets(version, u)
  {
    var tail :| ImitatingTail(t.os, tail) && t.arch == u.arch + tail;
    assert |t.arch| > |u.arch|;
    var f: Family, i, j :| 0 <= i < |Endings(f, t.os)| && 0 <= j < |Endings(f, t.os)|
                           && tail + Endings(f, t.os)[i] == Endings(f, t.os)[j];
    name := Spell(version, t, f, Endings(f, t.os)[i]);
    SpelledIsAsset(version, t, f, i);
    SpelledIsAsset(version, u, f, j);
    Regroup(Stem(f, version, t.os), u.arch, tail, Endings(f, t.os)[i]);
  }

  lemma Regroup(a: string, b: string, c: string, d: string)
    ensures a + (b + c) + d == a + b + (c + d)
  {
  }

  lemma AssetInitial(version: string, t: Target, name: string)
    requires name in TargetAssets(version, t)
    ensures name != "" && name[0] in {'s', 'n', 'r'}
  {
    var f, i := AssetSpelling(version, t, name);
    InitialKept(Stem(f, version, t.os), t.arch, Endings(f, t.os)[i]);
  }

  lemma KindNamesPlain(file: string, c: char, i: nat)
    requires c == '/' && c !in file && i < 7
    ensures c !in KindNames(file)[i]
  {
  }

  lemma EndingPlain(f: Family, os: Os, i: nat)
    requires i < |Endings(f, os)|
    ensures '/' !in Endings(f, os)[i]
  {
    hide KindNames;
    if f.ConnectorFile? {
      var j := i % 7;
      KindNamesPlain("", '/', j);
      KindNamesPlain(".deb", '/', j);
      KindNamesPlain(".rpm", '/', j);
      KindNamesPlain(".pkg", '/', j);
      ThreeSevens(i, j, os);
    }
  }

  lemma ThreeSevens(i: nat, j: nat, os: Os)
    requires i < |Endings(ConnectorFile, os)| && j == i % 7
    ensures Endings(ConnectorFile, os)[i] in [KindNames("")[j], KindNames(".deb")[j], KindNames(".rpm")[j], KindNames(".pkg")[j]]
  {
    hide KindNames;
    var a, b, c, d := KindNames(""), KindNames(".deb"), KindNames(".rpm"), KindNames(".pkg");
    KindNamesSeven("");
    KindNamesSeven(".deb");
    KindNamesSeven(".rpm");
    KindNamesSeven(".pkg");
    assert os.Linux? ==> Endings(ConnectorFile, os) == a + b + c;
    assert os.Darwin? ==> Endings(ConnectorFile, os) == a + d;
    var choices := [a[j], b[j], c[j], d[j]];
    assert choices[0] == a[j] && choices[1] == b[j] && choices[2] == c[j] && choices[3] == d[j];
  }

  lemma KindNamesSeven(file: string)
    ensures |KindNames(file)| == 7
  {
  }

  /** A name without separators in its version and its token is a plain file name. */
  lemma AssetPlain(version: string, t: Target, name: string)
    requires name in TargetAssets(version, t) && '/' !in version && '/' !in t.arch
    ensures '/' !in name
  {
    hide Endings, TargetAssets;
    var f, i := AssetSpelling(version, t, name);
    EndingPlain(f, t.os, i);
    StemPlain(f, version, t.os);
  }

  lemma StemPlain(f: Family, version: string, os: Os)
    requires '/' !in version
    ensures '/' !in Stem(f, version, os)
  {
  }

  lemma InitialKept(a: string, x: string, e: string)
    requires a != ""
    ensures (a + x + e) != "" && (a + x + e)[0] == a[0]
  {
  }

  lemma FixedInitial(name: string)
    requires name in FixedAssets()
    ensures name != "" && name[0] in {'m', 'c', 'S'}
  {
    assert MANIFEST[0] == 'm' && RELEASE_METADATA[0] == 'c' && CHECKSUMS[0] == 'S';
    assert BundleName(MANIFEST)[0] == 'm' && BundleName(RELEASE_METADATA)[0] == 'c' && BundleName(CHECKSUMS)[0] == 'S';
  }

  lemma FixedDistinct()
    ensures NoDup(FixedAssets())
  {
    assert |MANIFEST| == 13 && |RELEASE_METADATA| == 31 && |CHECKSUMS| == 10;
  }

  lemma FixedApart(version: string, matrix: seq<Target>, name: string)
    requires name in FixedAssets()
    ensures name !in FlatMap(AssetsOf(version), matrix)
  {
    FixedInitial(name);
    FlatMapContains(AssetsOf(version), matrix, name);
    forall i | 0 <= i < |matrix| ensures name !in AssetsOf(version)(matrix[i]) {
      if name in TargetAssets(version, matrix[i]) { AssetInitial(version, matrix[i], name); }
    }
  }

  /** The matrix assets are pairwise distinct exactly when the targets are and no token imitates. */
  lemma MatrixDistinct(version: string, matrix: seq<Target>)
    ensures NoDup(MatrixAssets(version, matrix)) <==> NoDup(matrix) && Admissible(matrix)
  {
    forall name | name in FixedAssets() ensures name !in FlatMap(AssetsOf(version), matrix) {
      FixedApart(version, matrix, name);
    }
    FixedDistinct();
    NoDupConcat(FixedAssets(), FlatMap(AssetsOf(version), matrix));
    TargetsDistinct(version, matrix);
  }

  /** "amd64.deb" imitates the Debian package of "amd64": the executable of the one target is the
      package of the other, in every version. */
  lemma SuffixTokenCollides(version: string)
    ensures var plain, suffixed := Target(Linux, "amd64"), Target(Linux, "amd64.deb");
      && PackageName(version, plain, Deb) == ArtifactName(version, suffixed)
      && !Admissible([plain, suffixed]) && !NoDup(MatrixAssets(version, [plain, suffixed]))
  {
    hide MatrixAssets;
    var matrix := [Target(Linux, "amd64"), Target(Linux, "amd64.deb")];
    assert ".deb" + Endings(ConnectorFile, Linux)[0] == Endings(ConnectorFile, Linux)[7];
    assert ImitatingTail(Linux, ".deb");
    assert "amd64.deb" == "amd64" + ".deb";
    assert matrix[1].arch == matrix[0].arch + ".deb";
    assert Imitates(matrix[1], matrix[0]);
    MatrixDistinct(version, matrix);
  }

  lemma TargetsDistinct(version: string, matrix: seq<Target>)
    ensures NoDup(FlatMap(AssetsOf(version), matrix)) <==> NoDup(matrix) && Admissible(matrix)
  {
    forall t ensures NoDup(AssetsOf(version)(t)) && AssetsOf(version)(t) != [] {
      TargetAssetsDistinct(version, t);
      SpelledIsAsset(version, t, ConnectorFile, 0);
    }
    forall t, u | t != u ensures Shares(AssetsOf(version), t, u) <==> Imitates(t, u) || Imitates(u, t) {
      SharingIsImitation(version, t, u);
    }
    DistinctUnless(AssetsOf(version), matrix);
  }

  ghost predicate Shares(f: Target -> seq<string>, t: Target, u: Target) {
    exists name :: name in f(t) && name in f(u)
  }

  lemma SharingIsImitation(version: string, t: Target, u: Target)
    requires t != u
    ensures Shares(AssetsOf(version), t, u) <==> Imitates(t, u) || Imitates(u, t)
  {
    if name :| name in AssetsOf(version)(t) && name in AssetsOf(version)(u) {
      SharedNameImitates(version, t, u, name);
    }
    if Imitates(t, u) {
      var name := ImitationShares(version, t, u);
      assert name in AssetsOf(version)(t) && name in AssetsOf(version)(u);
    }
    if Imitates(u, t) {
      var name := ImitationShares(version, u, t);
      assert name in AssetsOf(version)(t) && name in AssetsOf(version)(u);
    }
  }

  lemma DistinctUnless(f: Target -> seq<string>, matrix: seq<Target>)
    requires forall t :: NoDup(f(t)) && f(t) != []
    requires forall t, u :: t != u ==> (Shares(f, t, u) <==> Imitates(t, u) || Imitates(u, t))
    ensures NoDup(FlatMap(f, matrix)) <==> NoDup(matrix) && Admissible(matrix)
  {
    FlatMapNoDup(f, matrix);
    if NoDup(matrix) && Admissible(matrix) {
      forall i, j, name | 0 <= i < j < |matrix| && name in f(matrix[i]) ensures name !in f(matrix[j]) {
        assert !Shares(f, matrix[i], matrix[j]);
      }
    }
    if NoDup(FlatMap(f, matrix)) {
      forall i, j | 0 <= i < j < |matrix| ensures matrix[i] != matrix[j] {
        assert f(matrix[i])[0] in f(matrix[i]);
      }
      forall i, j | 0 <= i < |matrix| && 0 <= j < |matrix| ensures !Imitates(matrix[i], matrix[j]) {
        if i != j {
          assert !Shares(f, matrix[i], matrix[j]);
        }
      }
    }
  }

  // ----- The asset matrix spelled with the manifest's own name functions -----

  lemma Joined(a: string, x: string, y: string)
    ensures (a + x) + y == a + (x + y)
  {
  }

  lemma KindNamesShift(a: string, x: string)
    ensures Map(e => a + e, KindNames(x)) == KindNames(a + x)
  {
    Joined(a, x, ".spdx.json");
    Joined(a, x, ".intoto.json");
    Joined(a, x, ".sigstore.json");
    Joined(a, x, ".intoto.sigstore.json");
    Joined(a, SbomName(x), ".sigstore.json");
    Joined(a, ProvenanceName(x), ".sigstore.json");
  }

  /** Every asset of one target, in the manifest's own spelling. */
  function NamedAssets(version: string, t: Target): seq<string> {
    match t.os
    case Linux =>
      KindNames(ArtifactName(version, t)) + KindNames(PackageName(version, t, Deb))
      + KindNames(PackageName(version, t, Rpm))
      + SignedNames(PackageEvidenceName(t, Rpm)) + SignedNames(SigningKeyName(t))
    case Darwin =>
      KindNames(ArtifactName(version, t)) + KindNames(PackageName(version, t, Pkg))
      + SignedNames(ExecutableEvidenceName(t)) + SignedNames(PackageEvidenceName(t, Pkg))
  }

  lemma AssetsNamed(version: string, t: Target)
    ensures TargetAssets(version, t) == NamedAssets(version, t)
  {
    FilesNamed(version, t);
    match t.os {
      case Linux =>
        EvidenceSpelling(version, t, PackageEvidence, "-rpm.json");
        EvidenceSpelling(version, t, SigningKey, ".asc");
        PackageEvidenceSpelled(version, t, Rpm, "-rpm.json");
        SigningKeySpelled(version, t);
        assert SpellAll(version, t, ExecutableEvidence) == [];
      case Darwin =>
        EvidenceSpelling(version, t, ExecutableEvidence, ".json");
        EvidenceSpelling(version, t, PackageEvidence, "-pkg.json");
        PackageEvidenceSpelled(version, t, Pkg, "-pkg.json");
        ExecutableEvidenceSpelled(version, t);
        assert SpellAll(version, t, SigningKey) == [];
    }
  }

  lemma PackageEvidenceSpelled(version: string, t: Target, format: Format, ending: string)
    requires ending == "-" + FormatName(format) + ".json"
    ensures Spell(version, t, PackageEvidence, ending) == PackageEvidenceName(t, format)
  {
  }

  lemma ExecutableEvidenceSpelled(version: string, t: Target)
    ensures Spell(version, t, ExecutableEvidence, ".json") == ExecutableEvidenceName(t)
  {
  }

  lemma SigningKeySpelled(version: string, t: Target)
    ensures Spell(version, t, SigningKey, ".asc") == SigningKeyName(t)
  {
  }

  lemma FilesNamed(version: string, t: Target)
    ensures SpellAll(version, t, ConnectorFile)
         == (if t.os.Linux? then
               KindNames(ArtifactName(version, t)) + KindNames(PackageName(version, t, Deb))
               + KindNames(PackageName(version, t, Rpm))
             else KindNames(ArtifactName(version, t)) + KindNames(PackageName(version, t, Pkg)))
  {
    var a := ArtifactName(version, t);
    KindNamesShift(a, "");
    assert a + "" == a;
    match t.os {
      case Linux =>
        SpelledFiles(version, t, KindNames("") + KindNames(".deb"), KindNames(".rpm"));
        SpelledFiles(version, t, KindNames(""), KindNames(".deb"));
        KindNamesShift(a, ".deb");
        KindNamesShift(a, ".rpm");
        assert a + ".deb" == PackageName(version, t, Deb) && a + ".rpm" == PackageName(version, t, Rpm);
      case Darwin =>
        SpelledFiles(version, t, KindNames(""), KindNames(".pkg"));
        KindNamesShift(a, ".pkg");
        assert a + ".pkg" == PackageName(version, t, Pkg);
    }
  }

  lemma SpelledFiles(version: string, t: Target, a: seq<string>, b: seq<string>)
    ensures Map(e => Spell(version, t, ConnectorFile, e), a + b)
         == Map(e => ArtifactName(version, t) + e, a) + Map(e => ArtifactName(version, t) + e, b)
  {
  }

  lemma EvidenceSpelling(version: string, t: Target, f: Family, ending: string)
    requires Endings(f, t.os) == SignedNames(ending)
    ensures SpellAll(version, t, f) == SignedNames(Spell(version, t, f, ending))
  {
    Joined(Stem(f, version, t.os) + t.arch, ending, ".sigstore.json");
  }

  // ----- The manifest-driven inventory is a reordering of the asset matrix -----

  function Trio(file: string): seq<string> { [file, SbomName(file), ProvenanceName(file)] }

  /** Content files of one release-mode target, in manifest order. */
  function ContentOf(version: string, t: Target): seq<string> {
    match t.os
    case Linux =>
      Trio(ArtifactName(version, t)) + Trio(PackageName(version, t, Deb)) + Trio(PackageName(version, t, Rpm))
      + [PackageEvidenceName(t, Rpm), SigningKeyName(t)]
    case Darwin =>
      Trio(ArtifactName(version, t)) + [ExecutableEvidenceName(t)] + Trio(PackageName(version, t, Pkg))
      + [PackageEvidenceName(t, Pkg)]
  }

  /** The files of one target whose provenance is attested. */
  function AttestedOf(version: string, t: Target): seq<string> {
    match t.os
    case Linux => [ArtifactName(version, t), PackageName(version, t, Deb), PackageName(version, t, Rpm)]
    case Darwin => [ArtifactName(version, t), PackageName(version, t, Pkg)]
  }

  function ContentAt(version: string): Target -> seq<string> { t => ContentOf(version, t) }
  function AttestedAt(version: string): Target -> seq<string> { t => AttestedOf(version, t) }

  /** `all` is `content`, the bundle of each content file and the attestation of each attested one. */
  ghost predicate Covers(all: seq<string>, content: seq<string>, attested: seq<string>) {
    multiset(all) == multiset(content) + multiset(Map(BundleName, content)) + multiset(Map(AttestationName, attested))
  }

  lemma CoversConcat(all: seq<string>, c: seq<string>, a: seq<string>,
                     all': seq<string>, c': seq<string>, a': seq<string>)
    requires Covers(all, c, a) && Covers(all', c', a')
    ensures Covers(all + all', c + c', a + a')
  {
    MapAppend(BundleName, c, c');
    MapAppend(AttestationName, a, a');
  }

  lemma CoversFile(file: string)
    ensures Covers(KindNames(file), Trio(file), [file])
  {
    MapThree(BundleName, file, SbomName(file), ProvenanceName(file));
    MapOne(AttestationName, file);
    Regroup7(file, SbomName(file), ProvenanceName(file), BundleName(file), BundleName(SbomName(file)),
             BundleName(ProvenanceName(file)), AttestationName(file));
  }

  lemma CoversSigned(file: string)
    ensures Covers(SignedNames(file), [file], [])
  {
    MapOne(BundleName, file);
    Regroup2(file, BundleName(file));
  }

  lemma MapOne<A, B>(f: A -> B, x: A)
    ensures Map(f, [x]) == [f(x)]
  {
  }

  lemma MapThree<A, B>(f: A -> B, x: A, y: A, z: A)
    ensures Map(f, [x, y, z]) == [f(x), f(y), f(z)]
  {
  }

  lemma Regroup7<T>(a: T, b: T, c: T, d: T, e: T, f: T, g: T)
    ensures multiset([a, b, c, d, e, f, g]) == multiset([a, b, c]) + multiset([d, e, f]) + multiset([g])
  {
    assert [a, b, c, d, e, f, g] == [a, b, c] + [d, e, f] + [g];
  }

  lemma Regroup2<T>(a: T, b: T)
    ensures multiset([a, b]) == multiset([a]) + multiset([b])
  {
    assert [a, b] == [a] + [b];
  }

  lemma AssetPartition(version: string, t: Target)
    ensures Covers(TargetAssets(version, t), ContentOf(version, t), AttestedOf(version, t))
  {
    AssetsNamed(version, t);
    var a := ArtifactName(version, t);
    match t.os {
      case Linux =>
        LinuxPartition(a, PackageName(version, t, Deb), PackageName(version, t, Rpm),
                       PackageEvidenceName(t, Rpm), SigningKeyName(t));
      case Darwin =>
        DarwinPartition(a, PackageName(version, t, Pkg), ExecutableEvidenceName(t), PackageEvidenceName(t, Pkg));
    }
  }

  lemma LinuxPartition(a: string, d: string, r: string, e: string, k: string)
    ensures Covers(KindNames(a) + KindNames(d) + KindNames(r) + SignedNames(e) + SignedNames(k),
                   Trio(a) + Trio(d) + Trio(r) + [e, k], [a, d, r])
  {
    CoversFile(a);
    CoversFile(d);
    CoversFile(r);
    CoversSigned(e);
    CoversSigned(k);
    JoinFive(KindNames(a), Trio(a), a, KindNames(d), Trio(d), d, KindNames(r), Trio(r), r,
             SignedNames(e), e, SignedNames(k), k);
  }

  lemma JoinFive(ka: seq<string>, ta: seq<string>, a: string, kd: seq<string>, td: seq<string>, d: string,
                 kr: seq<string>, tr: seq<string>, r: string, se: seq<string>, e: string, sk: seq<string>, k: string)
    requires Covers(ka, ta, [a]) && Covers(kd, td, [d]) && Covers(kr, tr, [r]) && Covers(se, [e], []) && Covers(sk, [k], [])
    ensures Covers(ka + kd + kr + se + sk, ta + td + tr + [e, k], [a, d, r])
  {
    CoversConcat(ka, ta, [a], kd, td, [d]);
    CoversConcat(ka + kd, ta + td, [a] + [d], kr, tr, [r]);
    CoversConcat(ka + kd + kr, ta + td + tr, [a] + [d] + [r], se, [e], []);
    CoversConcat(ka + kd + kr + se, ta + td + tr + [e], [a] + [d] + [r] + [], sk, [k], []);
    assert ta + td + tr + [e] + [k] == ta + td + tr + [e, k];
    assert [a] + [d] + [r] + [] + [] == [a, d, r];
  }

  lemma DarwinPartition(a: string, p: string, n: string, e: string)
    ensures Covers(KindNames(a) + KindNames(p) + SignedNames(n) + SignedNames(e),
                   Trio(a) + [n] + Trio(p) + [e], [a, p])
  {
    CoversFile(a);
    CoversFile(p);
    CoversSigned(n);
    CoversSigned(e);
    JoinFour(KindNames(a), Trio(a), a, KindNames(p), Trio(p), p, SignedNames(n), n, SignedNames(e), e);
  }

  lemma JoinFour(ka: seq<string>, ta: seq<string>, a: string, kp: seq<string>, tp: seq<string>, p: string,
                 sn: seq<string>, n: string, se: seq<string>, e: string)
    requires Covers(ka, ta, [a]) && Covers(kp, tp, [p]) && Covers(sn, [n], []) && Covers(se, [e], [])
    ensures Covers(ka + kp + sn + se, ta + [n] + tp + [e], [a, p])
  {
    CoversConcat(ka, ta, [a], sn, [n], []);
    CoversConcat(ka + sn, ta + [n], [a] + [], kp, tp, [p]);
    CoversConcat(ka + sn + kp, ta + [n] + tp, [a] + [] + [p], se, [e], []);
    assert [a] + [] + [p] + [] == [a, p];
    assert multiset(ka + sn + kp + se) == multiset(ka + kp + sn + se);
  }

  lemma {:induction false} MatrixPartition(version: string, matrix: seq<Target>)
    ensures Covers(FlatMap(AssetsOf(version), matrix), FlatMap(ContentAt(version), matrix),
                   FlatMap(AttestedAt(version), matrix))
  {
    if matrix != [] {
      MatrixPartition(version, matrix[1..]);
      AssetPartition(version, matrix[0]);
      CoversConcat(TargetAssets(version, matrix[0]), ContentOf(version, matrix[0]), AttestedOf(version, matrix[0]),
                   FlatMap(AssetsOf(version), matrix[1..]), FlatMap(ContentAt(version), matrix[1..]),
                   FlatMap(AttestedAt(version), matrix[1..]));
    }
  }
}
