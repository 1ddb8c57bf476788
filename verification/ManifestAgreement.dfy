/** Builder and gate agree: what is built is admitted, and what is admitted can be built again. */
module ManifestAgreement {
  import opened Sequences
  import opened Sorting
  import opened Text
  import opened StagedPaths
  import opened RootPolicy
  import opened RootAdapters
  import opened ReleaseRoots
  import opened RootTargets
  import opened ManifestBuilder
  import SplitDelivery

  // ----- Staged content of derived records -----

  lemma SinglePart(s: SplitDelivery.Staged, p: SplitDelivery.Part)
    requires p.index == 1 && p.count == 1 && |s.file(p.path)| == p.size && s.sha256(s.file(p.path)) == p.sha256
    ensures var whole := SplitDelivery.Package(p.sha256, p.size, SplitDelivery.Delivery(false, [p]));
      SplitDelivery.GateShape(whole) && SplitDelivery.Delivered(s, whole)
  {
    assert [p][1..] == [];
    assert FlatMap(SplitDelivery.Contents(s), [p]) == s.file(p.path) + [];
    assert SplitDelivery.Joined(s, [p]) == s.file(p.path);
  }

  lemma PlacedShape(ev: Evidence, rootId: string, p: SplitDelivery.Package)
    requires SplitDelivery.RootAdmits(p)
    ensures SplitDelivery.GateShape(Placed(ev, rootId, p))
  {
  }

  lemma ConnectorContent(rootId: string, id: string, format: string, p: ConnectorPackage, ev: Evidence, name: string)
    requires var d := DeriveConnector(rootId, id, format, p, ev); d.Derived? && Normalized(name, d.target).Some?
    ensures ContentHolds(ev, Normalized(name, DeriveConnector(rootId, id, format, p, ev).target).value)
  {
    hide SplitDelivery.Delivered, SplitDelivery.GateShape;
    var r := Normalized(name, DeriveConnector(rootId, id, format, p, ev).target).value;
    SinglePart(ev.staged, r.content.delivery.parts[0]);
  }

  lemma ServedContent(rootId: string, targetId: string, p: ServerPackage, ev: Evidence, name: string)
    requires SplitDelivery.RootAdmits(p.content)
    requires var d := DeriveServed(rootId, targetId, p, ev); d.Derived? && Normalized(name, d.target).Some?
    ensures ContentHolds(ev, Normalized(name, DeriveServed(rootId, targetId, p, ev).target).value)
  {
    hide SplitDelivery.Delivered, SplitDelivery.GateShape, SplitDelivery.RootAdmits;
    PlacedShape(ev, rootId, p.content);
    var r := Normalized(name, DeriveServed(rootId, targetId, p, ev).target).value;
    assert r.content == Placed(ev, rootId, p.content);
  }

  /** A record derived from a complete adapter names files that the gate finds as recorded. */
  lemma DerivedContent(adapters: map<string, Adapter>, rootId: string, selector: Selector, ev: Evidence, name: string)
    requires rootId in adapters && Complete(adapters[rootId])
    requires var d := Derive(adapters, rootId, selector, ev); d.Derived? && Normalized(name, d.target).Some?
    ensures ContentHolds(ev, Normalized(name, Derive(adapters, rootId, selector, ev).target).value)
  {
    hide DeriveConnector, DeriveServed, ControlTarget, ServerTarget, SplitDelivery.RootAdmits, CONNECTOR_IDS, FORMATS, COMPONENTS, MODES;
    match (adapters[rootId], selector) {
      case (ConnectorAdapter(_, _, _, released), Released(id, format)) => ConnectorContent(rootId, id, format, released[(id, format)], ev, name);
      case (ServerAdapter(_, _, _, _, served), Mode(m)) => ServedContent(rootId, ServerTarget(m).value, served[m], ev, name);
      case _ =>
    }
  }

  lemma ExpectedContent(ctx: Context, source: Source, req: Requirements, roots: Roots, name: string)
    requires Expected(ctx, source, req, roots, name).Some? && Grounded(req, roots, {name})
    ensures var r := Expected(ctx, source, req, roots, name).value.record; NameOf(r) == name && ContentHolds(ctx.ev, r)
  {
    hide Derive, Complete, SubjectOf, FindRoot, ContentHolds;
    if name != SOURCE {
      var m := req.mappings[name];
      NeedsAdapter(roots.adapters, m, ctx.ev);
      DerivedContent(roots.adapters, m.root, m.selector, ctx.ev, name);
    } else {
      SourceContent(ctx, source);
    }
  }

  lemma NeedsAdapter(adapters: map<string, Adapter>, m: Mapping, ev: Evidence)
    requires Derive(adapters, m.root, m.selector, ev).Derived?
    ensures m.root in adapters
  {
  }

  lemma SourceContent(ctx: Context, source: Source)
    ensures ContentHolds(ctx.ev, FromSource(ctx, source).record)
  {
  }

  // ----- From a built entry to an admitted one -----

  /** The gate finds, at the recorded path, the receipt the builder found at the given one. */
  lemma ReceiptAgain(ctx: Context, input: Input, x: Expectation, scanner: Scanner)
    requires EntryFrom(ctx, input, x).Some? && ScannerOf(ctx.scans, EntryFrom(ctx, input, x).value) == Some(scanner)
    ensures ReceiptHolds(ctx, scanner, EntryFrom(ctx, input, x).value, x)
  {
    hide Clean;
    CleanAgain(input.executionPath);
  }

  lemma EntryAdmitted(ctx: Context, source: Source, req: Requirements, roots: Roots, input: Input, scanner: Scanner)
    requires EntryFor(ctx, source, req, roots, input).Some? && Grounded(req, roots, {input.name})
    requires ScannerOf(ctx.scans, EntryFor(ctx, source, req, roots, input).value) == Some(scanner)
    ensures var e := EntryFor(ctx, source, req, roots, input).value;
      EntryName(e) == input.name && EntryHolds(ctx, source, req, roots, scanner, e)
  {
    hide Expected, ContentHolds, ReceiptHolds, ScannerOf, Validated, Clean, Complete;
    ExpectedContent(ctx, source, req, roots, input.name);
    ReceiptAgain(ctx, input, Expected(ctx, source, req, roots, input.name).value, scanner);
  }

  lemma {:induction false} EntriesPointwise(ctx: Context, source: Source, req: Requirements, roots: Roots, inputs: seq<Input>, es: seq<Entry>)
    ensures Entries(ctx, source, req, roots, inputs) == Some(es) <==>
            |es| == |inputs| && forall i :: 0 <= i < |inputs| ==> EntryFor(ctx, source, req, roots, inputs[i]) == Some(es[i])
  {
    hide EntryFor;
    if inputs != [] {
      var init, last := inputs[..|inputs| - 1], inputs[|inputs| - 1];
      if es != [] {
        EntriesPointwise(ctx, source, req, roots, init, es[..|es| - 1]);
        assert es == es[..|es| - 1] + [es[|es| - 1]];
      }
    }
  }

  lemma BuiltEntries(ctx: Context, source: Source, req: Requirements, roots: Roots, inputs: seq<Input>, entries: seq<Entry>, scanner: Scanner)
    requires Entries(ctx, source, req, roots, inputs) == Some(entries) && OneScanner(ctx.scans, entries, scanner)
    requires Grounded(req, roots, Elems(Map(InputName, inputs)))
    ensures Map(EntryName, entries) == Map(InputName, inputs)
    ensures forall e :: e in entries ==> EntryHolds(ctx, source, req, roots, scanner, e)
  {
    hide Entries, EntryFor, EntryHolds, ScannerOf, Complete;
    EntriesPointwise(ctx, source, req, roots, inputs, entries);
    forall i | 0 <= i < |inputs| ensures EntryName(entries[i]) == inputs[i].name && EntryHolds(ctx, source, req, roots, scanner, entries[i]) {
      assert Map(InputName, inputs)[i] in Elems(Map(InputName, inputs)) && entries[i] in entries;
      EntryAdmitted(ctx, source, req, roots, inputs[i], scanner);
    }
  }

  lemma SortedTargets(entries: seq<Entry>)
    ensures multiset(Map(EntryName, Sort(ByName, entries))) == multiset(Map(EntryName, entries))
    ensures forall e :: e in Sort(ByName, entries) <==> e in entries
    ensures NoDup(Map(EntryName, Sort(ByName, entries))) <==> NoDup(Map(EntryName, entries))
    ensures Elems(Map(EntryName, Sort(ByName, entries))) == Elems(Map(EntryName, entries))
  {
    var sorted := Sort(ByName, entries);
    MapPermutation(EntryName, sorted, entries);
    NoDupPermutation(Map(EntryName, sorted), Map(EntryName, entries));
    assert forall e :: e in sorted <==> e in multiset(sorted);
    assert forall e :: e in entries <==> e in multiset(entries);
  }

  lemma ReloadGrounds(ctx: Context, profile: string, source: Source, ds: seq<Descriptor>)
    requires Grounds(ctx, profile, source, ds).Some?
    ensures var g := Grounds(ctx, profile, source, ds).value;
      Grounds(ctx, profile, source, Map(DescriptorOf, g.1.records)) == Some(g)
  {
    hide PolicyRequirements, LoadedRoots;
    ReloadSame(ctx.st, ds, PolicyRequirements(ctx.policy, profile, ctx.policy.profiles[profile]).value.roots, source);
  }

  /** Over unchanged evidence the gate admits every manifest a build writes: its roots are canonical,
      every target equals what its root derives, and every execution used the one scanner. */
  lemma BuiltIsAdmitted(ctx: Context, profile: string, source: Source, ds: seq<Descriptor>, inputs: seq<Input>)
    requires Built(ctx, profile, source, ds, inputs).Some?
    ensures GateAdmits(ctx, profile, source.commit, Built(ctx, profile, source, ds, inputs).value)
  {
    hide Grounds, Entries, OneScanner, ScannerOf, Grounded, EntryHolds, Sort;
    var m := Built(ctx, profile, source, ds, inputs).value;
    var g := Grounds(ctx, profile, source, ds).value;
    var entries := Entries(ctx, source, g.0, g.1, inputs).value;
    GroundsComplete(ctx, profile, source, ds);
    ReloadGrounds(ctx, profile, source, ds);
    BuiltEntries(ctx, source, g.0, g.1, inputs, entries, m.scanner);
    SortedTargets(entries);
  }

  // ----- From an admitted manifest back to a build -----

  function InputOf(e: Entry): Input { Input(EntryName(e), e.reportPath, e.executionPath) }

  /** An entry with its execution path as the builder writes it. */
  function Cleaned(e: Entry): Entry { e.(executionPath := Clean(e.executionPath)) }

  lemma EntryRebuilt(ctx: Context, source: Source, req: Requirements, roots: Roots, scanner: Scanner, e: Entry)
    requires EntryHolds(ctx, source, req, roots, scanner, e)
    ensures EntryFor(ctx, source, req, roots, InputOf(e)) == Some(Cleaned(e))
    ensures ScannerOf(ctx.scans, Cleaned(e)) == Some(scanner)
  {
    hide Expected, ContentHolds, Clean;
    CleanAgain(e.executionPath);
  }

  lemma EntriesRebuilt(ctx: Context, source: Source, req: Requirements, roots: Roots, scanner: Scanner, targets: seq<Entry>)
    requires forall e :: e in targets ==> EntryHolds(ctx, source, req, roots, scanner, e)
    ensures Entries(ctx, source, req, roots, Map(InputOf, targets)) == Some(Map(Cleaned, targets))
    ensures OneScanner(ctx.scans, Map(Cleaned, targets), scanner)
  {
    hide Entries, EntryFor, EntryHolds, ScannerOf, Cleaned;
    forall i | 0 <= i < |targets|
      ensures EntryFor(ctx, source, req, roots, InputOf(targets[i])) == Some(Cleaned(targets[i]))
      ensures ScannerOf(ctx.scans, Cleaned(targets[i])) == Some(scanner)
    {
      assert targets[i] in targets;
      EntryRebuilt(ctx, source, req, roots, scanner, targets[i]);
    }
    EntriesPointwise(ctx, source, req, roots, Map(InputOf, targets), Map(Cleaned, targets));
  }

  /** A profile has targets, so an admitted manifest does too. */
  lemma AdmittedHasTargets(ctx: Context, profile: string, commit: string, m: Manifest)
    requires GateAdmits(ctx, profile, commit, m)
    ensures m.targets != []
  {
    hide LoadedRoots, EntryHolds, FixedKinds, FixedMappings, RootKinds;
    var targets := ctx.policy.profiles[profile];
    assert ProfileAdmitted(ctx.policy, profile);
    assert targets[0] in Elems(targets);
    assert targets[0] in Map(EntryName, m.targets);
  }

  /** An admitted manifest holds nothing the evidence does not fix: building from the names, paths
      and descriptors in it gives the same manifest, with clean paths and targets in order. */
  lemma AdmittedIsRebuilt(ctx: Context, profile: string, commit: string, m: Manifest)
    requires GateAdmits(ctx, profile, commit, m)
    ensures Built(ctx, profile, m.source, Map(DescriptorOf, m.roots), Map(InputOf, m.targets))
      == Some(m.(targets := Sort(ByName, Map(Cleaned, m.targets))))
  {
    hide Grounds, Entries, ScannerOf, EntryHolds, Sort, Cleaned;
    var g := Grounds(ctx, profile, m.source, Map(DescriptorOf, m.roots)).value;
    AdmittedHasTargets(ctx, profile, commit, m);
    EntriesRebuilt(ctx, m.source, g.0, g.1, m.scanner, m.targets);
    assert Map(InputName, Map(InputOf, m.targets)) == Map(EntryName, m.targets);
    assert Map(Cleaned, m.targets)[0] in Map(Cleaned, m.targets);
  }

  lemma {:induction false} SortFixed(s: seq<Entry>)
    requires SortedBy(ByName, s)
    ensures Sort(ByName, s) == s
  {
    if s != [] {
      SortFixed(s[1..]);
      assert s == [s[0]] + s[1..];
      assert |s| > 1 ==> s[1..][0] == s[1] && ByName(s[0], s[1]);
    }
  }

  lemma NameOrder()
    ensures TotalPreorder(ByName)
  {
    hide StrLeq;
    StrOrder();
  }

  lemma BuiltClean(ctx: Context, source: Source, req: Requirements, roots: Roots, input: Input)
    requires EntryFor(ctx, source, req, roots, input).Some?
    ensures Cleaned(EntryFor(ctx, source, req, roots, input).value) == EntryFor(ctx, source, req, roots, input).value
  {
    hide Expected, Clean, Validated;
    CleanAgain(input.executionPath);
  }

  /** Building is a fixed point: rebuilding from a built manifest changes nothing. */
  lemma RebuildSame(ctx: Context, profile: string, source: Source, ds: seq<Descriptor>, inputs: seq<Input>)
    requires Built(ctx, profile, source, ds, inputs).Some?
    ensures var m := Built(ctx, profile, source, ds, inputs).value;
      Built(ctx, profile, source, Map(DescriptorOf, m.roots), Map(InputOf, m.targets)) == Some(m)
  {
    var m := Built(ctx, profile, source, ds, inputs).value;
    BuiltIsAdmitted(ctx, profile, source, ds, inputs);
    AdmittedIsRebuilt(ctx, profile, source.commit, m);
    TargetsInForm(ctx, profile, source, ds, inputs);
  }

  lemma TargetsInForm(ctx: Context, profile: string, source: Source, ds: seq<Descriptor>, inputs: seq<Input>)
    requires Built(ctx, profile, source, ds, inputs).Some?
    ensures var m := Built(ctx, profile, source, ds, inputs).value;
      m.source == source && m.profile == profile && Map(Cleaned, m.targets) == m.targets && Sort(ByName, m.targets) == m.targets
  {
    hide Grounds, Entries, OneScanner, ScannerOf, EntryFor, Cleaned, Sort, ByName;
    var m := Built(ctx, profile, source, ds, inputs).value;
    var g := Grounds(ctx, profile, source, ds).value;
    var entries := Entries(ctx, source, g.0, g.1, inputs).value;
    EntriesPointwise(ctx, source, g.0, g.1, inputs, entries);
    SortedTargets(entries);
    forall i | 0 <= i < |m.targets| ensures Cleaned(m.targets[i]) == m.targets[i] {
      assert m.targets[i] in m.targets;
      var k :| 0 <= k < |entries| && entries[k] == m.targets[i];
      BuiltClean(ctx, source, g.0, g.1, inputs[k]);
    }
    NameOrder();
    SortSorted(ByName, entries);
    SortFixed(m.targets);
  }
}
