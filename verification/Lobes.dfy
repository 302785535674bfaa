/** Lobe membership and capability hot reload: the instance rule
    (crates/core/src/lobe.rs), the registry (crates/node/src/registry.rs), the live
    cells of the node (crates/node/src/node.rs) and the settings route that drives
    them (crates/server/src/settings.rs). */
module Lobes {
  import opened Access
  import opened Options
  import opened Text

  type LobeId = string

  const MAX_LOBES_PER_INSTANCE: nat := 5
  const LOBE_ID_MIN_LEN: nat := 2
  const LOBE_ID_MAX_LEN: nat := 64

  /** A capability's declaration; `about` stands for the fields no rule reads. */
  datatype Decl = Decl(name: string, mode: AccessMode, lobes: seq<LobeId>, about: string)

  datatype Entry = Entry(decl: Decl, binding: Option<string>)

  type Registry = map<string, Entry>

  // ------------------------------------------------------------------ lobe ids

  predicate IsLowerAlnum(c: char) { 'a' <= c <= 'z' || '0' <= c <= '9' }

  /** `validate_lobe_id`. */
  predicate IsLobeId(id: LobeId) {
    && LOBE_ID_MIN_LEN <= |id| <= LOBE_ID_MAX_LEN
    && (forall i | 0 <= i < |id| :: IsLowerAlnum(id[i]) || id[i] == '-' || id[i] == '.')
    && IsLowerAlnum(id[0]) && IsLowerAlnum(id[|id| - 1])
  }

  predicate ValidSet(ids: seq<LobeId>) {
    && |ids| <= MAX_LOBES_PER_INSTANCE
    && (forall i | 0 <= i < |ids| :: IsLobeId(ids[i]))
    && (forall i, j | 0 <= i < j < |ids| :: ids[i] != ids[j])
  }

  method ValidateInstanceLobes(ids: seq<LobeId>) returns (ok: bool)
    ensures ok <==> ValidSet(ids)
  {
    if |ids| > MAX_LOBES_PER_INSTANCE { return false; }
    for i := 0 to |ids|
      invariant forall k | 0 <= k < i :: IsLobeId(ids[k])
      invariant forall j, k | 0 <= j < k < i :: ids[j] != ids[k]
    {
      if !IsLobeId(ids[i]) { return false; }
      if ids[i] in ids[..i] { return false; }
    }
    return true;
  }

  /** `unclaimable_lobes`, and its complement: what `retain` leaves. */
  function Unclaimable(lobes: seq<LobeId>, instance: seq<LobeId>): seq<LobeId> {
    if lobes == [] then []
    else
      Unclaimable(lobes[..|lobes| - 1], instance)
      + if lobes[|lobes| - 1] in instance then [] else [lobes[|lobes| - 1]]
  }

  function Claimable(lobes: seq<LobeId>, instance: seq<LobeId>): seq<LobeId> {
    if lobes == [] then []
    else Claimable(lobes[..|lobes| - 1], instance) + if lobes[|lobes| - 1] in instance then [lobes[|lobes| - 1]] else []
  }

  /** The filter keeps exactly the declared lobes, and drops the others. */
  lemma {:induction false} FilterIs(lobes: seq<LobeId>, instance: seq<LobeId>)
    ensures forall l :: l in Claimable(lobes, instance) <==> l in lobes && l in instance
    ensures forall l :: l in Unclaimable(lobes, instance) <==> l in lobes && l !in instance
    ensures Unclaimable(lobes, instance) == [] ==> Claimable(lobes, instance) == lobes
  {
    if lobes != [] {
      var n := |lobes| - 1;
      FilterIs(lobes[..n], instance);
      assert lobes == lobes[..n] + [lobes[n]];
    }
  }

  /** Nothing is doubled or lost between the two. */
  lemma {:induction false} FilterPartitions(lobes: seq<LobeId>, instance: seq<LobeId>)
    ensures multiset(Claimable(lobes, instance)) + multiset(Unclaimable(lobes, instance)) == multiset(lobes)
  {
    if lobes != [] {
      var n := |lobes| - 1;
      FilterPartitions(lobes[..n], instance);
      OneSide(lobes[..n], lobes[n], instance);
      assert lobes == lobes[..n] + [lobes[n]];
    }
  }

  /** One more lobe goes to one side or the other. */
  lemma OneSide(lobes: seq<LobeId>, l: LobeId, instance: seq<LobeId>)
    ensures Claimable(lobes + [l], instance) == Claimable(lobes, instance) + if l in instance then [l] else []
    ensures Unclaimable(lobes + [l], instance) == Unclaimable(lobes, instance) + if l in instance then [] else [l]
    ensures multiset(Claimable(lobes + [l], instance)) + multiset(Unclaimable(lobes + [l], instance))
         == multiset(Claimable(lobes, instance)) + multiset(Unclaimable(lobes, instance)) + multiset{l}
  {
    assert (lobes + [l])[..|lobes|] == lobes;
  }

  /** Filtering twice keeps what both sets declare. */
  lemma {:induction false} FilterTwice(lobes: seq<LobeId>, a: seq<LobeId>, b: seq<LobeId>)
    ensures Claimable(Claimable(lobes, a), b) == Claimable(lobes, Claimable(a, b))
  {
    if lobes != [] {
      var n := |lobes| - 1;
      var both := Claimable(a, b);
      FilterTwice(lobes[..n], a, b);
      assert lobes[n] in both <==> lobes[n] in a && lobes[n] in b by { FilterIs(a, b); }
      var front := Claimable(lobes[..n], a);
      ClaimableSnoc(front, lobes[n], b);
      assert Claimable(lobes, a) == if lobes[n] in a then front + [lobes[n]] else front;
      assert Claimable(lobes, both) == Claimable(lobes[..n], both) + if lobes[n] in both then [lobes[n]] else [];
    }
  }

  lemma ClaimableSnoc(lobes: seq<LobeId>, l: LobeId, instance: seq<LobeId>)
    ensures Claimable(lobes + [l], instance) == Claimable(lobes, instance) + if l in instance then [l] else []
  {
    assert (lobes + [l])[..|lobes|] == lobes;
  }

  // ------------------------------------------------------------------ registry

  function Restricted_(e: Entry, instance: seq<LobeId>): Entry {
    e.(decl := e.decl.(lobes := Claimable(e.decl.lobes, instance)))
  }

  /** Every declaration cut down to the instance's lobes. */
  function Enforced(r: Registry, instance: seq<LobeId>): Registry {
    map n | n in r :: Restricted_(r[n], instance)
  }

  /** What each capability lost. */
  function Dropped(r: Registry, instance: seq<LobeId>): map<string, seq<LobeId>> {
    map n | n in r && Unclaimable(r[n].decl.lobes, instance) != [] :: Unclaimable(r[n].decl.lobes, instance)
  }

  /** `from_entries`: the last declaration of a name wins. */
  function FromEntries(es: seq<Entry>): Registry {
    if es == [] then map[] else FromEntries(es[..|es| - 1])[es[|es| - 1].decl.name := es[|es| - 1]]
  }

  predicate IsLast(es: seq<Entry>, i: nat) {
    i < |es| && forall j | i < j < |es| :: es[j].decl.name != es[i].decl.name
  }

  lemma {:induction false} LastWins(es: seq<Entry>, i: nat)
    requires IsLast(es, i)
    ensures es[i].decl.name in FromEntries(es) && FromEntries(es)[es[i].decl.name] == es[i]
  {
    if i < |es| - 1 {
      assert es[|es| - 1].decl.name != es[i].decl.name;
      LastWins(es[..|es| - 1], i);
    }
  }

  lemma {:induction false} OnlyEntries(es: seq<Entry>, n: string) returns (i: nat)
    requires n in FromEntries(es)
    ensures IsLast(es, i) && es[i].decl.name == n
  {
    if es[|es| - 1].decl.name == n { return |es| - 1; }
    i := OnlyEntries(es[..|es| - 1], n);
  }

  /** One line of the report: a capability and the lobes it lost. */
  datatype Loss = Loss(name: string, lobes: seq<LobeId>)

  predicate Sorted(r: seq<Loss>) {
    forall i, j | 0 <= i < j < |r| :: LexLess(r[i].name, r[j].name)
  }

  /** The losses of `dropped`, each once, by name. */
  ghost predicate IsReport(r: seq<Loss>, dropped: map<string, seq<LobeId>>) {
    Sorted(r) && forall x: Loss :: x in r <==> x.name in dropped && dropped[x.name] == x.lobes
  }

  function Insert(r: seq<Loss>, x: Loss): (r': seq<Loss>)
    ensures forall y :: y in r' <==> y in r || y == x
  {
    if r == [] || LexLess(x.name, r[0].name) then [x] + r
    else
      assert r == [r[0]] + r[1..];
      [r[0]] + Insert(r[1..], x)
  }

  lemma {:induction false} InsertSorts(r: seq<Loss>, x: Loss)
    requires Sorted(r) && forall i | 0 <= i < |r| :: r[i].name != x.name
    ensures Sorted(Insert(r, x))
  {
    if r != [] {
      LexTotal(x.name, r[0].name);
      if LexLess(x.name, r[0].name) {
        forall i | 0 < i < |r| ensures LexLess(x.name, r[i].name) { LexTransitive(x.name, r[0].name, r[i].name); }
      } else {
        InsertSorts(r[1..], x);
        var rest := Insert(r[1..], x);
        forall i | 0 <= i < |rest| ensures LexLess(r[0].name, rest[i].name) {
          assert rest[i] in rest;
          if rest[i] != x {
            var j :| 0 <= j < |r[1..]| && r[1..][j] == rest[i];
            assert r[j + 1] == rest[i];
          }
        }
      }
    }
  }

  /** `dropped_per_cap.sort()`. */
  method Sort(dropped: map<string, seq<LobeId>>) returns (r: seq<Loss>)
    ensures IsReport(r, dropped)
  {
    r := [];
    var todo := dropped.Keys;
    while todo != {}
      invariant todo <= dropped.Keys
      invariant Sorted(r)
      invariant forall x: Loss :: x in r <==> x.name in dropped && x.name !in todo && dropped[x.name] == x.lobes
      decreases todo
    {
      var n :| n in todo;
      todo := todo - {n};
      forall i | 0 <= i < |r| ensures r[i].name != n { assert r[i] in r; }
      InsertSorts(r, Loss(n, dropped[n]));
      r := Insert(r, Loss(n, dropped[n]));
    }
  }

  class CapabilityRegistry {
    var byName: Registry

    constructor (es: seq<Entry>)
      ensures byName == FromEntries(es)
    {
      byName := map[];
      new;
      for i := 0 to |es|
        invariant byName == FromEntries(es[..i])
      {
        assert es[..i + 1][..i] == es[..i];
        byName := byName[es[i].decl.name := es[i]];
      }
      assert es[..|es|] == es;
    }

    /** Drops stray lobes in place; a capability that loses one is kept, and
        reported under its name, in order of names. */
    method EnforceInstanceLobes(instance: seq<LobeId>) returns (report: seq<Loss>)
      modifies this
      ensures byName == Enforced(old(byName), instance)
      ensures IsReport(report, Dropped(old(byName), instance))
    {
      var dropped := Strip(instance);
      report := Sort(dropped);
    }

    /** The loop over the entries. */
    method Strip(instance: seq<LobeId>) returns (dropped: map<string, seq<LobeId>>)
      modifies this
      ensures byName == Enforced(old(byName), instance)
      ensures dropped == Dropped(old(byName), instance)
    {
      dropped := map[];
      ghost var was := byName;
      var todo := byName.Keys;
      while todo != {}
        invariant todo <= was.Keys && byName.Keys == was.Keys
        invariant forall n | n in todo :: byName[n] == was[n]
        invariant forall n | n in was && n !in todo :: byName[n] == Restricted_(was[n], instance)
        invariant forall n :: n in dropped <==> n in was && n !in todo && Unclaimable(was[n].decl.lobes, instance) != []
        invariant forall n | n in dropped :: dropped[n] == Unclaimable(was[n].decl.lobes, instance)
        decreases todo
      {
        var n :| n in todo;
        todo := todo - {n};
        var e := byName[n];
        var lost := Unclaimable(e.decl.lobes, instance);
        FilterIs(e.decl.lobes, instance);
        if lost == [] { continue; }
        byName := byName[n := e.(decl := e.decl.(lobes := Claimable(e.decl.lobes, instance)))];
        dropped := dropped[n := lost];
      }
    }

    /** What `describe_self` publishes. */
    function PublicDecls(): (ds: set<Decl>)
      reads this
      ensures forall n | n in byName :: byName[n].decl in ds <==> byName[n].decl.mode != Private
      ensures forall d | d in ds :: exists n | n in byName :: byName[n].decl == d
    {
      set n | n in byName && byName[n].decl.mode != Private :: byName[n].decl
    }
  }

  // ---------------------------------------------------------------------- node

  /** One file of the caps directory, as loaded, resolved and bound. */
  datatype CapFile =
    | Malformed
    | UnknownBackend(decl: Decl)
    | BindingFailed(decl: Decl)
    | Loaded(decl: Decl, binding: string)

  function Entries(files: seq<CapFile>): seq<Entry> {
    if files == [] then []
    else
      var f := files[|files| - 1];
      Entries(files[..|files| - 1]) + if f.Loaded? then [Entry(f.decl, Some(f.binding))] else []
  }

  datatype Reloaded = NotManifestMode | NoneLoadable | Unchanged | Count(n: nat)

  /** The registry and the live lobe set. */
  datatype Cells = Cells(registry: Registry, lobes: seq<LobeId>)

  /** `reload_caps_from_manifest_dir`; `None` stands for a node without manifests. */
  function ReloadResult(files: Option<seq<CapFile>>): Reloaded {
    if files.None? then NotManifestMode
    else if Entries(files.value) == [] then (if files.value == [] then Unchanged else NoneLoadable)
    else Count(|FromEntries(Entries(files.value))|)
  }

  function AfterReload(c: Cells, files: Option<seq<CapFile>>): Cells {
    if ReloadResult(files).Count? then c.(registry := Enforced(FromEntries(Entries(files.value)), c.lobes)) else c
  }

  class Node {
    var registry: CapabilityRegistry
    var lobes: seq<LobeId>

    ghost function State(): Cells
      reads this, registry
    {
      Cells(registry.byName, lobes)
    }

    constructor (declared: CapabilityRegistry, configured: seq<LobeId>)
      modifies declared
      ensures State() == Cells(Enforced(old(declared.byName), configured), configured)
      ensures registry == declared
    {
      registry := declared;
      lobes := configured;
      new;
      var _ := declared.EnforceInstanceLobes(configured);
    }

    /** The live set is stored first, then a copy of the registry is cut and swapped in. */
    method SetLobes(ids: seq<LobeId>)
      modifies this
      ensures State() == Cells(Enforced(old(registry.byName), ids), ids)
      ensures fresh(registry)
    {
      lobes := ids;
      var copy := new CapabilityRegistry([]);
      copy.byName := registry.byName;
      var _ := copy.EnforceInstanceLobes(ids);
      registry := copy;
    }

    method ReloadCaps(files: Option<seq<CapFile>>) returns (r: Reloaded)
      modifies this
      ensures r == ReloadResult(files) && State() == AfterReload(old(State()), files)
    {
      if files.None? { return NotManifestMode; }
      var entries: seq<Entry> := [];
      for i := 0 to |files.value|
        invariant entries == Entries(files.value[..i])
      {
        assert files.value[..i + 1][..i] == files.value[..i];
        var f := files.value[i];
        if !f.Loaded? { continue; }
        entries := entries + [Entry(f.decl, Some(f.binding))];
      }
      assert files.value[..|files.value|] == files.value;
      if entries == [] {
        return if files.value == [] then Unchanged else NoneLoadable;
      }
      var fresh_ := new CapabilityRegistry(entries);
      var _ := fresh_.EnforceInstanceLobes(lobes);
      registry := fresh_;
      assert registry.byName.Keys == FromEntries(Entries(files.value)).Keys;
      SameSize(registry.byName, FromEntries(Entries(files.value)));
      return Count(|registry.byName|);
    }

    /** The settings route: trim, validate, write the instance file (`saved` says
        whether that worked), swap the set, re-read the manifests. */
    method PutLobes(requested: seq<string>, saved: bool, files: Option<seq<CapFile>>) returns (r: Answer)
      modifies this
      ensures r.BadRequest? <==> !ValidSet(Tidied(requested))
      ensures r.SaveFailed? <==> ValidSet(Tidied(requested)) && !saved
      ensures !r.Done? ==> State() == old(State())
      ensures r.Done? ==>
        && State() == AfterReload(Cells(Enforced(old(registry.byName), Tidied(requested)), Tidied(requested)), files)
        && r == Done(Tidied(requested), ReloadResult(files))
    {
      var ids: seq<LobeId> := Tidied(requested);
      var ok := ValidateInstanceLobes(ids);
      if !ok { return BadRequest; }
      if !saved { return SaveFailed; }
      SetLobes(ids);
      var outcome := ReloadCaps(files);
      return Done(lobes, outcome);
    }
  }

  datatype Answer = BadRequest | SaveFailed | Done(lobes: seq<LobeId>, reloaded: Reloaded)

  /** Ids trimmed, blanks left out. */
  function Tidied(ids: seq<string>): seq<LobeId> {
    if ids == [] then []
    else Tidied(ids[..|ids| - 1]) + if Trim(ids[|ids| - 1]) == "" then [] else [Trim(ids[|ids| - 1])]
  }

  /** The requested ids trimmed, in order, the blank ones left out. */
  lemma {:induction false} TidiedIs(ids: seq<string>)
    ensures forall l :: l in Tidied(ids) <==> l != "" && exists x | x in ids :: Trim(x) == l
  {
    if ids != [] {
      var n := |ids| - 1;
      TidiedIs(ids[..n]);
      assert ids == ids[..n] + [ids[n]];
    }
  }

  lemma {:induction false} TidyStays(ids: seq<string>)
    requires forall i | 0 <= i < |ids| :: ids[i] != "" && Trim(ids[i]) == ids[i]
    ensures Tidied(ids) == ids
  {
    hide Trim;
    if ids != [] {
      TidyStays(ids[..|ids| - 1]);
    }
  }

  lemma TidiedConcat(ids: seq<string>, x: string)
    ensures Tidied(ids + [x]) == Tidied(ids) + if Trim(x) == "" then [] else [Trim(x)]
  {
    assert (ids + [x])[..|ids|] == ids;
  }

  lemma SameSize(a: Registry, b: Registry)
    requires a.Keys == b.Keys
    ensures |a| == |b|
  {
    assert |a.Keys| == |a| && |b.Keys| == |b|;
  }

  // ---------------------------------------------------------------------- runs

  datatype Event = SetTo(ids: seq<LobeId>) | Reload(files: Option<seq<CapFile>>)

  function Apply(c: Cells, e: Event): Cells {
    match e
    case SetTo(ids) => Cells(Enforced(c.registry, ids), ids)
    case Reload(files) => AfterReload(c, files)
  }

  function Run(declared: Registry, configured: seq<LobeId>, es: seq<Event>): Cells {
    if es == [] then Cells(Enforced(declared, configured), configured)
    else Apply(Run(declared, configured, es[..|es| - 1]), es[|es| - 1])
  }

  /** The subset rule: no capability claims a lobe its instance is not in. */
  predicate Obeys(c: Cells) {
    forall n | n in c.registry :: forall l | l in c.registry[n].decl.lobes :: l in c.lobes
  }

  lemma EnforcedObeys(r: Registry, lobes: seq<LobeId>)
    ensures Obeys(Cells(Enforced(r, lobes), lobes))
  {
    forall n | n in r ensures forall l | l in Claimable(r[n].decl.lobes, lobes) :: l in lobes {
      FilterIs(r[n].decl.lobes, lobes);
    }
  }

  /** Construction, lobe changes and reloads keep the rule, in any order. */
  lemma {:induction false} RuleHolds(declared: Registry, configured: seq<LobeId>, es: seq<Event>)
    ensures Obeys(Run(declared, configured, es))
  {
    EnforcedObeys(declared, configured);
    if es != [] {
      var c := Run(declared, configured, es[..|es| - 1]);
      RuleHolds(declared, configured, es[..|es| - 1]);
      match es[|es| - 1]
      case SetTo(ids) => EnforcedObeys(c.registry, ids);
      case Reload(files) =>
        if ReloadResult(files).Count? { EnforcedObeys(FromEntries(Entries(files.value)), c.lobes); }
    }
  }

  /** Cutting a registry touches nothing but the lobes. */
  lemma CutOnlyLobes(r: Registry, instance: seq<LobeId>, n: string)
    ensures n in Enforced(r, instance) <==> n in r
    ensures n in r ==>
      && Enforced(r, instance)[n].binding == r[n].binding
      && (Enforced(r, instance)[n].decl.name, Enforced(r, instance)[n].decl.mode, Enforced(r, instance)[n].decl.about)
         == (r[n].decl.name, r[n].decl.mode, r[n].decl.about)
      && forall l :: l in Enforced(r, instance)[n].decl.lobes <==> l in r[n].decl.lobes && l in instance
  {
    if n in r { FilterIs(r[n].decl.lobes, instance); }
  }

  /** File `i` is the last that loads a capability of its name. */
  predicate LastFile(files: seq<CapFile>, i: nat) {
    && i < |files| && files[i].Loaded?
    && forall j | i < j < |files| && files[j].Loaded? :: files[j].decl.name != files[i].decl.name
  }

  /** What a reload registers: for each name the last file that loads it, under
      its own binding. */
  lemma {:induction false} LastFileWins(files: seq<CapFile>, i: nat)
    requires LastFile(files, i)
    ensures files[i].decl.name in FromEntries(Entries(files))
    ensures FromEntries(Entries(files))[files[i].decl.name] == Entry(files[i].decl, Some(files[i].binding))
  {
    var n := |files| - 1;
    LoadSnoc(files[..n], files[n]);
    assert files == files[..n] + [files[n]];
    if i < n { LastFileWins(files[..n], i); }
  }

  lemma LoadSnoc(files: seq<CapFile>, f: CapFile)
    ensures FromEntries(Entries(files + [f]))
         == if f.Loaded? then FromEntries(Entries(files))[f.decl.name := Entry(f.decl, Some(f.binding))]
            else FromEntries(Entries(files))
  {
    assert (files + [f])[..|files|] == files;
    if f.Loaded? {
      var es, e := Entries(files), Entry(f.decl, Some(f.binding));
      assert Entries(files + [f]) == es + [e];
      assert (es + [e])[..|es|] == es && (es + [e])[|es|] == e;
    } else {
      assert Entries(files + [f]) == Entries(files);
    }
  }

  lemma {:induction false} OnlyLoadedFiles(files: seq<CapFile>, n: string) returns (i: nat)
    requires n in FromEntries(Entries(files))
    ensures LastFile(files, i) && files[i].decl.name == n
  {
    var last := |files| - 1;
    if files != [] {
      LoadSnoc(files[..last], files[last]);
      assert files == files[..last] + [files[last]];
      if files[last].Loaded? && files[last].decl.name == n { return last; }
      i := OnlyLoadedFiles(files[..last], n);
    }
  }

  /** How a reload ends, by what the directory holds: an error outside manifest
      mode or when there are files and none loads, no change when there are none,
      otherwise the number of names loaded. */
  lemma ReloadOutcomes(files: Option<seq<CapFile>>)
    ensures ReloadResult(files) == NotManifestMode <==> files.None?
    ensures ReloadResult(files) == Unchanged <==> files == Some([])
    ensures ReloadResult(files) == NoneLoadable <==>
      files.Some? && files.value != [] && forall f | f in files.value :: !f.Loaded?
    ensures ReloadResult(files).Count? <==> files.Some? && exists f :: f in files.value && f.Loaded?
    ensures ReloadResult(files).Count? ==> ReloadResult(files).n == |NamesLoaded(files.value)| > 0
  {
    if files.Some? {
      NothingLoaded(files.value);
      NamesAre(files.value);
      assert |FromEntries(Entries(files.value))| == |FromEntries(Entries(files.value)).Keys|;
      if exists f :: f in files.value && f.Loaded? {
        var f :| f in files.value && f.Loaded?;
        assert f.decl.name in NamesLoaded(files.value);
      }
    }
  }

  function NamesLoaded(files: seq<CapFile>): set<string> {
    set f | f in files && f.Loaded? :: f.decl.name
  }

  lemma {:induction false} NothingLoaded(files: seq<CapFile>)
    ensures Entries(files) == [] <==> forall f | f in files :: !f.Loaded?
  {
    if files != [] {
      NothingLoaded(files[..|files| - 1]);
      assert files == files[..|files| - 1] + [files[|files| - 1]];
    }
  }

  lemma {:induction false} NamesAre(files: seq<CapFile>)
    ensures FromEntries(Entries(files)).Keys == NamesLoaded(files)
  {
    if files != [] {
      hide FromEntries, Entries, NamesLoaded;
      var last := |files| - 1;
      assert files == files[..last] + [files[last]];
      NamesAre(files[..last]);
      LoadSnoc(files[..last], files[last]);
      NamesSnoc(files[..last], files[last]);
    }
  }

  lemma NamesSnoc(files: seq<CapFile>, f: CapFile)
    ensures NamesLoaded(files + [f]) == NamesLoaded(files) + if f.Loaded? then {f.decl.name} else {}
  {
  }

  // ---- what the registry holds, as a function of the run

  /** The declarations last loaded: the constructor's, or those of the last
      reload that loaded any. */
  function Base(declared: Registry, es: seq<Event>): Registry {
    if es == [] then declared
    else
      var e := es[|es| - 1];
      if e.Reload? && ReloadResult(e.files).Count? then FromEntries(Entries(e.files.value))
      else Base(declared, es[..|es| - 1])
  }

  /** The lobes every set in force since then has had in common. */
  function Common(configured: seq<LobeId>, es: seq<Event>): seq<LobeId> {
    if es == [] then configured
    else
      var e := es[|es| - 1];
      match e
      case SetTo(ids) => Claimable(Common(configured, es[..|es| - 1]), ids)
      case Reload(files) =>
        if ReloadResult(files).Count? then Current(configured, es[..|es| - 1]) else Common(configured, es[..|es| - 1])
  }

  /** The set last declared. */
  function Current(configured: seq<LobeId>, es: seq<Event>): seq<LobeId> {
    if es == [] then configured
    else if es[|es| - 1].SetTo? then es[|es| - 1].ids
    else Current(configured, es[..|es| - 1])
  }

  lemma EnforcedTwice(r: Registry, a: seq<LobeId>, b: seq<LobeId>)
    ensures Enforced(Enforced(r, a), b) == Enforced(r, Claimable(a, b))
  {
    forall n | n in r
      ensures Claimable(Claimable(r[n].decl.lobes, a), b) == Claimable(r[n].decl.lobes, Claimable(a, b))
    {
      FilterTwice(r[n].decl.lobes, a, b);
    }
  }

  /** After any run each capability claims exactly the lobes of its last loaded
      declaration that have been declared ever since: leaving a lobe strips it
      until a reload, joining alone restores nothing. */
  lemma {:induction false} RegistryIs(declared: Registry, configured: seq<LobeId>, es: seq<Event>)
    ensures Run(declared, configured, es)
      == Cells(Enforced(Base(declared, es), Common(configured, es)), Current(configured, es))
  {
    if es != [] {
      var front, e := es[..|es| - 1], es[|es| - 1];
      RegistryIs(declared, configured, front);
      if e.SetTo? { EnforcedTwice(Base(declared, front), Common(configured, front), e.ids); }
    }
  }

  /** After a lobe change and a reload that loads capabilities the registry is
      the manifests' declarations cut to the current set, whatever came before. */
  lemma ReloadForgetsHistory(
    declared: Registry, configured: seq<LobeId>, es: seq<Event>, ids: seq<LobeId>, files: seq<CapFile>)
    requires Entries(files) != []
    ensures Run(declared, configured, es + [SetTo(ids), Reload(Some(files))])
      == Cells(Enforced(FromEntries(Entries(files)), ids), ids)
  {
    var a, b := es + [SetTo(ids)], es + [SetTo(ids), Reload(Some(files))];
    assert b[..|b| - 1] == a && a[..|a| - 1] == es;
    RegistryIs(declared, configured, b);
  }
}
