/** The menu-entry identity tables of AllowTool.cs: a forward table from each
    context-menu entry to its ContextMenuEntryId, and a reverse table from
    each provider's handled designator type to its ordered entries. They are
    built lazily from DesignatorContextMenuController.menuProviders. */
module MenuLookup {
  import opened SyncTypes

  /** One ContextMenuProvider: its HandledDesignatorType and its `entries` array. */
  datatype Provider = Provider(handledType: TypeTag, entries: seq<Entry>)

  /** menuEntryLookup and menuEntryReverseLookup, as values. */
  datatype Tables = Tables(forward: map<Entry, EntryId>, reverse: map<TypeTag, seq<Entry>>)

  /** The tables as filled so far, and the exception that stopped the filling, if any. */
  datatype Build = Build(tables: Tables, failure: Option<Error>)

  const EmptyBuild := Build(Tables(map[], map[]), None)

  predicate Distinct<T(==)>(s: seq<T>) {
    forall i, j :: 0 <= i < j < |s| ==> s[i] != s[j]
  }

  /** `menuEntryLookup.Add(e, id)`: Dictionary.Add throws on a key already present. */
  function AddEntry(b: Build, e: Entry, id: EntryId): Build {
    if b.failure.Some? then b
    else if e in b.tables.forward then b.(failure := Some(DuplicateEntry(e)))
    else b.(tables := b.tables.(forward := b.tables.forward[e := id]))
  }

  /** `menuEntryReverseLookup.Add(handledType, entries)`. */
  function AddProvider(b: Build, p: Provider): Build {
    if b.failure.Some? then b
    else if p.handledType in b.tables.reverse then b.(failure := Some(DuplicateDesignatorType(p.handledType)))
    else b.(tables := b.tables.(reverse := b.tables.reverse[p.handledType := p.entries]))
  }

  /** The inner loop after its first `n` rounds. */
  function AddEntries(b: Build, p: Provider, n: nat): Build
    requires n <= |p.entries|
  {
    if n == 0 then b
    else AddEntry(AddEntries(b, p, n - 1), p.entries[n - 1], EntryId(p.handledType, n - 1))
  }

  /** One round of the outer loop. */
  function ProviderStep(b: Build, p: Provider): Build {
    AddProvider(AddEntries(b, p, |p.entries|), p)
  }

  /** The tables that one build over the providers, in catalog order, leaves behind. */
  function BuildTables(ps: seq<Provider>): Build {
    if ps == [] then EmptyBuild
    else ProviderStep(BuildTables(ps[..|ps| - 1]), ps[|ps| - 1])
  }

  /** Every entry of the catalog, provider by provider, in order. */
  function AllEntries(ps: seq<Provider>): seq<Entry> {
    if ps == [] then [] else AllEntries(ps[..|ps| - 1]) + ps[|ps| - 1].entries
  }

  /** The handled designator types of the catalog, in order. */
  function HandledTypes(ps: seq<Provider>): seq<TypeTag> {
    if ps == [] then [] else HandledTypes(ps[..|ps| - 1]) + [ps[|ps| - 1].handledType]
  }

  /** The two tables describe the same positions: an entry maps to (T, i)
      exactly when the array stored for T holds that entry at i. */
  ghost predicate Consistent(t: Tables) {
    && (forall e :: e in t.forward ==>
          var id := t.forward[e];
          id.kind in t.reverse && 0 <= id.index < |t.reverse[id.kind]| && t.reverse[id.kind][id.index] == e)
    && (forall k, i :: k in t.reverse && 0 <= i < |t.reverse[k]| ==>
          t.reverse[k][i] in t.forward && t.forward[t.reverse[k][i]] == EntryId(k, i))
  }

  lemma {:induction false} DistinctConcat<T>(x: seq<T>, y: seq<T>)
    ensures Distinct(x + y) <==> Distinct(x) && Distinct(y) && forall e :: e in x ==> e !in y
  {
    var xy := x + y;
    if Distinct(xy) {
      forall i, j | 0 <= i < j < |x| ensures x[i] != x[j] { assert xy[i] == x[i] && xy[j] == x[j]; }
      forall i, j | 0 <= i < j < |y| ensures y[i] != y[j] { assert xy[|x| + i] == y[i] && xy[|x| + j] == y[j]; }
      forall e | e in x ensures e !in y {
        var i :| 0 <= i < |x| && x[i] == e;
        forall j | 0 <= j < |y| ensures y[j] != e {
          assert xy[i] == e && xy[|x| + j] == y[j];
        }
      }
    }
    if Distinct(x) && Distinct(y) && forall e :: e in x ==> e !in y {
      forall i, j | 0 <= i < j < |xy| ensures xy[i] != xy[j] {
        if j < |x| {
          assert xy[i] == x[i] && xy[j] == x[j];
        } else if i >= |x| {
          assert xy[i] == y[i - |x|] && xy[j] == y[j - |x|];
        } else {
          assert xy[i] == x[i] && xy[j] == y[j - |x|];
          assert x[i] in x;
        }
      }
    }
  }

  /** The inner loop succeeds exactly when the first `n` entries are new and
      pairwise distinct, and then it adds each at its own position. */
  lemma {:induction false} AddEntriesSpec(b: Build, p: Provider, n: nat)
    requires n <= |p.entries| && b.failure.None?
    ensures var r := AddEntries(b, p, n);
      && (r.failure.None? <==>
            Distinct(p.entries[..n]) && forall e :: e in p.entries[..n] ==> e !in b.tables.forward)
      && (r.failure.None? ==>
            && r.tables.reverse == b.tables.reverse
            && (forall e :: e in r.tables.forward <==> e in b.tables.forward || e in p.entries[..n])
            && (forall e :: e in b.tables.forward ==> r.tables.forward[e] == b.tables.forward[e])
            && (forall j :: 0 <= j < n ==> r.tables.forward[p.entries[j]] == EntryId(p.handledType, j)))
  {
    if n > 0 {
      AddEntriesSpec(b, p, n - 1);
      var prev := AddEntries(b, p, n - 1);
      var e := p.entries[n - 1];
      assert p.entries[..n] == p.entries[..n - 1] + [e];
      DistinctConcat(p.entries[..n - 1], [e]);
      if prev.failure.None? && e in prev.tables.forward {
        assert e in b.tables.forward || e in p.entries[..n - 1];
      }
    }
  }

  /** Filling on a build that has already failed changes nothing. */
  lemma {:induction false} AddEntriesAfterFailure(b: Build, p: Provider, n: nat)
    requires n <= |p.entries| && b.failure.Some?
    ensures AddEntries(b, p, n) == b
  {
    if n > 0 { AddEntriesAfterFailure(b, p, n - 1); }
  }

  /** Once the inner loop has failed, its later rounds change nothing. */
  lemma {:induction false} AddEntriesFailureSticks(b: Build, p: Provider, n: nat, m: nat)
    requires n <= m <= |p.entries| && AddEntries(b, p, n).failure.Some?
    ensures AddEntries(b, p, m) == AddEntries(b, p, n)
  {
    if m > n { AddEntriesFailureSticks(b, p, n, m - 1); }
  }

  /** Once the build has failed on a prefix of the catalog, the remaining providers change nothing. */
  lemma {:induction false} BuildFailureSticks(ps: seq<Provider>, n: nat)
    requires n <= |ps| && BuildTables(ps[..n]).failure.Some?
    ensures BuildTables(ps) == BuildTables(ps[..n])
  {
    if n < |ps| {
      var pre := ps[..|ps| - 1];
      assert pre[..n] == ps[..n];
      BuildFailureSticks(pre, n);
      AddEntriesAfterFailure(BuildTables(pre), ps[|ps| - 1], |ps[|ps| - 1].entries|);
    } else {
      assert ps[..n] == ps;
    }
  }

  /** A build succeeds exactly when no entry and no handled type occurs twice
      in the catalog; a successful build covers every entry and every handled
      type, stores each provider's array under its type, and its two tables
      agree on every position. */
  lemma {:induction false} BuildTablesSpec(ps: seq<Provider>)
    ensures var b := BuildTables(ps);
      && (b.failure.None? <==> Distinct(AllEntries(ps)) && Distinct(HandledTypes(ps)))
      && (b.failure.None? ==>
            && (forall e :: e in b.tables.forward <==> e in AllEntries(ps))
            && (forall k :: k in b.tables.reverse <==> k in HandledTypes(ps))
            && (forall i :: 0 <= i < |ps| ==>
                  ps[i].handledType in b.tables.reverse && b.tables.reverse[ps[i].handledType] == ps[i].entries)
            && Consistent(b.tables))
  {
    if ps != [] {
      var pre, p := ps[..|ps| - 1], ps[|ps| - 1];
      BuildTablesSpec(pre);
      var b0 := BuildTables(pre);
      var n := |p.entries|;
      assert p.entries[..n] == p.entries;
      DistinctConcat(AllEntries(pre), p.entries);
      DistinctConcat(HandledTypes(pre), [p.handledType]);
      if b0.failure.Some? {
        AddEntriesAfterFailure(b0, p, n);
      } else {
        AddEntriesSpec(b0, p, n);
        var r := AddEntries(b0, p, n);
        var b := BuildTables(ps);
        if r.failure.None? && p.handledType !in r.tables.reverse {
          var t0, t := b0.tables, b.tables;
          assert t.reverse == t0.reverse[p.handledType := p.entries];
          forall i | 0 <= i < |ps|
            ensures ps[i].handledType in t.reverse && t.reverse[ps[i].handledType] == ps[i].entries
          {
            if i < |ps| - 1 {
              assert ps[i] == pre[i];
              assert pre[i].handledType in t0.reverse;
            }
          }
          forall e | e in t.forward
            ensures var id := t.forward[e];
              id.kind in t.reverse && 0 <= id.index < |t.reverse[id.kind]| && t.reverse[id.kind][id.index] == e
          {
            if e in t0.forward {
              assert t0.forward[e].kind in t0.reverse;
            } else {
              var j :| 0 <= j < n && p.entries[j] == e;
              assert t.forward[e] == EntryId(p.handledType, j);
            }
          }
          forall k, i | k in t.reverse && 0 <= i < |t.reverse[k]|
            ensures t.reverse[k][i] in t.forward && t.forward[t.reverse[k][i]] == EntryId(k, i)
          {
            if k == p.handledType {
              assert t.reverse[k][i] == p.entries[i];
              assert p.entries[i] in p.entries;
            } else {
              assert t0.reverse[k][i] in t0.forward;
            }
          }
        }
      }
    }
  }

  /** The lookup round trip: after a successful build, every entry `e` at
      position `a` of a provider with handled type T is sent by the forward
      table to (T, a), and the reverse table's array for T holds `e` at `a`. */
  lemma LookupRoundTrip(ps: seq<Provider>, i: int, a: int)
    requires BuildTables(ps).failure.None?
    requires 0 <= i < |ps| && 0 <= a < |ps[i].entries|
    ensures var t := BuildTables(ps).tables; var e := ps[i].entries[a];
      && e in t.forward && t.forward[e] == EntryId(ps[i].handledType, a)
      && ps[i].handledType in t.reverse && t.reverse[ps[i].handledType] == ps[i].entries
  {
    BuildTablesSpec(ps);
  }

  /** The static fields menuEntryLookup and menuEntryReverseLookup; `None` is null. */
  class MenuLookupTables {
    var forward: Option<map<Entry, EntryId>>
    var reverse: Option<map<TypeTag, seq<Entry>>>

    constructor ()
      ensures forward.None? && reverse.None?
    {
      forward, reverse := None, None;
    }

    /** PopulateMenuLookupTableIfNeeded over the given menuProviders catalog.
        The build runs only when either table is null. Both tables are
        assigned before any entry is added, so a build that stops on a
        duplicate key leaves both tables non-null and partly filled, and no
        later call rebuilds them. */
    method PopulateIfNeeded(providers: seq<Provider>) returns (failure: Option<Error>)
      modifies this
      ensures forward.Some? && reverse.Some?
      ensures old(forward).Some? && old(reverse).Some? ==>
        forward == old(forward) && reverse == old(reverse) && failure.None?
      ensures old(forward).None? || old(reverse).None? ==>
        var b := BuildTables(providers);
        forward == Some(b.tables.forward) && reverse == Some(b.tables.reverse) && failure == b.failure
    {
      failure := None;
      if forward.None? || reverse.None? {
        forward := Some(map[]);
        reverse := Some(map[]);
        var pi := 0;
        while pi < |providers|
          invariant 0 <= pi <= |providers|
          invariant forward.Some? && reverse.Some? && failure.None?
          invariant BuildTables(providers[..pi]) == Build(Tables(forward.value, reverse.value), None)
        {
          var p := providers[pi];
          ghost var before := BuildTables(providers[..pi]);
          assert providers[..pi + 1][..pi] == providers[..pi];
          var i := 0;
          while i < |p.entries|
            invariant 0 <= i <= |p.entries|
            invariant forward.Some? && reverse.Some? && failure.None?
            invariant AddEntries(before, p, i) == Build(Tables(forward.value, reverse.value), None)
          {
            var e := p.entries[i];
            if e in forward.value {
              failure := Some(DuplicateEntry(e));
              AddEntriesFailureSticks(before, p, i + 1, |p.entries|);
              BuildFailureSticks(providers, pi + 1);
              return;
            }
            forward := Some(forward.value[e := EntryId(p.handledType, i)]);
            i := i + 1;
          }
          if p.handledType in reverse.value {
            failure := Some(DuplicateDesignatorType(p.handledType));
            BuildFailureSticks(providers, pi + 1);
            return;
          }
          reverse := Some(reverse.value[p.handledType := p.entries]);
          pi := pi + 1;
        }
        assert providers[..pi] == providers;
      }
    }
  }
}
