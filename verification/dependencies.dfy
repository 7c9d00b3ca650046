/** Pruning of build items whose declared dependencies are missing
    (server/procBuilder.go, filterItemsWithMissingDependencies and
    containsItemWithName).

    Items are referred to by their process name, which is the sanitized document
    name: every matrix leg of one document carries the same name, so names are
    not unique and removal by name takes all legs together. */
module Dependencies {
  import opened Model

  /** The names of the items. */
  function Names(items: seq<Item>): set<string> {
    set x | x in items :: x.proc.name
  }

  /** `x` depends on a name no item of `all` carries. */
  ghost predicate Orphaned(x: Item, all: seq<Item>) {
    exists d :: d in x.dependsOn && d !in Names(all)
  }

  /** Every dependency of every item names an item of the list. */
  ghost predicate Closed(items: seq<Item>) {
    forall x, d :: x in items && d in x.dependsOn ==> d in Names(items)
  }

  /** Linear search for an item called `name`. */
  function ContainsItemWithName(name: string, items: seq<Item>): (b: bool)
    ensures b <==> name in Names(items)
  {
    if |items| == 0 then false
    else
      assert items == [items[0]] + items[1..];
      assert Names(items) == {items[0].proc.name} + Names(items[1..]);
      items[0].proc.name == name || ContainsItemWithName(name, items[1..])
  }

  /** One copy of `item` per name in `deps` that no item of `all` carries. */
  function RemovalsFor(item: Item, deps: seq<string>, all: seq<Item>): (r: seq<Item>)
    ensures forall x :: x in r <==> x == item && exists d :: d in deps && d !in Names(all)
  {
    if |deps| == 0 then []
    else
      assert deps == [deps[0]] + deps[1..];
      (if !ContainsItemWithName(deps[0], all) then [item] else [])
      + RemovalsFor(item, deps[1..], all)
  }

  /** The items marked for removal: those with a dependency `all` does not name,
      each repeated once per missing dependency. */
  function ItemsToRemove(items: seq<Item>, all: seq<Item>): (r: seq<Item>)
    ensures forall x :: x in r <==> x in items && Orphaned(x, all)
  {
    if |items| == 0 then []
    else
      assert items == [items[0]] + items[1..];
      RemovalsFor(items[0], items[0].dependsOn, all) + ItemsToRemove(items[1..], all)
  }

  /** The items, in order, whose name is in `names`. */
  function KeepNamed(items: seq<Item>, names: set<string>): (r: seq<Item>)
    ensures forall x :: x in r <==> x in items && x.proc.name in names
    ensures |r| <= |items|
  {
    if |items| == 0 then []
    else
      assert items == [items[0]] + items[1..];
      (if items[0].proc.name in names then [items[0]] else []) + KeepNamed(items[1..], names)
  }

  /** The items, in order, whose name is not the name of any item of `toRemove`. */
  function WithoutNames(items: seq<Item>, toRemove: seq<Item>): (r: seq<Item>)
    ensures forall x :: x in r <==> x in items && x.proc.name !in Names(toRemove)
  {
    if |items| == 0 then []
    else
      assert items == [items[0]] + items[1..];
      (if !ContainsItemWithName(items[0].proc.name, toRemove) then [items[0]] else [])
      + WithoutNames(items[1..], toRemove)
  }

  /** Dropping names is keeping the complement. */
  lemma {:induction false} WithoutNamesIsKeepNamed(items: seq<Item>, toRemove: seq<Item>, universe: set<string>)
    requires Names(items) <= universe
    ensures WithoutNames(items, toRemove) == KeepNamed(items, universe - Names(toRemove))
  {
    if |items| > 0 {
      assert items == [items[0]] + items[1..];
      assert Names(items[1..]) <= Names(items);
      WithoutNamesIsKeepNamed(items[1..], toRemove, universe);
    }
  }

  /** Dropping the name of an item of the list strictly shortens it. */
  lemma {:induction false} WithoutNamesShrinks(items: seq<Item>, toRemove: seq<Item>, x: Item)
    requires x in items && x.proc.name in Names(toRemove)
    ensures |WithoutNames(items, toRemove)| < |items|
  {
    WithoutNamesIsKeepNamed(items, toRemove, Names(items));
    KeepNamedShrinks(items, Names(items) - Names(toRemove), x);
  }

  lemma {:induction false} KeepNamedShrinks(items: seq<Item>, names: set<string>, x: Item)
    requires x in items && x.proc.name !in names
    ensures |KeepNamed(items, names)| < |items|
  {
    if items[0] != x {
      assert x in items[1..];
      KeepNamedShrinks(items[1..], names, x);
    }
  }

  /** Keeping by one name set and then another keeps by their intersection. */
  lemma {:induction false} KeepNamedTwice(items: seq<Item>, s: set<string>, t: set<string>)
    ensures KeepNamed(KeepNamed(items, s), t) == KeepNamed(items, s * t)
  {
    if |items| > 0 {
      KeepNamedTwice(items[1..], s, t);
      var once := KeepNamed(items, s);
      if items[0].proc.name in s {
        assert once == [items[0]] + KeepNamed(items[1..], s);
        assert once[0] == items[0] && once[1..] == KeepNamed(items[1..], s);
        assert KeepNamed(once, t)
            == (if items[0].proc.name in t then [items[0]] else []) + KeepNamed(KeepNamed(items[1..], s), t);
      } else {
        assert once == KeepNamed(items[1..], s);
      }
    }
  }

  /** Only the names present in the list matter to `KeepNamed`. */
  lemma {:induction false} KeepNamedOnlyPresentNames(items: seq<Item>, s: set<string>, t: set<string>)
    requires s * Names(items) == t * Names(items)
    ensures KeepNamed(items, s) == KeepNamed(items, t)
  {
    if |items| > 0 {
      assert items == [items[0]] + items[1..];
      assert items[0].proc.name in Names(items);
      assert Names(items[1..]) <= Names(items);
      assert s * Names(items[1..]) == s * Names(items) * Names(items[1..]);
      assert t * Names(items[1..]) == t * Names(items) * Names(items[1..]);
      KeepNamedOnlyPresentNames(items[1..], s, t);
      var n := items[0].proc.name;
      assert n in s * Names(items) <==> n in t * Names(items);
    }
  }

  /** Repeatedly removes, by name, every item one of whose dependencies names no
      remaining item, until none does. */
  function Prune(items: seq<Item>): (r: seq<Item>)
    ensures Closed(r)
    ensures r == items <==> Closed(items)
    ensures forall x :: x in r ==> x in items
    ensures |r| <= |items|
    decreases |items|
  {
    var toRemove := ItemsToRemove(items, items);
    if |toRemove| > 0 then
      var filtered := WithoutNames(items, toRemove);
      WithoutNamesShrinks(items, toRemove, toRemove[0]);
      Prune(filtered)
    else
      assert forall x :: x in items ==> !Orphaned(x, items);
      items
  }

  /** The result is the input restricted to the result's names: order is kept, and an
      item survives exactly when some survivor has its name. */
  lemma {:induction false} PruneRestrictsByName(items: seq<Item>)
    ensures Prune(items) == KeepNamed(items, Names(Prune(items)))
    decreases |items|
  {
    var toRemove := ItemsToRemove(items, items);
    if |toRemove| > 0 {
      var filtered := WithoutNames(items, toRemove);
      var survivors := Names(items) - Names(toRemove);
      WithoutNamesShrinks(items, toRemove, toRemove[0]);
      PruneRestrictsByName(filtered);
      var r := Prune(filtered);
      WithoutNamesIsKeepNamed(items, toRemove, Names(items));
      KeepNamedTwice(items, survivors, Names(r));
      assert Names(r) <= Names(filtered) <= survivors;
      assert survivors * Names(r) == Names(r);
    } else {
      KeepNamedOnlyPresentNames(items, Names(items), Names(items) * Names(items));
      KeepNamedAll(items);
    }
  }

  lemma {:induction false} KeepNamedAll(items: seq<Item>)
    ensures KeepNamed(items, Names(items)) == items
  {
    if |items| > 0 {
      assert items == [items[0]] + items[1..];
      assert Names(items[1..]) <= Names(items);
      KeepNamedOnlyPresentNames(items[1..], Names(items), Names(items[1..]));
      KeepNamedAll(items[1..]);
    }
  }

  /** Pruning removes as little as possible: every name-closed part of the input
      whose dependencies are all present survives in full. */
  lemma {:induction false} PruneIsGreatest(items: seq<Item>, names: set<string>)
    requires Closed(KeepNamed(items, names))
    ensures KeepNamed(Prune(items), names) == KeepNamed(items, names)
    decreases |items|
  {
    var toRemove := ItemsToRemove(items, items);
    if |toRemove| > 0 {
      var filtered := WithoutNames(items, toRemove);
      var survivors := Names(items) - Names(toRemove);
      WithoutNamesShrinks(items, toRemove, toRemove[0]);
      assert Names(toRemove) !! names by {
        forall x | x in items && x.proc.name in names
          ensures !Orphaned(x, items)
        {
          assert x in KeepNamed(items, names);
          assert Names(KeepNamed(items, names)) <= Names(items);
        }
      }
      WithoutNamesIsKeepNamed(items, toRemove, Names(items));
      KeepNamedTwice(items, survivors, names);
      KeepNamedOnlyPresentNames(items, survivors * names, names);
      PruneIsGreatest(filtered, names);
    }
  }

  /** Removal cascades: a name survives only if every dependency of every input item
      carrying it survives too. So when A depends on B and B on a missing name, B goes,
      and with it A. */
  lemma PruneCascades(items: seq<Item>, x: Item, d: string)
    requires x in items && d in x.dependsOn
    requires x.proc.name in Names(Prune(items))
    ensures d in Names(Prune(items))
  {
    var r := Prune(items);
    PruneRestrictsByName(items);
    assert x in KeepNamed(items, Names(r));
  }

  /** An item whose dependency is absent from the input is removed together with
      every item (every matrix leg) sharing its name. */
  lemma PruneDropsOrphanName(items: seq<Item>, x: Item, y: Item)
    requires x in items && Orphaned(x, items)
    requires y in items && y.proc.name == x.proc.name
    ensures y !in Prune(items)
  {
    var d :| d in x.dependsOn && d !in Names(items);
    if y in Prune(items) {
      PruneCascades(items, x, d);
    }
  }

  /** `a` is `b` with some elements left out, the rest in the same order. */
  ghost predicate IsSubsequence<T>(a: seq<T>, b: seq<T>)
    decreases |b|
  {
    if |a| == 0 then true
    else if |b| == 0 then false
    else (a[0] == b[0] && IsSubsequence(a[1..], b[1..])) || IsSubsequence(a, b[1..])
  }

  lemma {:induction false} KeepNamedIsSubsequence(items: seq<Item>, names: set<string>)
    ensures IsSubsequence(KeepNamed(items, names), items)
  {
    if |items| > 0 {
      KeepNamedIsSubsequence(items[1..], names);
      var r := KeepNamed(items, names);
      if items[0].proc.name in names {
        assert r[0] == items[0] && r[1..] == KeepNamed(items[1..], names);
      } else {
        assert r == KeepNamed(items[1..], names);
      }
    }
  }

  /** Pruning keeps the surviving items in their original order. */
  lemma PruneKeepsOrder(items: seq<Item>)
    ensures IsSubsequence(Prune(items), items)
  {
    PruneRestrictsByName(items);
    KeepNamedIsSubsequence(items, Names(Prune(items)));
  }
}
