/** Small worked plans: how pruning cascades and how steps are numbered when a
    build is flattened. */
module Scenarios {
  import opened Model
  import opened Dependencies
  import opened Flatten

  /** A kept item of build 7 whose configuration is one stage of one step. */
  function ItemNamed(pid: int, name: string, deps: seq<string>, state: Status, step: string): Item {
    Item(Proc(7, pid, 0, pid, name, state, map[]), "linux/amd64", map[], deps, [],
         Config([Stage("stage", "stage", [Step(step, step)])]))
  }

  /** The assumptions of the three-item cascade below. */
  ghost predicate CascadeShape(first: Item, second: Item, third: Item, missing: string) {
    && first.proc.name != second.proc.name && first.proc.name != third.proc.name
    && second.proc.name != third.proc.name
    && second.proc.name in first.dependsOn
    && missing in second.dependsOn
    && missing != first.proc.name && missing != second.proc.name && missing != third.proc.name
    && third.dependsOn == []
  }

  lemma CascadeRemovesFirstTwo(items: seq<Item>, first: Item, second: Item, third: Item, missing: string)
    requires CascadeShape(first, second, third, missing) && items == [first, second, third]
    ensures first !in Prune(items) && second !in Prune(items)
  {
    assert forall x :: x in items ==> x == first || x == second || x == third;
    assert missing !in Names(items);
    PruneDropsOrphanName(items, second, second);
    if first in Prune(items) {
      PruneCascades(items, first, second.proc.name);
    }
  }

  lemma CascadeKeepsThird(items: seq<Item>, first: Item, second: Item, third: Item, missing: string)
    requires CascadeShape(first, second, third, missing) && items == [first, second, third]
    ensures third in Prune(items)
  {
    var keep := {third.proc.name};
    KeepNamedOfThree(first, second, third, keep);
    PruneIsGreatest(items, keep);
    assert third in KeepNamed(Prune(items), keep);
  }

  lemma KeepNamedOfThree(first: Item, second: Item, third: Item, keep: set<string>)
    requires first.proc.name !in keep && second.proc.name !in keep && third.proc.name in keep
    ensures KeepNamed([first, second, third], keep) == [third]
  {
  }

  /** Three items with distinct names where the first needs the second, the
      second needs a name no item carries, and the third needs nothing: pruning
      removes the second and then the first, and keeps only the third. */
  lemma PruneCascadeOfThree(first: Item, second: Item, third: Item, missing: string)
    requires first.proc.name != second.proc.name && first.proc.name != third.proc.name
    requires second.proc.name != third.proc.name
    requires second.proc.name in first.dependsOn
    requires missing in second.dependsOn
    requires missing != first.proc.name && missing != second.proc.name && missing != third.proc.name
    requires third.dependsOn == []
    ensures Prune([first, second, third]) == [third]
  {
    var items := [first, second, third];
    CascadeRemovesFirstTwo(items, first, second, third, missing);
    CascadeKeepsThird(items, first, second, third, missing);
    PruneRestrictsByName(items);
    assert forall x :: x in Prune(items) ==> x in items;
    OnlyThirdLeft(first, second, third, Prune(items));
  }

  lemma OnlyThirdLeft(first: Item, second: Item, third: Item, r: seq<Item>)
    requires first.proc.name != third.proc.name && second.proc.name != third.proc.name
    requires first !in r && second !in r && third in r
    requires forall x :: x in r ==> x == first || x == second || x == third
    requires r == KeepNamed([first, second, third], Names(r))
    ensures r == [third]
  {
  }

  /** `deploy` needs `test`, `test` needs `lint`, which no document defines, and
      `docs` needs nothing: only `docs` is kept. */
  lemma PruneCascadeExample()
    ensures var deploy := ItemNamed(1, "deploy", ["test"], Pending, "up");
            var test := ItemNamed(2, "test", ["lint"], Pending, "go");
            var docs := ItemNamed(3, "docs", [], Pending, "md");
            Prune([deploy, test, docs]) == [docs]
  {
    var deploy := ItemNamed(1, "deploy", ["test"], Pending, "up");
    var test := ItemNamed(2, "test", ["lint"], Pending, "go");
    var docs := ItemNamed(3, "docs", [], Pending, "md");
    assert "test"[0] != "docs"[0] && "lint"[0] != "docs"[0] && "lint"[0] != "test"[0];
    PruneCascadeOfThree(deploy, test, docs, "lint");
  }

  /** Two matrix legs of one document share its name; when one leg's dependency
      is missing, both legs go. */
  lemma PruneMatrixLegsExample()
    ensures var leg1 := ItemNamed(1, "deploy", ["test"], Pending, "up");
            var leg2 := ItemNamed(2, "deploy", [], Pending, "up");
            Prune([leg1, leg2]) == []
  {
  }

  /** An empty build 7 with a pending item 1 whose one stage has the steps `clone`
      and `test`, and a skipped item 2 whose one stage has the step `deploy`: the
      build gets the two item processes, then `clone` and `test` as PIDs 3 and 4 in
      group 3 under item 1, then a skipped `deploy` as PID 5 in group 5 under item 2. */
  lemma FlattenExample()
    ensures var build := Build(7, "main", "push", []);
            var first := Item(Proc(7, 1, 0, 1, "build", Pending, map[]), "linux/amd64", map[], [], [],
                              Config([Stage("stage", "stage", [Step("clone", "clone"), Step("test", "test")])]));
            var second := ItemNamed(2, "deploy", [], Skipped, "deploy");
            SetBuildStepsOnBuild(build, [first, second]).procs == [
              first.proc,
              second.proc,
              Proc(7, 3, 1, 3, "clone", Pending, map[]),
              Proc(7, 4, 1, 3, "test", Pending, map[]),
              Proc(7, 5, 2, 5, "deploy", Skipped, map[])]
  {
    var build := Build(7, "main", "push", []);
    var first := Item(Proc(7, 1, 0, 1, "build", Pending, map[]), "linux/amd64", map[], [], [],
                      Config([Stage("stage", "stage", [Step("clone", "clone"), Step("test", "test")])]));
    var second := ItemNamed(2, "deploy", [], Skipped, "deploy");
    var items := [first, second];
    var procs := SetBuildStepsOnBuild(build, items).procs;
    assert MaxPid(items) == 2;
    assert StepCount(first.config.stages) == 2 by {
      assert first.config.stages[1..] == [];
    }
    assert StepCount(second.config.stages) == 1 by {
      assert second.config.stages[1..] == [];
    }
    assert TotalSteps([second]) == 1 by {
      assert [second][1..] == [];
    }
    assert TotalSteps(items) == 3 by {
      assert items[1..] == [second];
    }
    assert ItemStepsBefore(items, 1) == 2 by {
      assert items[1..] == [second];
    }
    FlattenedPrefix(build, items);
    FlattenedStep(build, items, 0, 0, 0);
    FlattenedStep(build, items, 0, 0, 1);
    FlattenedStep(build, items, 1, 0, 0);
  }
}
