/** Flattening of the kept build items into the build's process list
    (server/procBuilder.go, setBuildStepsOnBuild): first the items' own processes,
    then one process per compiled step, numbered on from the largest item PID.
    The three nested loops of the source each append to the build's list; they are
    modelled as functions that thread that list through as an accumulator. */
module Flatten {
  import opened Model

  /** The number of steps over all stages. */
  function StepCount(stages: seq<Stage>): nat {
    if |stages| == 0 then 0 else |stages[0].steps| + StepCount(stages[1..])
  }

  /** The number of steps in the first `j` stages. */
  function StepsBefore(stages: seq<Stage>, j: nat): nat
    requires j <= |stages|
  {
    if j == 0 then 0 else |stages[0].steps| + StepsBefore(stages[1..], j - 1)
  }

  /** The number of steps over all stages of all items. */
  function TotalSteps(items: seq<Item>): nat {
    if |items| == 0 then 0 else StepCount(items[0].config.stages) + TotalSteps(items[1..])
  }

  /** The number of steps over all stages of the first `j` items. */
  function ItemStepsBefore(items: seq<Item>, j: nat): nat
    requires j <= |items|
  {
    if j == 0 then 0 else StepCount(items[0].config.stages) + ItemStepsBefore(items[1..], j - 1)
  }

  /** A step inherits a skip from its item; any other item state gives a pending step. */
  function StepState(owner: Proc): (s: Status)
    ensures s == Skipped <==> owner.state == Skipped
    ensures s == Skipped || s == Pending
  {
    if owner.state == Skipped then Skipped else Pending
  }

  /** Appends one process per step of a stage to `acc`. `last` is the last PID handed
      out and `gid` the stage's group id so far, 0 before the stage's first step. */
  function AppendStage(owner: Proc, steps: seq<Step>, buildId: int, last: int, gid: int, acc: seq<Proc>): (r: seq<Proc>)
    ensures |r| == |acc| + |steps|
    decreases |steps|
  {
    if |steps| == 0 then acc
    else
      var pid := last + 1;
      var g := if gid == 0 then pid else gid;
      AppendStage(owner, steps[1..], buildId, pid, g,
                  acc + [Proc(buildId, pid, owner.pid, g, steps[0].alias, StepState(owner), map[])])
  }

  /** Appends the processes of all steps of one item, stage after stage; each stage
      starts without a group id. */
  function AppendItem(owner: Proc, stages: seq<Stage>, buildId: int, last: int, acc: seq<Proc>): (r: seq<Proc>)
    ensures |r| == |acc| + StepCount(stages)
    decreases |stages|
  {
    if |stages| == 0 then acc
    else
      AppendItem(owner, stages[1..], buildId, last + |stages[0].steps|,
                 AppendStage(owner, stages[0].steps, buildId, last, 0, acc))
  }

  /** Appends the processes of all steps of all items, item after item. */
  function AppendAll(items: seq<Item>, buildId: int, last: int, acc: seq<Proc>): (r: seq<Proc>)
    ensures |r| == |acc| + TotalSteps(items)
    decreases |items|
  {
    if |items| == 0 then acc
    else
      AppendAll(items[1..], buildId, last + StepCount(items[0].config.stages),
                AppendItem(items[0].proc, items[0].config.stages, buildId, last, acc))
  }

  /** The largest item PID, or 0 when there is none larger: the source's PID counter
      starts at 0 and is raised to each larger item PID. */
  function MaxPid(items: seq<Item>): (m: int)
    ensures m >= 0
    ensures forall i :: 0 <= i < |items| ==> items[i].proc.pid <= m
    ensures m == 0 || exists i :: 0 <= i < |items| && items[i].proc.pid == m
  {
    if |items| == 0 then 0
    else
      var rest := MaxPid(items[1..]);
      if rest < items[0].proc.pid then items[0].proc.pid else rest
  }

  /** The items' own processes, in order. */
  function ItemProcs(items: seq<Item>): (r: seq<Proc>)
    ensures |r| == |items| && forall i :: 0 <= i < |items| ==> r[i] == items[i].proc
  {
    seq(|items|, i requires 0 <= i < |items| => items[i].proc)
  }

  /** The build with the items' processes and then their steps' processes appended;
      nothing else about the build changes. */
  function SetBuildStepsOnBuild(build: Build, items: seq<Item>): (r: Build)
    ensures r == build.(procs := r.procs)
    ensures |r.procs| == |build.procs| + |items| + TotalSteps(items)
  {
    build.(procs := AppendAll(items, build.id, MaxPid(items), build.procs + ItemProcs(items)))
  }

  /** Appending a stage leaves what was already in the list alone. */
  lemma {:induction false} StageKeeps(owner: Proc, steps: seq<Step>, buildId: int, last: int, gid: int, acc: seq<Proc>, i: nat)
    requires i < |acc|
    ensures AppendStage(owner, steps, buildId, last, gid, acc)[i] == acc[i]
    decreases |steps|
  {
    if |steps| > 0 {
      var pid := last + 1;
      var g := if gid == 0 then pid else gid;
      var p := Proc(buildId, pid, owner.pid, g, steps[0].alias, StepState(owner), map[]);
      StageKeeps(owner, steps[1..], buildId, pid, g, acc + [p], i);
    }
  }

  /** Appending an item's steps leaves what was already in the list alone. */
  lemma {:induction false} ItemKeeps(owner: Proc, stages: seq<Stage>, buildId: int, last: int, acc: seq<Proc>, i: nat)
    requires i < |acc|
    ensures AppendItem(owner, stages, buildId, last, acc)[i] == acc[i]
    decreases |stages|
  {
    if |stages| > 0 {
      StageKeeps(owner, stages[0].steps, buildId, last, 0, acc, i);
      ItemKeeps(owner, stages[1..], buildId, last + |stages[0].steps|,
                AppendStage(owner, stages[0].steps, buildId, last, 0, acc), i);
    }
  }

  /** Appending all items' steps leaves what was already in the list alone. */
  lemma {:induction false} AllKeeps(items: seq<Item>, buildId: int, last: int, acc: seq<Proc>, i: nat)
    requires i < |acc|
    ensures AppendAll(items, buildId, last, acc)[i] == acc[i]
    decreases |items|
  {
    if |items| > 0 {
      ItemKeeps(items[0].proc, items[0].config.stages, buildId, last, acc, i);
      AllKeeps(items[1..], buildId, last + StepCount(items[0].config.stages),
               AppendItem(items[0].proc, items[0].config.stages, buildId, last, acc), i);
    }
  }

  /** Step `i` of a stage: the next PID, the stage's group id (its first step's PID
      when the stage starts with no group), the item as parent, the step's alias as
      name, the item's skip state, and no matrix environment. */
  lemma {:induction false} StageProcAt(owner: Proc, steps: seq<Step>, buildId: int, last: int, gid: int, acc: seq<Proc>, i: nat)
    requires last >= 0 && i < |steps|
    ensures AppendStage(owner, steps, buildId, last, gid, acc)[|acc| + i]
         == Proc(buildId, last + 1 + i, owner.pid, if gid == 0 then last + 1 else gid,
                 steps[i].alias, StepState(owner), map[])
    decreases |steps|
  {
    var pid := last + 1;
    var g := if gid == 0 then pid else gid;
    var acc' := acc + [Proc(buildId, pid, owner.pid, g, steps[0].alias, StepState(owner), map[])];
    if i == 0 {
      StageKeeps(owner, steps[1..], buildId, pid, g, acc', |acc|);
    } else {
      StageProcAt(owner, steps[1..], buildId, pid, g, acc', i - 1);
      assert |acc'| + (i - 1) == |acc| + i;
      assert steps[1..][i - 1] == steps[i];
      assert pid + 1 + (i - 1) == last + 1 + i;
    }
  }

  /** The process of step `k` of stage `st` of an item whose steps are numbered on
      from `last`: its PID follows the steps of the earlier stages, its group id is
      the PID of the stage's first step, the item is its parent, its name is the
      step's alias, it inherits the item's skip state and has no matrix environment. */
  function StepProc(owner: Proc, stages: seq<Stage>, buildId: int, last: int, st: nat, k: nat): Proc
    requires st < |stages| && k < |stages[st].steps|
  {
    var first := last + 1 + StepsBefore(stages, st);
    Proc(buildId, first + k, owner.pid, first, stages[st].steps[k].alias, StepState(owner), map[])
  }

  lemma {:induction false} StepCountPrefix(stages: seq<Stage>, st: nat)
    requires st < |stages|
    ensures StepsBefore(stages, st) + |stages[st].steps| <= StepCount(stages)
  {
    if st > 0 {
      StepCountPrefix(stages[1..], st - 1);
    }
  }

  /** Step `k` of stage `st` of one item lands after the steps of the item's earlier
      stages. */
  lemma {:induction false} ItemStepAt(owner: Proc, stages: seq<Stage>, buildId: int, last: int, acc: seq<Proc>, st: nat, k: nat)
    requires last >= 0 && st < |stages| && k < |stages[st].steps|
    ensures var r := AppendItem(owner, stages, buildId, last, acc);
            && |acc| + (StepsBefore(stages, st) + k) < |r|
            && r[|acc| + (StepsBefore(stages, st) + k)] == StepProc(owner, stages, buildId, last, st, k)
    decreases |stages|
  {
    var n0 := |stages[0].steps|;
    var acc1 := AppendStage(owner, stages[0].steps, buildId, last, 0, acc);
    StepCountPrefix(stages, st);
    if st == 0 {
      StageProcAt(owner, stages[0].steps, buildId, last, 0, acc, k);
      ItemKeeps(owner, stages[1..], buildId, last + n0, acc1, |acc| + k);
      assert |acc| + (StepsBefore(stages, 0) + k) == |acc| + k;
    } else {
      ItemStepAt(owner, stages[1..], buildId, last + n0, acc1, st - 1, k);
      assert stages[1..][st - 1] == stages[st];
      assert |acc1| + (StepsBefore(stages[1..], st - 1) + k) == |acc| + (StepsBefore(stages, st) + k);
      assert last + n0 + 1 + StepsBefore(stages[1..], st - 1) == last + 1 + StepsBefore(stages, st);
    }
  }

  /** Step `i` of an item, counted over all its stages: the next PID, and the build
      as owner. */
  lemma {:induction false} ItemStepPid(owner: Proc, stages: seq<Stage>, buildId: int, last: int, acc: seq<Proc>, i: nat)
    requires last >= 0 && i < StepCount(stages)
    ensures var p := AppendItem(owner, stages, buildId, last, acc)[|acc| + i];
            p.pid == last + 1 + i && p.buildId == buildId
    decreases |stages|
  {
    var n0 := |stages[0].steps|;
    var acc1 := AppendStage(owner, stages[0].steps, buildId, last, 0, acc);
    if i < n0 {
      StageProcAt(owner, stages[0].steps, buildId, last, 0, acc, i);
      ItemKeeps(owner, stages[1..], buildId, last + n0, acc1, |acc| + i);
    } else {
      ItemStepPid(owner, stages[1..], buildId, last + n0, acc1, i - n0);
      assert |acc1| + (i - n0) == |acc| + i;
    }
  }

  /** Step `k` of stage `st` of item `j` lands after the steps of the earlier items
      and of the item's earlier stages. */
  lemma {:induction false} AllStepAt(items: seq<Item>, buildId: int, last: int, acc: seq<Proc>, j: nat, st: nat, k: nat)
    requires last >= 0 && j < |items|
    requires st < |items[j].config.stages|
    requires k < |items[j].config.stages[st].steps|
    ensures var stages := items[j].config.stages;
            var off := ItemStepsBefore(items, j);
            var r := AppendAll(items, buildId, last, acc);
            && |acc| + (off + (StepsBefore(stages, st) + k)) < |r|
            && r[|acc| + (off + (StepsBefore(stages, st) + k))]
               == StepProc(items[j].proc, stages, buildId, last + off, st, k)
    decreases |items|
  {
    var n0 := StepCount(items[0].config.stages);
    var acc1 := AppendItem(items[0].proc, items[0].config.stages, buildId, last, acc);
    var stages := items[j].config.stages;
    if j == 0 {
      StepCountPrefix(stages, st);
      ItemStepAt(items[0].proc, stages, buildId, last, acc, st, k);
      AllKeeps(items[1..], buildId, last + n0, acc1, |acc| + (StepsBefore(stages, st) + k));
      assert ItemStepsBefore(items, 0) == 0;
    } else {
      AllStepAt(items[1..], buildId, last + n0, acc1, j - 1, st, k);
      assert items[1..][j - 1] == items[j];
      var off' := ItemStepsBefore(items[1..], j - 1);
      assert |acc1| + (off' + (StepsBefore(stages, st) + k))
          == |acc| + (ItemStepsBefore(items, j) + (StepsBefore(stages, st) + k));
      assert last + n0 + off' == last + ItemStepsBefore(items, j);
    }
  }

  /** Step `i` over all items: PIDs run on consecutively from `last`. */
  lemma {:induction false} AllStepPid(items: seq<Item>, buildId: int, last: int, acc: seq<Proc>, i: nat)
    requires last >= 0 && i < TotalSteps(items)
    ensures var p := AppendAll(items, buildId, last, acc)[|acc| + i];
            p.pid == last + 1 + i && p.buildId == buildId
    decreases |items|
  {
    var n0 := StepCount(items[0].config.stages);
    var acc1 := AppendItem(items[0].proc, items[0].config.stages, buildId, last, acc);
    if i < n0 {
      ItemStepPid(items[0].proc, items[0].config.stages, buildId, last, acc, i);
      AllKeeps(items[1..], buildId, last + n0, acc1, |acc| + i);
    } else {
      AllStepPid(items[1..], buildId, last + n0, acc1, i - n0);
      assert |acc1| + (i - n0) == |acc| + i;
    }
  }

  /** The flattened build keeps its existing processes as a prefix, followed by the
      items' own processes in order. */
  lemma FlattenedPrefix(build: Build, items: seq<Item>)
    ensures var procs := SetBuildStepsOnBuild(build, items).procs;
            && procs[..|build.procs|] == build.procs
            && forall i :: 0 <= i < |items| ==> procs[|build.procs| + i] == items[i].proc
  {
    var acc := build.procs + ItemProcs(items);
    var procs := SetBuildStepsOnBuild(build, items).procs;
    forall i | 0 <= i < |acc|
      ensures procs[i] == acc[i]
    {
      AllKeeps(items, build.id, MaxPid(items), acc, i);
    }
    assert procs[..|build.procs|] == build.procs;
  }

  /** What the process of step `k` of stage `st` says, in any list that holds it
      at `idx`, when the item's steps are numbered on from `last`. */
  lemma StepFieldsAt(owner: Proc, stages: seq<Stage>, buildId: int, last: int, st: nat, k: nat, r: seq<Proc>, idx: int)
    requires st < |stages| && k < |stages[st].steps|
    requires 0 <= idx < |r| && r[idx] == StepProc(owner, stages, buildId, last, st, k)
    ensures var p := r[idx];
            && p.pid == last + 1 + StepsBefore(stages, st) + k
            && p.pgid == last + 1 + StepsBefore(stages, st)
            && p.ppid == owner.pid
            && p.name == stages[st].steps[k].alias
            && p.buildId == buildId
            && p.state == StepState(owner)
            && p.environ == map[]
  {
  }

  /** What the process of step `k` of stage `st` of item `j` says, once the steps
      of all items are appended after `acc` and numbered on from `last`. */
  lemma AllStepFields(items: seq<Item>, buildId: int, last: int, acc: seq<Proc>, j: nat, st: nat, k: nat)
    requires last >= 0 && j < |items|
    requires st < |items[j].config.stages|
    requires k < |items[j].config.stages[st].steps|
    ensures var stages := items[j].config.stages;
            var n := ItemStepsBefore(items, j) + (StepsBefore(stages, st) + k);
            var r := AppendAll(items, buildId, last, acc);
            && |acc| + n < |r|
            && var p := r[|acc| + n];
               && p.pid == last + 1 + n
               && p.pgid == last + 1 + n - k
               && p.ppid == items[j].proc.pid
               && p.name == stages[st].steps[k].alias
               && p.buildId == buildId
               && p.state == StepState(items[j].proc)
               && p.environ == map[]
  {
    var stages := items[j].config.stages;
    var off := ItemStepsBefore(items, j);
    var r := AppendAll(items, buildId, last, acc);
    var idx := |acc| + (off + (StepsBefore(stages, st) + k));
    assert idx < |r| && r[idx] == StepProc(items[j].proc, stages, buildId, last + off, st, k) by {
      AllStepAt(items, buildId, last, acc, j, st, k);
    }
    StepFieldsAt(items[j].proc, stages, buildId, last + off, st, k, r, idx);
  }

  /** Where step `k` of stage `st` of item `j` lands in the flattened build, and what
      its process says: it sits after the build's own processes, the items' processes
      and the steps before it; its PID runs on consecutively from the largest item PID;
      its group id is the PID of its stage's first step; its parent is the item; its
      name is the step's alias; it inherits the item's skip state; and it carries no
      matrix environment. */
  lemma FlattenedStep(build: Build, items: seq<Item>, j: nat, st: nat, k: nat)
    requires j < |items|
    requires st < |items[j].config.stages|
    requires k < |items[j].config.stages[st].steps|
    ensures var stages := items[j].config.stages;
            var n := ItemStepsBefore(items, j) + (StepsBefore(stages, st) + k);
            var procs := SetBuildStepsOnBuild(build, items).procs;
            var at := |build.procs| + |items| + n;
            && at < |procs|
            && procs[at].pid == MaxPid(items) + 1 + n
            && procs[at].pgid == MaxPid(items) + 1 + n - k
            && procs[at].ppid == items[j].proc.pid
            && procs[at].name == stages[st].steps[k].alias
            && procs[at].buildId == build.id
            && procs[at].state == StepState(items[j].proc)
            && procs[at].environ == map[]
  {
    var acc := build.procs + ItemProcs(items);
    AllStepFields(items, build.id, MaxPid(items), acc, j, st, k);
    assert |acc| == |build.procs| + |items|;
  }

  /** When the items' PIDs increase, so do the PIDs of all processes the flattening
      appends: items first, then steps numbered on from the last item. */
  lemma FlattenedPidsIncrease(build: Build, items: seq<Item>)
    requires forall i, j :: 0 <= i < j < |items| ==> items[i].proc.pid < items[j].proc.pid
    ensures var procs := SetBuildStepsOnBuild(build, items).procs;
            forall a, b :: |build.procs| <= a < b < |procs| ==> procs[a].pid < procs[b].pid
  {
    var procs := SetBuildStepsOnBuild(build, items).procs;
    var base := |build.procs|;
    var acc := build.procs + ItemProcs(items);
    FlattenedPrefix(build, items);
    forall a, b | base <= a < b < |procs|
      ensures procs[a].pid < procs[b].pid
    {
      if b < |acc| {
        assert procs[a] == items[a - base].proc && procs[b] == items[b - base].proc;
      } else {
        AllStepPid(items, build.id, MaxPid(items), acc, b - |acc|);
        if a < |acc| {
          assert procs[a] == items[a - base].proc;
        } else {
          AllStepPid(items, build.id, MaxPid(items), acc, a - |acc|);
        }
      }
    }
  }
}
