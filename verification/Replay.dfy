/** A job can be cut short after any of its writes and run again from the start: the deployment
    ends up as if the job had run once. */
module Replay {
  import opened Workloads
  import opened Outcomes
  import opened Plans
  import opened Sorting
  import opened Jobs

  // ---------- no workload name is visited twice ----------

  ghost predicate DistinctBy<T(!new)>(f: T -> Name, s: seq<T>)
  {
    forall i, j :: 0 <= i < j < |s| ==> f(s[i]) != f(s[j])
  }

  lemma {:induction false} AtMostOnce<T(!new)>(f: T -> Name, s: seq<T>, x: T)
    requires DistinctBy(f, s)
    ensures multiset(s)[x] <= 1
    ensures multiset(s)[x] == 1 ==> x in s
  {
    if s != [] {
      var front := s[..|s| - 1];
      assert s == front + [s[|s| - 1]];
      AtMostOnce(f, front, x);
    }
  }

  lemma DistinctBelow<T(!new)>(f: T -> Name, s: seq<T>, t: seq<T>)
    requires DistinctBy(f, s)
    requires forall x :: multiset(t)[x] <= multiset(s)[x]
    ensures DistinctBy(f, t)
  {
    forall i, j | 0 <= i < j < |t| ensures f(t[i]) != f(t[j]) {
      assert t == t[..i] + [t[i]] + t[i + 1..j] + [t[j]] + t[j + 1..];
      AtMostOnce(f, s, t[i]);
      AtMostOnce(f, s, t[j]);
      assert multiset(t)[t[i]] >= 1 && multiset(t)[t[j]] >= 1;
      assert t[i] in s && t[j] in s;
      assert t[i] == t[j] ==> multiset(t)[t[i]] >= 2;
    }
  }

  function NameOf(): Workload -> Name { (w: Workload) => w.name }

  function StepName(): Step -> Name { (s: Step) => s.wl.name }

  function OpName(): UpgradeOp -> Name { (op: UpgradeOp) => op.wl.name }

  lemma ListsCount(ws: seq<Workload>, cells: Cells, w: Workload)
    requires Lists(ws, cells)
    ensures multiset(ws)[w] == if w.name in cells && cells[w.name] == w then 1 else 0
  {
    assert DistinctBy(NameOf(), ws);
    AtMostOnce(NameOf(), ws, w);
    assert w in ws <==> w in multiset(ws);
  }

  /** What a job owes to its makers: deployment validation rejects duplicate names, and
      `Deployment.Upgrade` yields at most one operation per name. */
  ghost predicate WellFormed(cfg: Config, job: Job)
  {
    match job
    case Update(src, d) => cfg.upgrade(src, d).Some? ==> DistinctBy(OpName(), cfg.upgrade(src, d).value)
    case _ => DistinctNames(job.target.workloads)
  }

  lemma PlanIsDistinct(order: seq<WorkloadType>, ws: seq<Workload>, plan: seq<Workload>)
    requires DistinctNames(ws) && Covers(order, ws, plan)
    ensures DistinctNames(plan)
  {
    assert DistinctBy(NameOf(), ws) by {
      forall i, j | 0 <= i < j < |ws| ensures NameOf()(ws[i]) != NameOf()(ws[j]) {}
    }
    DistinctBelow(NameOf(), ws, plan);
    forall i, j | 0 <= i < j < |plan| ensures plan[i].name != plan[j].name {
      assert NameOf()(plan[i]) != NameOf()(plan[j]);
    }
  }

  lemma WorkloadStepsDistinct(ws: seq<Workload>)
    requires DistinctNames(ws)
    ensures DistinctBy(StepName(), Installs(ws))
    ensures forall reason :: DistinctBy(StepName(), Uninstalls(ws, reason))
    ensures forall lock :: DistinctBy(StepName(), Locks(ws, lock))
  {}

  lemma OpStepsDistinct(index: map<WorkloadType, int>, ops: seq<UpgradeOp>)
    requires DistinctBy(OpName(), ops)
    ensures DistinctBy(StepName(), OpSteps(SortOps(index, ops)))
  {
    var sorted := SortOps(index, ops);
    SortPermutes(ByKey(KeyOfOp(index)), ops);
    DistinctBelow(OpName(), ops, sorted);
    forall i, j | 0 <= i < j < |sorted| ensures OpStep(sorted[i]).wl.name != OpStep(sorted[j]).wl.name {
      assert OpName()(sorted[i]) != OpName()(sorted[j]);
    }
  }

  lemma StepsAreDistinct(cfg: Config, job: Job)
    requires NoDuplicates(cfg.order) && WellFormed(cfg, job)
    ensures DistinctBy(StepName(), StepsOf(cfg, job))
  {
    match job
    case Update(src, d) =>
      if cfg.upgrade(src, d).Some? {
        OpStepsDistinct(cfg.index, cfg.upgrade(src, d).value);
      }
    case _ =>
      var ws := job.target.workloads;
      Coverage(cfg.sizes, cfg.order, ws);
      if job.Provision? || job.Reinstall? {
        PlanIsDistinct(cfg.order, ws, InstallPlan(cfg.sizes, cfg.order, ws));
        WorkloadStepsDistinct(InstallPlan(cfg.sizes, cfg.order, ws));
      } else if job.Resume? {
        PlanIsDistinct(cfg.order, ws, UpPlan(cfg.order, ws));
        WorkloadStepsDistinct(UpPlan(cfg.order, ws));
      } else {
        PlanIsDistinct(cfg.order, ws, DownPlan(cfg.order, ws));
        WorkloadStepsDistinct(DownPlan(cfg.order, ws));
      }
  }

  // ---------- one workload ----------

  function CellFinal(p: Provisioner, id: DlId, step: Step, cell: Cell): Cell
  {
    After(cell, CellEffect(p, id, step, cell))
  }

  /** `at` is what a crash during `step`, started on `cell`, can leave behind. */
  ghost predicate CellPoint(p: Provisioner, id: DlId, step: Step, cell: Cell, at: Cell)
  {
    var e := CellEffect(p, id, step, cell);
    exists k: nat :: k <= |e.writes| && Point(cell, e, k) == at
  }

  lemma CellReplay(p: Provisioner, id: DlId, step: Step, cell: Cell, at: Cell)
    requires CellPoint(p, id, step, cell, at)
    ensures CellFinal(p, id, step, at) == CellFinal(p, id, step, cell)
  {}

  // ---------- one deployment ----------

  /** `at` is what a crash during `steps`, started on `cells`, can leave behind: every name is at
      a crash point of its own step, and names without a step are as they were. */
  ghost predicate Interrupted(p: Provisioner, id: DlId, steps: seq<Step>, cells: Cells, at: Cells)
  {
    && (forall i :: 0 <= i < |steps| ==>
          CellPoint(p, id, steps[i], CellOf(cells, steps[i].wl.name), CellOf(at, steps[i].wl.name)))
    && (forall n: Name :: (forall i :: 0 <= i < |steps| ==> steps[i].wl.name != n) ==>
          CellOf(at, n) == CellOf(cells, n))
  }

  /** As `Interrupted`, with every step finished. */
  ghost predicate Completed(p: Provisioner, id: DlId, steps: seq<Step>, cells: Cells, at: Cells)
  {
    && (forall i :: 0 <= i < |steps| ==>
          CellOf(at, steps[i].wl.name) == CellFinal(p, id, steps[i], CellOf(cells, steps[i].wl.name)))
    && (forall n: Name :: (forall i :: 0 <= i < |steps| ==> steps[i].wl.name != n) ==>
          CellOf(at, n) == CellOf(cells, n))
  }

  lemma StepPoints(p: Provisioner, id: DlId, step: Step, cells: Cells, k: nat)
    requires k <= |StepEffect(p, id, step, Some(cells)).writes|
    ensures var at := Point(Some(cells), StepEffect(p, id, step, Some(cells)), k);
      var ce := CellEffect(p, id, step, CellOf(cells, step.wl.name));
      && at.Some?
      && k <= |ce.writes| == |StepEffect(p, id, step, Some(cells)).writes|
      && CellOf(at.value, step.wl.name) == Point(CellOf(cells, step.wl.name), ce, k)
      && forall n: Name :: n != step.wl.name ==> CellOf(at.value, n) == CellOf(cells, n)
  {}

  lemma {:induction false} StepsPoints(p: Provisioner, id: DlId, steps: seq<Step>, cells: Cells, k: nat)
    requires DistinctBy(StepName(), steps)
    requires k <= |StepsEffect(p, id, steps, Some(cells)).writes|
    ensures var e := StepsEffect(p, id, steps, Some(cells));
      && Point(Some(cells), e, k).Some?
      && Interrupted(p, id, steps, cells, Point(Some(cells), e, k).value)
      && (k == |e.writes| ==> Completed(p, id, steps, cells, Point(Some(cells), e, k).value))
  {
    if steps != [] {
      var e0 := StepEffect(p, id, steps[0], Some(cells));
      StepPoints(p, id, steps[0], cells, |e0.writes|);
      var mid := After(Some(cells), e0).value;
      var e1 := StepsEffect(p, id, steps[1..], Some(mid));
      StepsFirst(p, id, steps, Some(cells));
      ThenPoints(Some(cells), e0, e1, k);
      if k < |e0.writes| {
        StepPoints(p, id, steps[0], cells, k);
        HeadInterrupted(p, id, steps, cells, Point(Some(cells), e0, k).value, k);
      } else {
        TailKeepsHead(steps);
        StepsPoints(p, id, steps[1..], mid, k - |e0.writes|);
        var at := Point(Some(mid), e1, k - |e0.writes|).value;
        TailInterrupted(p, id, steps, cells, mid, at);
        if k == |e0.writes| + |e1.writes| {
          TailCompleted(p, id, steps, cells, mid, at);
        }
      }
    }
  }

  lemma HeadInterrupted(p: Provisioner, id: DlId, steps: seq<Step>, cells: Cells, at: Cells, k: nat)
    requires steps != [] && DistinctBy(StepName(), steps)
    requires var ce := CellEffect(p, id, steps[0], CellOf(cells, steps[0].wl.name));
      && k <= |ce.writes|
      && CellOf(at, steps[0].wl.name) == Point(CellOf(cells, steps[0].wl.name), ce, k)
    requires forall n: Name :: n != steps[0].wl.name ==> CellOf(at, n) == CellOf(cells, n)
    ensures Interrupted(p, id, steps, cells, at)
  {
    forall i | 0 <= i < |steps|
      ensures CellPoint(p, id, steps[i], CellOf(cells, steps[i].wl.name), CellOf(at, steps[i].wl.name))
    {
      if i > 0 {
        assert StepName()(steps[0]) != StepName()(steps[i]);
        var c := CellOf(cells, steps[i].wl.name);
        assert Point(c, CellEffect(p, id, steps[i], c), 0) == c;
      }
    }
  }

  lemma TailInterrupted(p: Provisioner, id: DlId, steps: seq<Step>, cells: Cells, mid: Cells, at: Cells)
    requires steps != [] && DistinctBy(StepName(), steps)
    requires CellOf(mid, steps[0].wl.name) == CellFinal(p, id, steps[0], CellOf(cells, steps[0].wl.name))
    requires forall n: Name :: n != steps[0].wl.name ==> CellOf(mid, n) == CellOf(cells, n)
    requires Interrupted(p, id, steps[1..], mid, at)
    ensures Interrupted(p, id, steps, cells, at)
  {
    TailKeepsHead(steps);
    forall i | 0 <= i < |steps|
      ensures CellPoint(p, id, steps[i], CellOf(cells, steps[i].wl.name), CellOf(at, steps[i].wl.name))
    {
      if i > 0 {
        assert StepName()(steps[0]) != StepName()(steps[i]);
        assert steps[1..][i - 1] == steps[i];
      } else {
        var c := CellOf(cells, steps[0].wl.name);
        var e := CellEffect(p, id, steps[0], c);
        assert Point(c, e, |e.writes|) == CellOf(at, steps[0].wl.name);
      }
    }
    UntouchedOutside(steps, cells, mid, at);
  }

  lemma TailCompleted(p: Provisioner, id: DlId, steps: seq<Step>, cells: Cells, mid: Cells, at: Cells)
    requires steps != [] && DistinctBy(StepName(), steps)
    requires CellOf(mid, steps[0].wl.name) == CellFinal(p, id, steps[0], CellOf(cells, steps[0].wl.name))
    requires forall n: Name :: n != steps[0].wl.name ==> CellOf(mid, n) == CellOf(cells, n)
    requires Completed(p, id, steps[1..], mid, at)
    ensures Completed(p, id, steps, cells, at)
  {
    TailKeepsHead(steps);
    forall i | 0 <= i < |steps|
      ensures CellOf(at, steps[i].wl.name) == CellFinal(p, id, steps[i], CellOf(cells, steps[i].wl.name))
    {
      if i > 0 {
        assert StepName()(steps[0]) != StepName()(steps[i]);
        assert steps[1..][i - 1] == steps[i];
      }
    }
    UntouchedOutside(steps, cells, mid, at);
  }

  lemma TailKeepsHead(steps: seq<Step>)
    requires steps != [] && DistinctBy(StepName(), steps)
    ensures DistinctBy(StepName(), steps[1..])
    ensures forall i :: 0 <= i < |steps[1..]| ==> steps[1..][i].wl.name != steps[0].wl.name
  {
    forall i, j | 0 <= i < j < |steps[1..]| ensures StepName()(steps[1..][i]) != StepName()(steps[1..][j]) {
      assert StepName()(steps[i + 1]) != StepName()(steps[j + 1]);
    }
    forall i | 0 <= i < |steps[1..]| ensures steps[1..][i].wl.name != steps[0].wl.name {
      assert StepName()(steps[0]) != StepName()(steps[i + 1]);
    }
  }

  lemma UntouchedOutside(steps: seq<Step>, cells: Cells, mid: Cells, at: Cells)
    requires steps != []
    requires forall n: Name :: n != steps[0].wl.name ==> CellOf(mid, n) == CellOf(cells, n)
    requires forall n: Name :: (forall i :: 0 <= i < |steps[1..]| ==> steps[1..][i].wl.name != n) ==>
      CellOf(at, n) == CellOf(mid, n)
    ensures forall n: Name :: (forall i :: 0 <= i < |steps| ==> steps[i].wl.name != n) ==>
      CellOf(at, n) == CellOf(cells, n)
  {
    forall n: Name | forall i :: 0 <= i < |steps| ==> steps[i].wl.name != n
      ensures CellOf(at, n) == CellOf(cells, n)
    {
      assert steps[0].wl.name != n;
      forall i | 0 <= i < |steps[1..]| ensures steps[1..][i].wl.name != n {
        assert steps[1..][i] == steps[i + 1];
      }
    }
  }

  lemma SameCells(a: Cells, b: Cells)
    requires forall n: Name :: CellOf(a, n) == CellOf(b, n)
    ensures a == b
  {
    forall n: Name ensures n in a <==> n in b {
      assert CellOf(a, n) == CellOf(b, n);
    }
    forall n | n in a ensures a[n] == b[n] {
      assert CellOf(a, n) == CellOf(b, n);
    }
  }

  lemma ReplaySteps(p: Provisioner, id: DlId, steps: seq<Step>, cells: Cells, at: Cells)
    requires DistinctBy(StepName(), steps)
    requires Interrupted(p, id, steps, cells, at)
    ensures After(Some(at), StepsEffect(p, id, steps, Some(at))) ==
      After(Some(cells), StepsEffect(p, id, steps, Some(cells)))
  {
    var ea, ec := StepsEffect(p, id, steps, Some(at)), StepsEffect(p, id, steps, Some(cells));
    StepsPoints(p, id, steps, at, |ea.writes|);
    StepsPoints(p, id, steps, cells, |ec.writes|);
    var fa, fc := After(Some(at), ea).value, After(Some(cells), ec).value;
    forall n: Name ensures CellOf(fa, n) == CellOf(fc, n) {
      if i :| 0 <= i < |steps| && steps[i].wl.name == n {
        CellReplay(p, id, steps[i], CellOf(cells, n), CellOf(at, n));
      }
    }
    SameCells(fa, fc);
  }

  // ---------- missing deployments and uninstalls ----------

  lemma {:induction false} StepsOnNothing(p: Provisioner, id: DlId, steps: seq<Step>)
    ensures StepsEffect(p, id, steps, None).writes == []
    ensures StepsEffect(p, id, steps, None).failed <==> steps != []
  {
    if steps != [] {
      StepsOnNothing(p, id, steps[1..]);
    }
  }

  lemma {:induction false} UninstallsSucceed(p: Provisioner, id: DlId, steps: seq<Step>, slot: Slot)
    requires slot.Some?
    requires forall i :: 0 <= i < |steps| ==> steps[i].Uninstall?
    ensures !StepsEffect(p, id, steps, slot).failed
  {
    if steps != [] {
      var e := StepEffect(p, id, steps[0], slot);
      StepPoints(p, id, steps[0], slot.value, |e.writes|);
      UninstallsSucceed(p, id, steps[1..], After(slot, e));
    }
  }

  /** An uninstall job that runs to completion leaves no deployment behind, whatever the
      provisioner answered: failing to deprovision a workload does not keep it. */
  lemma DeprovisionLeavesNothing(cfg: Config, job: Job, slot: Slot)
    requires job.Deprovision?
    ensures Final(cfg, job, slot) == None
  {
    var steps := StepsOf(cfg, job);
    StepsOnNothing(cfg.prov, job.target.id, steps);
    if slot.Some? { UninstallsSucceed(cfg.prov, job.target.id, steps, slot); }
  }

  lemma MarkErrorTwice(slot: Slot, err: string)
    ensures MarkError(MarkError(slot, err), err) == MarkError(slot, err)
  {
    if slot.Some? {
      var once, twice := MarkError(slot, err).value, MarkError(MarkError(slot, err), err).value;
      assert once.Keys == slot.value.Keys && twice.Keys == once.Keys;
      forall n | n in once ensures twice[n] == once[n] {
        assert once[n] == slot.value[n].WithResults(Result(Error, err, ""));
        assert twice[n] == once[n].WithResults(Result(Error, err, ""));
      }
      assert twice == once;
    }
  }

  // ---------- the theorem ----------

  /** Crash replay is harmless: after a crash behind any number of writes, running the job again
      to completion gives the state one uninterrupted run gives. */
  lemma CrashReplay(cfg: Config, job: Job, slot: Slot, k: nat)
    requires NoDuplicates(cfg.order) && WellFormed(cfg, job)
    requires k <= |JobEffect(cfg, job, slot).writes|
    ensures Final(cfg, job, Point(slot, JobEffect(cfg, job, slot), k)) == Final(cfg, job, slot)
  {
    var id, steps := job.target.id, StepsOf(cfg, job);
    if Refused(cfg, job) {
      MarkErrorTwice(slot, cfg.check(job).value);
    } else if job.Deprovision? {
      DeprovisionLeavesNothing(cfg, job, slot);
      DeprovisionLeavesNothing(cfg, job, Point(slot, JobEffect(cfg, job, slot), k));
    } else if slot.None? {
      StepsOnNothing(cfg.prov, id, steps);
    } else {
      StepsAreDistinct(cfg, job);
      StepsPoints(cfg.prov, id, steps, slot.value, k);
      ReplaySteps(cfg.prov, id, steps, slot.value, Point(slot, JobEffect(cfg, job, slot), k).value);
    }
  }

  /** `path` is what a job leaves behind over a number of attempts, each cut short somewhere. */
  ghost predicate CrashPath(cfg: Config, job: Job, path: seq<Slot>)
  {
    && path != []
    && forall i :: 0 < i < |path| ==> CrashPoint(cfg, job, path[i - 1], path[i])
  }

  ghost predicate CrashPoint(cfg: Config, job: Job, slot: Slot, at: Slot)
  {
    var e := JobEffect(cfg, job, slot);
    exists k: nat :: k <= |e.writes| && Point(slot, e, k) == at
  }

  /** The same for any number of crashed attempts. */
  lemma {:induction false} RepeatedCrashReplay(cfg: Config, job: Job, path: seq<Slot>)
    requires NoDuplicates(cfg.order) && WellFormed(cfg, job)
    requires CrashPath(cfg, job, path)
    ensures Final(cfg, job, path[|path| - 1]) == Final(cfg, job, path[0])
  {
    if |path| > 1 {
      var before := path[|path| - 2];
      RepeatedCrashReplay(cfg, job, path[..|path| - 1]);
      assert CrashPoint(cfg, job, before, path[|path| - 1]);
      var e := JobEffect(cfg, job, before);
      var k: nat :| k <= |e.writes| && Point(before, e, k) == path[|path| - 1];
      CrashReplay(cfg, job, before, k);
    }
  }
}
