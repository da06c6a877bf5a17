/** The provisioner calls jobs make, and draining a queue. */
module Visits {
  import opened Workloads
  import opened Outcomes
  import opened Plans
  import opened Sorting
  import opened Jobs
  import opened Replay

  // ---------- which calls a job makes ----------

  /** The calls of steps on different names: each step decides from the record it finds. */
  function CallsOf(p: Provisioner, id: DlId, steps: seq<Step>, cells: Cells): seq<Call>
  {
    if steps == [] then []
    else CellEffect(p, id, steps[0], CellOf(cells, steps[0].wl.name)).calls + CallsOf(p, id, steps[1..], cells)
  }

  lemma {:induction false} CallsFrame(p: Provisioner, id: DlId, steps: seq<Step>, a: Cells, b: Cells)
    requires forall i :: 0 <= i < |steps| ==> CellOf(a, steps[i].wl.name) == CellOf(b, steps[i].wl.name)
    ensures CallsOf(p, id, steps, a) == CallsOf(p, id, steps, b)
  {
    if steps != [] { CallsFrame(p, id, steps[1..], a, b); }
  }

  lemma {:induction false} StepsCalls(p: Provisioner, id: DlId, steps: seq<Step>, cells: Cells)
    requires DistinctBy(StepName(), steps)
    ensures StepsEffect(p, id, steps, Some(cells)).calls == CallsOf(p, id, steps, cells)
  {
    if steps != [] {
      var e := StepEffect(p, id, steps[0], Some(cells));
      StepPoints(p, id, steps[0], cells, |e.writes|);
      var mid := After(Some(cells), e).value;
      TailKeepsHead(steps);
      StepsCalls(p, id, steps[1..], mid);
      CallsFrame(p, id, steps[1..], mid, cells);
    }
  }

  /** Not stored as deleted or in error. */
  predicate IsLive(cells: Cells, w: Workload)
  {
    w.name in cells ==> !cells[w.name].result.state.IsDead()
  }

  function Live(cells: Cells, ws: seq<Workload>): seq<Workload>
  {
    if ws == [] then [] else (if IsLive(cells, ws[0]) then [ws[0]] else []) + Live(cells, ws[1..])
  }

  function ProvisionCalls(id: DlId, ws: seq<Workload>): seq<Call>
  {
    seq(|ws|, i requires 0 <= i < |ws| => ProvisionCall(id, ws[i]))
  }

  lemma {:induction false} InstallCallsOf(p: Provisioner, id: DlId, ws: seq<Workload>, cells: Cells)
    ensures CallsOf(p, id, Installs(ws), cells) == ProvisionCalls(id, Live(cells, ws))
  {
    if ws != [] {
      assert Installs(ws)[0] == Install(ws[0]);
      assert Installs(ws)[1..] == Installs(ws[1..]);
      InstallCallsOf(p, id, ws[1..], cells);
      var head := if IsLive(cells, ws[0]) then [ws[0]] else [];
      assert ProvisionCalls(id, head + Live(cells, ws[1..])) ==
        ProvisionCalls(id, head) + ProvisionCalls(id, Live(cells, ws[1..]));
    }
  }

  /** An install calls Provision on exactly the planned workloads that the store does not have as
      deleted or in error, in plan order, and makes no other call; a refused one makes none. */
  lemma InstallCalls(cfg: Config, job: Job, cells: Cells)
    requires NoDuplicates(cfg.order) && WellFormed(cfg, job)
    requires job.Provision? || job.Reinstall?
    ensures JobEffect(cfg, job, Some(cells)).calls
      == if Refused(cfg, job) then []
         else ProvisionCalls(job.target.id, Live(cells, InstallPlan(cfg.sizes, cfg.order, job.target.workloads)))
  {
    var plan := InstallPlan(cfg.sizes, cfg.order, job.target.workloads);
    assert StepsOf(cfg, job) == Installs(plan);
    StepsAreDistinct(cfg, job);
    StepsCalls(cfg.prov, job.target.id, StepsOf(cfg, job), cells);
    InstallCallsOf(cfg.prov, job.target.id, plan, cells);
  }

  // ---------- in which order ----------

  /** Every workload of type `t` decodes to a mount. What others decode to does not matter. */
  ghost predicate TypeDecodes(sizes: Sizes, ws: seq<Workload>, t: WorkloadType)
  {
    forall w :: w in ws && w.typ == t ==> sizes(w).Some?
  }

  /** `x` may be installed before `y`: its type comes no later, and among mounts of one type, if all
      of that type in the deployment `all` decode, it is no smaller. */
  ghost predicate InstallsBefore(cfg: Config, all: seq<Workload>, x: Workload, y: Workload)
  {
    && IndexOf(cfg.index, x.typ) <= IndexOf(cfg.index, y.typ)
    && (x.typ == y.typ && x.typ in {"zmount", "volume"} && TypeDecodes(cfg.sizes, all, x.typ) ==>
          cfg.sizes(x).Some? && cfg.sizes(y).Some? && cfg.sizes(x).value >= cfg.sizes(y).value)
  }

  ghost predicate InInstallOrder(cfg: Config, all: seq<Workload>, ws: seq<Workload>)
  {
    forall i, j :: 0 <= i < j < |ws| ==> InstallsBefore(cfg, all, ws[i], ws[j])
  }

  lemma GroupInOrder(cfg: Config, ws: seq<Workload>, t: WorkloadType)
    ensures InInstallOrder(cfg, ws, InstallGroup(cfg.sizes, ws, t))
    ensures forall i :: 0 <= i < |InstallGroup(cfg.sizes, ws, t)| ==> InstallGroup(cfg.sizes, ws, t)[i].typ == t
  {
    InstallGroupIsByType(cfg.sizes, ws, t);
    ByTypeTypes(ws, t);
    if IsMount(t) && TypeDecodes(cfg.sizes, ws, t) {
      var g := ByType(ws, t);
      forall w | w in g ensures cfg.sizes(w).Some? {
        ByTypeCounts(ws, t, w);
        assert w in multiset(g) && multiset(ws)[w] > 0;
      }
      LargestFirst(cfg.sizes, g);
      SortPermutes((x, y) => LargerMount(cfg.sizes, x, y), g);
    }
  }

  lemma {:induction false} PlanInOrder(cfg: Config, order: seq<WorkloadType>, ws: seq<Workload>)
    requires NoDuplicates(order) && Rising(cfg.index, order)
    ensures InInstallOrder(cfg, ws, InstallPlan(cfg.sizes, order, ws))
    ensures forall i :: 0 <= i < |InstallPlan(cfg.sizes, order, ws)| ==>
      InstallPlan(cfg.sizes, order, ws)[i].typ in order
  {
    if order != [] {
      var g, rest := InstallGroup(cfg.sizes, ws, order[0]), InstallPlan(cfg.sizes, order[1..], ws);
      GroupInOrder(cfg, ws, order[0]);
      PlanInOrder(cfg, order[1..], ws);
      forall i, j | 0 <= i < j < |g + rest| ensures InstallsBefore(cfg, ws, (g + rest)[i], (g + rest)[j]) {
        if i >= |g| {
          assert InstallsBefore(cfg, ws, rest[i - |g|], rest[j - |g|]);
        } else if j >= |g| {
          var y := rest[j - |g|];
          var k :| 0 <= k < |order[1..]| && order[1..][k] == y.typ;
          assert order[k + 1] == y.typ && order[0] != order[k + 1];
        } else {
          assert InstallsBefore(cfg, ws, g[i], g[j]);
        }
      }
    }
  }

  lemma {:induction false} LiveInOrder(cfg: Config, all: seq<Workload>, cells: Cells, ws: seq<Workload>)
    requires InInstallOrder(cfg, all, ws)
    ensures InInstallOrder(cfg, all, Live(cells, ws))
    ensures forall i :: 0 <= i < |Live(cells, ws)| ==> Live(cells, ws)[i] in ws
  {
    if ws != [] {
      LiveInOrder(cfg, all, cells, ws[1..]);
      var rest := Live(cells, ws[1..]);
      forall i | 0 <= i < |rest| ensures InstallsBefore(cfg, all, ws[0], rest[i]) {
        var k :| 0 <= k < |ws[1..]| && ws[1..][k] == rest[i];
        assert ws[k + 1] == rest[i];
      }
      assert forall i, j :: 0 <= i < j < |rest| ==> InstallsBefore(cfg, all, rest[i], rest[j]);
    }
  }

  /** An install calls Provision in non-decreasing startup index, and on the mounts of a type all of
      whose sizes decode in descending size. */
  lemma InstallCallOrder(cfg: Config, job: Job, cells: Cells)
    requires NoDuplicates(cfg.order) && Indexed(cfg.order, cfg.index) && WellFormed(cfg, job)
    requires job.Provision? || job.Reinstall?
    ensures var calls := JobEffect(cfg, job, Some(cells)).calls;
      forall i, j :: 0 <= i < j < |calls| ==>
        && calls[i].ProvisionCall? && calls[j].ProvisionCall?
        && InstallsBefore(cfg, job.target.workloads, calls[i].wl, calls[j].wl)
  {
    InstallCalls(cfg, job, cells);
    if !Refused(cfg, job) {
      var all := job.target.workloads;
      var plan := InstallPlan(cfg.sizes, cfg.order, all);
      PlanInOrder(cfg, cfg.order, all);
      LiveInOrder(cfg, all, cells, plan);
      CallsInOrder(cfg, all, job.target.id, Live(cells, plan));
    }
  }

  lemma CallsInOrder(cfg: Config, all: seq<Workload>, id: DlId, ws: seq<Workload>)
    requires InInstallOrder(cfg, all, ws)
    ensures var calls := ProvisionCalls(id, ws);
      forall i, j :: 0 <= i < j < |calls| ==>
        calls[i].ProvisionCall? && calls[j].ProvisionCall? && InstallsBefore(cfg, all, calls[i].wl, calls[j].wl)
  {
    var calls := ProvisionCalls(id, ws);
    forall i, j | 0 <= i < j < |ws| ensures InstallsBefore(cfg, all, calls[i].wl, calls[j].wl) {
      assert InstallsBefore(cfg, all, ws[i], ws[j]);
    }
  }

  function StepKey(index: map<WorkloadType, int>, s: Step): int
  {
    if s.Uninstall? then -IndexOf(index, s.wl.typ) else IndexOf(index, s.wl.typ)
  }

  function CallKey(index: map<WorkloadType, int>, c: Call): int
  {
    if c.DeprovisionCall? then -IndexOf(index, c.wl.typ) else IndexOf(index, c.wl.typ)
  }

  lemma StepCalls(p: Provisioner, id: DlId, step: Step, slot: Slot)
    ensures var calls := StepEffect(p, id, step, slot).calls;
      && |calls| <= 1
      && (calls != [] ==> calls[0].wl == step.wl && (calls[0].DeprovisionCall? <==> step.Uninstall?))
  {}

  ghost predicate StepsAscend(index: map<WorkloadType, int>, steps: seq<Step>)
  {
    forall i, j :: 0 <= i < j < |steps| ==> StepKey(index, steps[i]) <= StepKey(index, steps[j])
  }

  ghost predicate CallsAscend(index: map<WorkloadType, int>, calls: seq<Call>)
  {
    forall i, j :: 0 <= i < j < |calls| ==> CallKey(index, calls[i]) <= CallKey(index, calls[j])
  }

  /** Each call belongs to one of the steps. */
  ghost predicate CallsFrom(calls: seq<Call>, steps: seq<Step>)
  {
    forall i :: 0 <= i < |calls| ==> CallFrom(calls[i], steps)
  }

  ghost predicate CallFrom(c: Call, steps: seq<Step>)
  {
    exists k :: 0 <= k < |steps| && steps[k].wl == c.wl && (c.DeprovisionCall? <==> steps[k].Uninstall?)
  }

  lemma CallsFromTail(calls: seq<Call>, steps: seq<Step>)
    requires steps != [] && CallsFrom(calls, steps[1..])
    ensures CallsFrom(calls, steps)
  {
    forall i | 0 <= i < |calls| ensures CallFrom(calls[i], steps) {
      assert CallFrom(calls[i], steps[1..]);
      var tail := steps[1..];
      var k :| 0 <= k < |tail| && tail[k].wl == calls[i].wl && (calls[i].DeprovisionCall? <==> tail[k].Uninstall?);
      assert steps[k + 1] == steps[1..][k];
    }
  }

  lemma CallsFromHead(index: map<WorkloadType, int>, steps: seq<Step>, first: seq<Call>, rest: seq<Call>)
    requires steps != [] && StepsAscend(index, steps)
    requires |first| <= 1 && CallsFrom(first, steps[..1])
    requires CallsFrom(rest, steps[1..]) && CallsAscend(index, rest)
    ensures CallsFrom(first + rest, steps) && CallsAscend(index, first + rest)
  {
    CallsFromTail(rest, steps);
    forall i | 0 <= i < |first| 
      ensures CallFrom(first[i], steps)
      ensures CallKey(index, first[i]) == StepKey(index, steps[0])
    {
      assert CallFrom(first[i], steps[..1]);
      assert steps[..1][0] == steps[0];
    }
    forall i | 0 <= i < |rest| ensures StepKey(index, steps[0]) <= CallKey(index, rest[i]) {
      assert CallFrom(rest[i], steps);
    }
  }

  lemma {:induction false} CallsFollowSteps(p: Provisioner, id: DlId, index: map<WorkloadType, int>, steps: seq<Step>,
                                            slot: Slot)
    requires StepsAscend(index, steps)
    ensures CallsFrom(StepsEffect(p, id, steps, slot).calls, steps)
    ensures CallsAscend(index, StepsEffect(p, id, steps, slot).calls)
  {
    if steps != [] {
      var e := StepEffect(p, id, steps[0], slot);
      var rest := StepsEffect(p, id, steps[1..], After(slot, e));
      StepsFirst(p, id, steps, slot);
      StepCalls(p, id, steps[0], slot);
      assert StepsAscend(index, steps[1..]);
      CallsFollowSteps(p, id, index, steps[1..], After(slot, e));
      assert CallsFrom(e.calls, steps[..1]);
      CallsFromHead(index, steps, e.calls, rest.calls);
    }
  }

  /** `x` may be called before `y` in an update. */
  predicate UpdatesBefore(index: map<WorkloadType, int>, x: Call, y: Call)
  {
    if x.DeprovisionCall? then y.DeprovisionCall? ==> IndexOf(index, x.wl.typ) >= IndexOf(index, y.wl.typ)
    else !y.DeprovisionCall? && IndexOf(index, x.wl.typ) <= IndexOf(index, y.wl.typ)
  }

  lemma OpStepsAscend(index: map<WorkloadType, int>, ops: seq<UpgradeOp>)
    ensures StepsAscend(index, OpSteps(SortOps(index, ops)))
  {
    var sorted := SortOps(index, ops);
    SortIsStable(KeyOfOp(index), ops);
    forall i, j | 0 <= i < j < |sorted| ensures StepKey(index, OpStep(sorted[i])) <= StepKey(index, OpStep(sorted[j])) {
      assert KeyOfOp(index)(sorted[i]) <= KeyOfOp(index)(sorted[j]);
    }
  }

  lemma OpStepsAreOps(index: map<WorkloadType, int>, ops: seq<UpgradeOp>, k: nat)
    requires k < |OpSteps(SortOps(index, ops))|
    ensures exists op :: op in ops && op.wl == OpSteps(SortOps(index, ops))[k].wl
  {
    var sorted := SortOps(index, ops);
    SortPermutes(ByKey(KeyOfOp(index)), ops);
    assert sorted[k] in multiset(sorted);
    assert sorted[k] in ops && sorted[k].wl == OpStep(sorted[k]).wl;
  }

  /** An update calls every Deprovision before every Provision and Update: deprovisions in
      non-increasing startup index, the others in non-decreasing index. */
  lemma UpdateCallOrder(cfg: Config, job: Job, slot: Slot)
    requires job.Update? && Indexed(cfg.order, cfg.index)
    requires cfg.upgrade(job.source, job.target).Some? ==>
      forall op :: op in cfg.upgrade(job.source, job.target).value ==> op.wl.typ in cfg.order
    ensures var calls := JobEffect(cfg, job, slot).calls;
      forall i, j :: 0 <= i < j < |calls| ==> UpdatesBefore(cfg.index, calls[i], calls[j])
  {
    if !Refused(cfg, job) && cfg.upgrade(job.source, job.target).Some? {
      var ops := cfg.upgrade(job.source, job.target).value;
      OpCallOrder(cfg, job.target.id, ops, slot);
      assert JobEffect(cfg, job, slot) == StepsEffect(cfg.prov, job.target.id, OpSteps(SortOps(cfg.index, ops)), slot);
    }
  }

  lemma OpCallOrder(cfg: Config, id: DlId, ops: seq<UpgradeOp>, slot: Slot)
    requires Indexed(cfg.order, cfg.index) && forall op :: op in ops ==> op.wl.typ in cfg.order
    ensures var calls := StepsEffect(cfg.prov, id, OpSteps(SortOps(cfg.index, ops)), slot).calls;
      forall i, j :: 0 <= i < j < |calls| ==> UpdatesBefore(cfg.index, calls[i], calls[j])
  {
    var steps := OpSteps(SortOps(cfg.index, ops));
    OpStepsAscend(cfg.index, ops);
    CallsFollowSteps(cfg.prov, id, cfg.index, steps, slot);
    var calls := StepsEffect(cfg.prov, id, steps, slot).calls;
    forall i | 0 <= i < |calls| ensures IndexOf(cfg.index, calls[i].wl.typ) >= 1 {
      assert CallFrom(calls[i], steps);
      var k :| 0 <= k < |steps| && steps[k].wl == calls[i].wl;
      OpStepsAreOps(cfg.index, ops, k);
      var t :| 0 <= t < |cfg.order| && cfg.order[t] == calls[i].wl.typ;
    }
    forall i, j | 0 <= i < j < |calls| ensures UpdatesBefore(cfg.index, calls[i], calls[j]) {
      assert CallKey(cfg.index, calls[i]) <= CallKey(cfg.index, calls[j]);
    }
  }
}
