/** What jobs record and whom they call, said outright by the kind of the job and the answers of the
    provisioner. */
module Recorded {
  import opened Workloads
  import opened Outcomes
  import opened Plans
  import opened Sorting
  import opened Jobs
  import opened Replay
  import opened Visits

  // ---------- validation ----------

  /** A provision, reinstall or update that fails validation calls nobody, and with one write gives
      every workload the error, with nothing else changed. */
  lemma RefusedRecordsTheError(cfg: Config, job: Job, slot: Slot, err: string)
    requires job.Provision? || job.Reinstall? || job.Update?
    requires cfg.check(job) == Some(err)
    ensures var e := JobEffect(cfg, job, slot);
      && e.calls == []
      && match slot
         case None => e.writes == []
         case Some(cells) =>
           && |e.writes| == 1 && e.writes[0].Some? && e.writes[0].value.Keys == cells.Keys
           && forall n :: n in cells ==> e.writes[0].value[n] == cells[n].(result := Result(Error, err, ""))
  {}

  /** An uninstall, a pause or a resume is not validated: it does the same whatever validation says. */
  lemma OthersAreNotValidated(cfg: Config, check: Job -> Option<string>, job: Job, slot: Slot)
    requires job.Deprovision? || job.Pause? || job.Resume?
    ensures JobEffect(cfg.(check := check), job, slot) == JobEffect(cfg, job, slot)
  {
    assert StepsOf(cfg.(check := check), job) == StepsOf(cfg, job);
  }

  /** A job that passes validation goes through its steps. */
  lemma PassedRunsItsSteps(cfg: Config, job: Job, cells: Cells)
    requires NoDuplicates(cfg.order) && WellFormed(cfg, job)
    requires cfg.check(job) == None && !job.Deprovision?
    ensures Final(cfg, job, Some(cells)).Some?
    ensures Completed(cfg.prov, job.target.id, StepsOf(cfg, job), cells, Final(cfg, job, Some(cells)).value)
    ensures JobEffect(cfg, job, Some(cells)) == StepsEffect(cfg.prov, job.target.id, StepsOf(cfg, job), Some(cells))
  {
    var steps := StepsOf(cfg, job);
    var e := StepsEffect(cfg.prov, job.target.id, steps, Some(cells));
    StepsAreDistinct(cfg, job);
    StepsPoints(cfg.prov, job.target.id, steps, cells, |e.writes|);
  }

  // ---------- installs ----------

  /** The record of `w` after an install that found `before`: a deleted record or one in error stays as
      it is, otherwise the answer of the provisioner is recorded. */
  ghost predicate Installed(answer: Outcome, w: Workload, before: Cell, after: Cell)
  {
    if before.Some? && before.value.result.state in {Deleted, Error} then after == before
    else
      match answer
      case Done(r) => after == Some(w.(result := r))
      case Failed(part, err) => after == Some(w.(result := Result(Error, err, part.data)))
      case NoAction => after == if before.Some? then before else Some(w.(result := Result(Init, "", "")))
  }

  lemma InstallStepRecords(p: Provisioner, id: DlId, w: Workload, before: Cell)
    ensures Installed(p.provision(id, w), w, before, CellFinal(p, id, Install(w), before))
  {}

  /** Provisioning and reinstalling records, for every workload of a known type, what the provisioner
      answered, and leaves every other name alone. */
  lemma InstallRecords(cfg: Config, job: Job, cells: Cells, w: Workload)
    requires NoDuplicates(cfg.order) && WellFormed(cfg, job)
    requires (job.Provision? || job.Reinstall?) && cfg.check(job) == None
    requires w in job.target.workloads && w.typ in cfg.order
    ensures var f := Final(cfg, job, Some(cells));
      && f.Some?
      && Installed(cfg.prov.provision(job.target.id, w), w, CellOf(cells, w.name), CellOf(f.value, w.name))
  {
    var ws := job.target.workloads;
    var plan := InstallPlan(cfg.sizes, cfg.order, ws);
    PassedRunsItsSteps(cfg, job, cells);
    Coverage(cfg.sizes, cfg.order, ws);
    var i := PlanHas(cfg.order, ws, plan, w);
    assert StepsOf(cfg, job)[i] == Install(w);
    InstallStepRecords(cfg.prov, job.target.id, w, CellOf(cells, w.name));
  }

  lemma InstallLeavesOthers(cfg: Config, job: Job, cells: Cells, n: Name)
    requires NoDuplicates(cfg.order) && WellFormed(cfg, job)
    requires (job.Provision? || job.Reinstall?) && cfg.check(job) == None
    requires forall w :: w in job.target.workloads && w.typ in cfg.order ==> w.name != n
    ensures var f := Final(cfg, job, Some(cells));
      f.Some? && CellOf(f.value, n) == CellOf(cells, n)
  {
    var ws := job.target.workloads;
    var plan := InstallPlan(cfg.sizes, cfg.order, ws);
    PassedRunsItsSteps(cfg, job, cells);
    Coverage(cfg.sizes, cfg.order, ws);
    var steps := StepsOf(cfg, job);
    forall i | 0 <= i < |steps| ensures steps[i].wl.name != n {
      PlanOnly(cfg.order, ws, plan, i);
      assert steps[i] == Install(plan[i]);
    }
  }

  // ---------- updates ----------

  /** The record of a name after the operation on it. */
  ghost predicate Operated(p: Provisioner, id: DlId, op: UpgradeOp, before: Cell, after: Cell)
  {
    match op
    case Add(w) => Installed(p.provision(id, w), w, before, after)
    case Remove(w) =>
      if before.None? then after == None
      else
        (match p.deprovision(id, w)
         case None => after == None
         case Some(err) => after == Some(w.(result := Result(Error, err, ""))))
    case Change(w) =>
      if before.None? || !p.canUpdate(w.typ) then after == before
      else
        match p.update(id, w)
        case Done(r) => after == Some(w.(result := r))
        case NoAction => after == Some(w.(result := before.value.result))
        case Failed(_, _) => after == before
  }

  lemma OpStepRecords(p: Provisioner, id: DlId, op: UpgradeOp, before: Cell)
    ensures Operated(p, id, op, before, CellFinal(p, id, OpStep(op), before))
  {}

  /** The operation `op` of an update is one of its steps. */
  lemma OpIsStep(cfg: Config, job: Job, ops: seq<UpgradeOp>, op: UpgradeOp) returns (i: nat)
    requires job.Update? && cfg.upgrade(job.source, job.target) == Some(ops) && op in ops
    ensures i < |StepsOf(cfg, job)| && StepsOf(cfg, job)[i] == OpStep(op)
  {
    var sorted := SortOps(cfg.index, ops);
    SortPermutes(ByKey(KeyOfOp(cfg.index)), ops);
    assert op in multiset(ops);
    assert op in multiset(sorted);
    i :| 0 <= i < |sorted| && sorted[i] == op;
  }

  lemma StepIsOp(cfg: Config, job: Job, ops: seq<UpgradeOp>, i: nat) returns (op: UpgradeOp)
    requires job.Update? && cfg.upgrade(job.source, job.target) == Some(ops)
    requires i < |StepsOf(cfg, job)|
    ensures op in ops && StepsOf(cfg, job)[i] == OpStep(op)
  {
    var sorted := SortOps(cfg.index, ops);
    SortPermutes(ByKey(KeyOfOp(cfg.index)), ops);
    op := sorted[i];
    assert op in multiset(sorted);
    assert op in multiset(ops);
  }

  /** An update records, for every operation, what the provisioner answered. */
  lemma UpdateRecords(cfg: Config, job: Job, cells: Cells, ops: seq<UpgradeOp>, op: UpgradeOp)
    requires NoDuplicates(cfg.order) && WellFormed(cfg, job)
    requires job.Update? && cfg.check(job) == None
    requires cfg.upgrade(job.source, job.target) == Some(ops) && op in ops
    ensures var f := Final(cfg, job, Some(cells));
      && f.Some?
      && Operated(cfg.prov, job.target.id, op, CellOf(cells, op.wl.name), CellOf(f.value, op.wl.name))
  {
    PassedRunsItsSteps(cfg, job, cells);
    var i := OpIsStep(cfg, job, ops, op);
    assert StepsOf(cfg, job)[i].wl == op.wl;
    OpStepRecords(cfg.prov, job.target.id, op, CellOf(cells, op.wl.name));
  }

  lemma UpdateLeavesOthers(cfg: Config, job: Job, cells: Cells, n: Name)
    requires NoDuplicates(cfg.order) && WellFormed(cfg, job)
    requires job.Update? && cfg.check(job) == None
    requires var ops := cfg.upgrade(job.source, job.target);
      ops.Some? ==> forall op :: op in ops.value ==> op.wl.name != n
    ensures var f := Final(cfg, job, Some(cells));
      f.Some? && CellOf(f.value, n) == CellOf(cells, n)
  {
    PassedRunsItsSteps(cfg, job, cells);
    var steps := StepsOf(cfg, job);
    forall i | 0 <= i < |steps| ensures steps[i].wl.name != n {
      var op := StepIsOp(cfg, job, cfg.upgrade(job.source, job.target).value, i);
    }
  }

  // ---------- what is written on the way ----------

  /** Every write of a step is made: after some write of the job, the name of the step is where that
      write of the step leaves it. */
  lemma {:induction false} StepHappens(p: Provisioner, id: DlId, steps: seq<Step>, cells: Cells, i: nat,
                                       j: nat) returns (k: nat)
    requires DistinctBy(StepName(), steps) && i < |steps|
    requires j < |CellEffect(p, id, steps[i], CellOf(cells, steps[i].wl.name)).writes|
    ensures var e := StepsEffect(p, id, steps, Some(cells));
      && k < |e.writes| && e.writes[k].Some?
      && CellOf(e.writes[k].value, steps[i].wl.name)
         == CellEffect(p, id, steps[i], CellOf(cells, steps[i].wl.name)).writes[j]
  {
    var e0 := StepEffect(p, id, steps[0], Some(cells));
    StepsFirst(p, id, steps, Some(cells));
    if i == 0 {
      k := j;
      StepPoints(p, id, steps[0], cells, j + 1);
    } else {
      StepPoints(p, id, steps[0], cells, |e0.writes|);
      TailKeepsHead(steps);
      assert steps[1..][i - 1] == steps[i];
      k := StepHappens(p, id, steps[1..], After(Some(cells), e0).value, i - 1, j);
      k := k + |e0.writes|;
    }
  }

  /** `w` was recorded with `result` by some write. */
  ghost predicate Writes(e: Effect<Slot>, w: Workload, result: Result)
  {
    exists k ::
      && 0 <= k < |e.writes| && e.writes[k].Some?
      && CellOf(e.writes[k].value, w.name) == Some(w.(result := result))
  }

  /** A workload that a provision, a reinstall or an update adds is recorded in state init before its
      manager's answer is. */
  lemma AdditionIsRecorded(cfg: Config, job: Job, cells: Cells, w: Workload)
    requires NoDuplicates(cfg.order) && WellFormed(cfg, job) && cfg.check(job) == None
    requires w.name !in cells
    requires match job
      case Update(source, target) => var ops := cfg.upgrade(source, target); ops.Some? && UpgradeOp.Add(w) in ops.value
      case _ => (job.Provision? || job.Reinstall?) && w in job.target.workloads && w.typ in cfg.order
    ensures Writes(JobEffect(cfg, job, Some(cells)), w, Result(Init, "", ""))
  {
    var steps, ws := StepsOf(cfg, job), job.target.workloads;
    PassedRunsItsSteps(cfg, job, cells);
    StepsAreDistinct(cfg, job);
    var i;
    if job.Update? {
      i := OpIsStep(cfg, job, cfg.upgrade(job.source, job.target).value, UpgradeOp.Add(w));
    } else {
      i := StepOfWorkload(cfg, job, w);
    }
    assert steps[i] == Install(w);
    AddsAtInit(cfg.prov, job.target.id, w);
    var k := StepHappens(cfg.prov, job.target.id, steps, cells, i, 0);
  }

  lemma AddsAtInit(p: Provisioner, id: DlId, w: Workload)
    ensures var writes := CellEffect(p, id, Install(w), None).writes;
      writes != [] && writes[0] == Some(w.(result := Result(Init, "", "")))
  {}

  /** Removing a stored workload in an update first records the deletion, if its manager agrees. */
  lemma RemovalIsRecorded(cfg: Config, job: Job, cells: Cells, ops: seq<UpgradeOp>, w: Workload)
    requires NoDuplicates(cfg.order) && WellFormed(cfg, job)
    requires job.Update? && cfg.check(job) == None
    requires cfg.upgrade(job.source, job.target) == Some(ops) && UpgradeOp.Remove(w) in ops
    requires w.name in cells && cfg.prov.deprovision(job.target.id, w) == None
    ensures Writes(JobEffect(cfg, job, Some(cells)), w, Result(Deleted, "deleted by an update", ""))
  {
    PassedRunsItsSteps(cfg, job, cells);
    StepsAreDistinct(cfg, job);
    var i := OpIsStep(cfg, job, ops, UpgradeOp.Remove(w));
    var k := StepHappens(cfg.prov, job.target.id, StepsOf(cfg, job), cells, i, 0);
  }

  /** An uninstall records for every stored workload of a known type its deletion, with the reason given,
      or the error of its manager, before the deployment disappears. */
  lemma UninstallIsRecorded(cfg: Config, job: Job, cells: Cells, w: Workload)
    requires NoDuplicates(cfg.order) && WellFormed(cfg, job) && job.Deprovision?
    requires w in job.target.workloads && w.typ in cfg.order && w.name in cells
    ensures Writes(JobEffect(cfg, job, Some(cells)), w,
                   match cfg.prov.deprovision(job.target.id, w)
                   case None => Result(Deleted, job.reason, "")
                   case Some(err) => Result(Error, err, ""))
  {
    var steps := StepsOf(cfg, job);
    StepsAreDistinct(cfg, job);
    var i := StepOfWorkload(cfg, job, w);
    assert steps[i] == Uninstall(w, job.reason);
    UninstallsFirst(cfg.prov, job.target.id, w, job.reason, cells[w.name]);
    var k := StepHappens(cfg.prov, job.target.id, steps, cells, i, 0);
    UninstallWrites(cfg, job, cells, k);
  }

  lemma UninstallsFirst(p: Provisioner, id: DlId, w: Workload, reason: string, stored: Workload)
    ensures var writes := CellEffect(p, id, Uninstall(w, reason), Some(stored)).writes;
      && writes != []
      && writes[0] == Some(w.(result := match p.deprovision(id, w)
                              case None => Result(Deleted, reason, "")
                              case Some(err) => Result(Error, err, "")))
  {}

  lemma UninstallWrites(cfg: Config, job: Job, cells: Cells, k: nat)
    requires job.Deprovision?
    requires k < |StepsEffect(cfg.prov, job.target.id, StepsOf(cfg, job), Some(cells)).writes|
    ensures k < |JobEffect(cfg, job, Some(cells)).writes|
    ensures JobEffect(cfg, job, Some(cells)).writes[k]
      == StepsEffect(cfg.prov, job.target.id, StepsOf(cfg, job), Some(cells)).writes[k]
  {}

  // ---------- who is called ----------

  ghost predicate CalledBy(p: Provisioner, id: DlId, step: Step, cells: Cells, c: Call)
  {
    c in CellEffect(p, id, step, CellOf(cells, step.wl.name)).calls
  }

  lemma {:induction false} CallsOfSteps(p: Provisioner, id: DlId, steps: seq<Step>, cells: Cells, c: Call)
    ensures c in CallsOf(p, id, steps, cells) <==> exists i :: 0 <= i < |steps| && CalledBy(p, id, steps[i], cells, c)
  {
    if steps != [] {
      CallsOfSteps(p, id, steps[1..], cells, c);
      if i :| 0 <= i < |steps| && CalledBy(p, id, steps[i], cells, c) {
        if i > 0 { assert steps[1..][i - 1] == steps[i]; }
      }
      var tail := steps[1..];
      if i :| 0 <= i < |tail| && CalledBy(p, id, tail[i], cells, c) {
        assert steps[i + 1] == tail[i];
      }
    }
  }

  lemma CallsOfJob(cfg: Config, job: Job, cells: Cells, c: Call)
    requires NoDuplicates(cfg.order) && WellFormed(cfg, job) && !Refused(cfg, job)
    ensures var steps := StepsOf(cfg, job);
      c in JobEffect(cfg, job, Some(cells)).calls
      <==> exists i :: 0 <= i < |steps| && CalledBy(cfg.prov, job.target.id, steps[i], cells, c)
  {
    var steps := StepsOf(cfg, job);
    StepsAreDistinct(cfg, job);
    StepsCalls(cfg.prov, job.target.id, steps, cells);
    CallsOfSteps(cfg.prov, job.target.id, steps, cells, c);
    assert JobEffect(cfg, job, Some(cells)).calls == CallsOf(cfg.prov, job.target.id, steps, cells);
  }

  /** `op` calls `c`: an addition calls Provision unless the name is stored as deleted or in error, a
      removal calls Deprovision if the name is stored, and a change calls Update if the type can be
      updated. */
  ghost predicate OpCalls(p: Provisioner, id: DlId, cells: Cells, op: UpgradeOp, c: Call)
  {
    match op
    case Add(w) => c == ProvisionCall(id, w) && Installable(cells, w.name)
    case Remove(w) => c == DeprovisionCall(id, w) && w.name in cells
    case Change(w) => c == UpdateCall(id, w) && p.canUpdate(w.typ)
  }

  lemma OpStepCalls(p: Provisioner, id: DlId, cells: Cells, op: UpgradeOp, c: Call)
    ensures CalledBy(p, id, OpStep(op), cells, c) <==> OpCalls(p, id, cells, op, c)
  {}

  /** An update makes exactly the calls of its operations. */
  lemma UpdateCallsOps(cfg: Config, job: Job, cells: Cells, ops: seq<UpgradeOp>, c: Call)
    requires NoDuplicates(cfg.order) && WellFormed(cfg, job)
    requires job.Update? && cfg.check(job) == None && cfg.upgrade(job.source, job.target) == Some(ops)
    ensures c in JobEffect(cfg, job, Some(cells)).calls
      <==> exists op :: op in ops && OpCalls(cfg.prov, job.target.id, cells, op, c)
  {
    var id, steps := job.target.id, StepsOf(cfg, job);
    CallsOfJob(cfg, job, cells, c);
    if op :| op in ops && OpCalls(cfg.prov, id, cells, op, c) {
      var i := OpIsStep(cfg, job, ops, op);
      OpStepCalls(cfg.prov, id, cells, op, c);
      assert CalledBy(cfg.prov, id, steps[i], cells, c);
    }
    if i :| 0 <= i < |steps| && CalledBy(cfg.prov, id, steps[i], cells, c) {
      var op := StepIsOp(cfg, job, ops, i);
      OpStepCalls(cfg.prov, id, cells, op, c);
    }
  }

  /** An install calls Provision for `w` unless its name is stored as deleted or in error; an uninstall
      calls Deprovision for `w` if its name is stored; a pause or resume calls its own for `w` if its
      name is stored as ok or paused. */
  ghost predicate WorkloadCalls(job: Job, cells: Cells, w: Workload, c: Call)
  {
    match job
    case Provision(_) => c == ProvisionCall(job.target.id, w) && Installable(cells, w.name)
    case Reinstall(_) => c == ProvisionCall(job.target.id, w) && Installable(cells, w.name)
    case Deprovision(_, _) => c == DeprovisionCall(job.target.id, w) && w.name in cells
    case Pause(_) => c == PauseCall(job.target.id, w) && w.name in cells && cells[w.name].result.state in {Ok, Paused}
    case Resume(_) => c == ResumeCall(job.target.id, w) && w.name in cells && cells[w.name].result.state in {Ok, Paused}
    case Update(_, _) => false
  }

  ghost predicate Installable(cells: Cells, n: Name)
  {
    n in cells ==> cells[n].result.state !in {Deleted, Error}
  }

  function PlanOf(cfg: Config, job: Job): seq<Workload>
  {
    if job.Provision? || job.Reinstall? then InstallPlan(cfg.sizes, cfg.order, job.target.workloads)
    else if job.Resume? then UpPlan(cfg.order, job.target.workloads) else DownPlan(cfg.order, job.target.workloads)
  }

  lemma WorkloadStepCalls(cfg: Config, job: Job, cells: Cells, i: nat, c: Call)
    requires !job.Update? && i < |PlanOf(cfg, job)|
    ensures |StepsOf(cfg, job)| == |PlanOf(cfg, job)| && StepsOf(cfg, job)[i].wl == PlanOf(cfg, job)[i]
    ensures var w := PlanOf(cfg, job)[i];
      CalledBy(cfg.prov, job.target.id, StepsOf(cfg, job)[i], cells, c) <==> WorkloadCalls(job, cells, w, c)
  {}

  /** Every job but an update makes, unless it fails validation, exactly the calls of the workloads of
      known types in its snapshot. */
  lemma JobCallsWorkloads(cfg: Config, job: Job, cells: Cells, c: Call)
    requires NoDuplicates(cfg.order) && WellFormed(cfg, job)
    requires !job.Update? && (job.Provision? || job.Reinstall? ==> cfg.check(job) == None)
    ensures c in JobEffect(cfg, job, Some(cells)).calls
      <==> exists w :: w in job.target.workloads && w.typ in cfg.order && WorkloadCalls(job, cells, w, c)
  {
    var id, steps, ws := job.target.id, StepsOf(cfg, job), job.target.workloads;
    CallsOfJob(cfg, job, cells, c);
    if w :| w in ws && w.typ in cfg.order && WorkloadCalls(job, cells, w, c) {
      var i := StepOfWorkload(cfg, job, w);
      WorkloadStepCalls(cfg, job, cells, i, c);
      assert CalledBy(cfg.prov, id, steps[i], cells, c);
    }
    if i :| 0 <= i < |steps| && CalledBy(cfg.prov, id, steps[i], cells, c) {
      WorkloadOfStep(cfg, job, i);
      WorkloadStepCalls(cfg, job, cells, i, c);
    }
  }

  lemma StepOfWorkload(cfg: Config, job: Job, w: Workload) returns (i: nat)
    requires NoDuplicates(cfg.order) && w in job.target.workloads && w.typ in cfg.order
    ensures i < |PlanOf(cfg, job)| && PlanOf(cfg, job)[i] == w
  {
    Coverage(cfg.sizes, cfg.order, job.target.workloads);
    i := PlanHas(cfg.order, job.target.workloads, PlanOf(cfg, job), w);
  }

  lemma WorkloadOfStep(cfg: Config, job: Job, i: nat)
    requires NoDuplicates(cfg.order) && !job.Update? && i < |StepsOf(cfg, job)|
    ensures i < |PlanOf(cfg, job)|
    ensures PlanOf(cfg, job)[i] in job.target.workloads && PlanOf(cfg, job)[i].typ in cfg.order
  {
    Coverage(cfg.sizes, cfg.order, job.target.workloads);
    PlanOnly(cfg.order, job.target.workloads, PlanOf(cfg, job), i);
  }

  // ---------- in which order ----------

  /** The calls follow the steps at the increasing places `at`, one for each call. */
  ghost predicate Follows(calls: seq<Call>, steps: seq<Step>, at: seq<nat>)
  {
    && |at| == |calls|
    && (forall i :: 0 <= i < |at| ==> at[i] < |steps| && steps[at[i]].wl == calls[i].wl)
    && (forall i, j :: 0 <= i < j < |at| ==> at[i] < at[j])
  }

  function Shifted(at: seq<nat>): seq<nat> { seq(|at|, i requires 0 <= i < |at| => at[i] + 1) }

  lemma {:induction false} CallsFollow(p: Provisioner, id: DlId, steps: seq<Step>, slot: Slot) returns (at: seq<nat>)
    ensures Follows(StepsEffect(p, id, steps, slot).calls, steps, at)
  {
    if steps == [] {
      at := [];
    } else {
      var e := StepEffect(p, id, steps[0], slot);
      StepsFirst(p, id, steps, slot);
      StepCalls(p, id, steps[0], slot);
      var rest := CallsFollow(p, id, steps[1..], After(slot, e));
      at := (if e.calls == [] then [] else [0]) + Shifted(rest);
      FollowsMore(e.calls, StepsEffect(p, id, steps[1..], After(slot, e)).calls, steps, rest);
    }
  }

  lemma FollowsMore(first: seq<Call>, calls: seq<Call>, steps: seq<Step>, rest: seq<nat>)
    requires steps != [] && |first| <= 1 && (first != [] ==> first[0].wl == steps[0].wl)
    requires Follows(calls, steps[1..], rest)
    ensures Follows(first + calls, steps, (if first == [] then [] else [0]) + Shifted(rest))
  {}

  /** Each call is made once, uninstalls and pauses call in non-increasing startup index, and resumes in
      non-decreasing index. */
  lemma WorkloadCallOrder(cfg: Config, job: Job, cells: Cells)
    requires Indexed(cfg.order, cfg.index) && NoDuplicates(cfg.order) && WellFormed(cfg, job)
    requires job.Deprovision? || job.Pause? || job.Resume?
    ensures var calls := JobEffect(cfg, job, Some(cells)).calls;
      forall i, j :: 0 <= i < j < |calls| ==>
        var a, b := IndexOf(cfg.index, calls[i].wl.typ), IndexOf(cfg.index, calls[j].wl.typ);
        calls[i].wl.name != calls[j].wl.name && if job.Resume? then a <= b else a >= b
  {
    var id, steps, plan := job.target.id, StepsOf(cfg, job), PlanOf(cfg, job);
    var calls := StepsEffect(cfg.prov, id, steps, Some(cells)).calls;
    var at := CallsFollow(cfg.prov, id, steps, Some(cells));
    VisitOrder(cfg.sizes, cfg.order, cfg.index, job.target.workloads);
    StepsAreDistinct(cfg, job);
    forall i, j | 0 <= i < j < |calls|
      ensures var a, b := IndexOf(cfg.index, calls[i].wl.typ), IndexOf(cfg.index, calls[j].wl.typ);
        calls[i].wl.name != calls[j].wl.name && if job.Resume? then a <= b else a >= b
    {
      assert |steps| == |plan| && at[i] < at[j];
      assert steps[at[i]].wl == plan[at[i]] && steps[at[j]].wl == plan[at[j]];
      assert TypesOf(plan)[at[i]] == plan[at[i]].typ && TypesOf(plan)[at[j]] == plan[at[j]].typ;
      assert StepName()(steps[at[i]]) != StepName()(steps[at[j]]);
    }
  }

  // ---------- missing deployments ----------

  /** An in-place update calls Update without looking at the store first. */
  ghost predicate UpdatesBlindly(p: Provisioner, id: DlId, step: Step, c: Call)
  {
    step.Change? && p.canUpdate(step.wl.typ) && c == UpdateCall(id, step.wl)
  }

  lemma {:induction false} MissingCalls(p: Provisioner, id: DlId, steps: seq<Step>, c: Call)
    ensures c in StepsEffect(p, id, steps, None).calls
      <==> exists i :: 0 <= i < |steps| && UpdatesBlindly(p, id, steps[i], c)
  {
    if steps != [] {
      StepsFirst(p, id, steps, None);
      MissingCalls(p, id, steps[1..], c);
      if i :| 0 <= i < |steps| && UpdatesBlindly(p, id, steps[i], c) {
        if i > 0 { assert steps[1..][i - 1] == steps[i]; }
      }
      var tail := steps[1..];
      if i :| 0 <= i < |tail| && UpdatesBlindly(p, id, tail[i], c) {
        assert steps[i + 1] == tail[i];
      }
    }
  }

  /** A job on a deployment that is not stored calls nobody, except that an update calls Update for its
      changes. */
  lemma MissingDeployment(cfg: Config, job: Job, c: Call)
    requires c in JobEffect(cfg, job, None).calls
    ensures job.Update? && c.UpdateCall? && c.id == job.target.id
    ensures cfg.upgrade(job.source, job.target).Some?
    ensures UpgradeOp.Change(c.wl) in cfg.upgrade(job.source, job.target).value && cfg.prov.canUpdate(c.wl.typ)
  {
    var steps := StepsOf(cfg, job);
    MissingCalls(cfg.prov, job.target.id, steps, c);
    var i :| 0 <= i < |steps| && UpdatesBlindly(cfg.prov, job.target.id, steps[i], c);
    assert job.Update?;
    var op := StepIsOp(cfg, job, cfg.upgrade(job.source, job.target).value, i);
  }
}
