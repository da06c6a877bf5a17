/** Which states a workload can go through, over single jobs and over whole runs. */
module Legality {
  import opened Workloads
  import opened Outcomes
  import opened Plans
  import opened Jobs
  import opened Replay
  import opened Runs

  type State = Option<ResultState>

  function StateIn(cells: Cells, n: Name): State
  {
    if n in cells then Some(cells[n].result.state) else None
  }

  predicate ManagerState(b: State) { b in {Some(Ok), Some(Error), Some(UnChanged), Some(Paused)} }

  /** The transitions each kind of step may make. */
  predicate StepAllows(step: Step, a: State, b: State)
  {
    match step
    case Install(_) => (a == None && b == Some(Init)) || (a.Some? && !a.value.IsDead() && ManagerState(b))
    case Uninstall(_, _) => (a.Some? && (b == Some(Deleted) || b == Some(Error))) || (a == Some(Deleted) && b == None)
    case Change(_) => (a.Some? && ManagerState(b)) || a == b
    case Lock(_) => a.Some? && a.value.IsOkay() && ManagerState(b)
    case Unlock(_) => a.Some? && a.value.IsOkay() && ManagerState(b)
  }

  /** The transitions a job may make on the record of `n` while its deployment stays in the store: a
      refused job puts every record in error, any other makes transitions of its own steps on `n`. */
  ghost predicate JobAllows(cfg: Config, job: Job, n: Name, a: State, b: State)
  {
    if Refused(cfg, job) then a.Some? && b == Some(Error)
    else
      var steps := StepsOf(cfg, job);
      exists i :: 0 <= i < |steps| && steps[i].wl.name == n && StepAllows(steps[i], a, b)
  }

  /** From `a` to `b`, one name changes, and that by write `j` of `step` on `cell`. */
  ghost predicate ChangedBy(p: Provisioner, id: DlId, step: Step, cell: Cell, j: nat, a: Slot, b: Slot)
  {
    var e := CellEffect(p, id, step, cell);
    && j < |e.writes| && a.Some? && b.Some?
    && CellOf(a.value, step.wl.name) == Point(cell, e, j)
    && CellOf(b.value, step.wl.name) == Point(cell, e, j + 1)
    && forall n: Name :: n != step.wl.name ==> CellOf(b.value, n) == CellOf(a.value, n)
  }

  lemma StepChanges(p: Provisioner, id: DlId, step: Step, cells: Cells, k: nat)
    requires k < |StepEffect(p, id, step, Some(cells)).writes|
    ensures var e := StepEffect(p, id, step, Some(cells));
      ChangedBy(p, id, step, CellOf(cells, step.wl.name), k, Point(Some(cells), e, k), Point(Some(cells), e, k + 1))
  {
    StepPoints(p, id, step, cells, k);
    StepPoints(p, id, step, cells, k + 1);
  }

  /** One write changes one name, and that name by one write of its own step. */
  lemma {:induction false} OneWrite(p: Provisioner, id: DlId, steps: seq<Step>, slot: Slot, k: nat)
    returns (i: nat, cell: Cell, j: nat)
    requires slot.Some? && k < |StepsEffect(p, id, steps, slot).writes|
    ensures var e := StepsEffect(p, id, steps, slot);
      i < |steps| && ChangedBy(p, id, steps[i], cell, j, Point(slot, e, k), Point(slot, e, k + 1))
  {
    var e, e0 := StepsEffect(p, id, steps, slot), StepEffect(p, id, steps[0], slot);
    var mid := After(slot, e0);
    var a, b := Point(slot, e, k), Point(slot, e, k + 1);
    TwoPoints(p, id, steps, slot, k);
    if k < |e0.writes| {
      i, cell, j := 0, CellOf(slot.value, steps[0].wl.name), k;
      StepChanges(p, id, steps[0], slot.value, k);
      assert ChangedBy(p, id, steps[0], cell, j, a, b);
    } else {
      i, cell, j := OneWrite(p, id, steps[1..], mid, k - |e0.writes|);
      assert steps[1..][i] == steps[i + 1] && ChangedBy(p, id, steps[1..][i], cell, j, a, b);
      i := i + 1;
    }
  }

  lemma TwoPoints(p: Provisioner, id: DlId, steps: seq<Step>, slot: Slot, k: nat)
    requires slot.Some? && steps != [] && k < |StepsEffect(p, id, steps, slot).writes|
    ensures After(slot, StepEffect(p, id, steps[0], slot)).Some?
    ensures var e, e0 := StepsEffect(p, id, steps, slot), StepEffect(p, id, steps[0], slot);
      var mid := After(slot, e0);
      var e1 := StepsEffect(p, id, steps[1..], mid);
      var before := k - |e0.writes|;
      var a, b := Point(slot, e, k), Point(slot, e, k + 1);
      if k < |e0.writes| then a == Point(slot, e0, k) && b == Point(slot, e0, k + 1)
      else before < |e1.writes| && a == Point(mid, e1, before) && b == Point(mid, e1, before + 1)
  {
    var e0 := StepEffect(p, id, steps[0], slot);
    var e1 := StepsEffect(p, id, steps[1..], After(slot, e0));
    StepsFirst(p, id, steps, slot);
    StepPoints(p, id, steps[0], slot.value, |e0.writes|);
    ThenPoints(slot, e0, e1, k);
    ThenPoints(slot, e0, e1, k + 1);
  }

  function StateOfCell(c: Cell): State
  {
    match c case None => None case Some(w) => Some(w.result.state)
  }

  lemma CellTransition(p: Provisioner, id: DlId, step: Step, cell: Cell, j: nat)
    requires WellBehaved(p)
    requires j < |CellEffect(p, id, step, cell).writes|
    ensures var e := CellEffect(p, id, step, cell);
      StepAllows(step, StateOfCell(Point(cell, e, j)), StateOfCell(Point(cell, e, j + 1)))
  {
    assert Reported(p.provision(id, step.wl)) && Reported(p.update(id, step.wl));
    assert Reported(p.pause(id, step.wl)) && Reported(p.resume(id, step.wl));
  }

  /** The steps of a job are of the job's own kind. */
  lemma StepKinds(cfg: Config, job: Job, i: nat)
    requires i < |StepsOf(cfg, job)|
    ensures var s := StepsOf(cfg, job)[i];
      match job
      case Provision(_) => s.Install?
      case Reinstall(_) => s.Install?
      case Deprovision(_, _) => s.Uninstall?
      case Update(_, _) => s.Install? || s.Uninstall? || s.Change?
      case Pause(_) => s.Lock?
      case Resume(_) => s.Unlock?
  {}

  /** Between two consecutive writes of a job, while the deployment is there, every workload keeps
      its record or makes a transition its job allows; the deployment itself disappears only with
      the last write of an uninstall. */
  lemma JobTransition(cfg: Config, job: Job, slot: Slot, k: nat)
    requires WellBehaved(cfg.prov)
    requires k < |JobEffect(cfg, job, slot).writes|
    ensures var e := JobEffect(cfg, job, slot);
      var a, b := Point(slot, e, k), Point(slot, e, k + 1);
      && (b.None? ==> job.Deprovision? && k + 1 == |e.writes|)
      && (b.Some? ==> a.Some? && forall n: Name ::
            CellOf(a.value, n) == CellOf(b.value, n)
            || JobAllows(cfg, job, n, StateIn(a.value, n), StateIn(b.value, n)))
  {
    var id, steps := job.target.id, StepsOf(cfg, job);
    if !Refused(cfg, job) && k < |StepsEffect(cfg.prov, id, steps, slot).writes| {
      if slot.None? { StepsOnNothing(cfg.prov, id, steps); }
      var i, cell, j := OneWrite(cfg.prov, id, steps, slot, k);
      CellTransition(cfg.prov, id, steps[i], cell, j);
      var se, e := StepsEffect(cfg.prov, id, steps, slot), JobEffect(cfg, job, slot);
      assert Point(slot, e, k) == Point(slot, se, k) && Point(slot, e, k + 1) == Point(slot, se, k + 1);
      var a, b := Point(slot, se, k).value, Point(slot, se, k + 1).value;
      forall n: Name | CellOf(a, n) != CellOf(b, n)
        ensures JobAllows(cfg, job, n, StateIn(a, n), StateIn(b, n))
      {
        assert n == steps[i].wl.name;
        assert StateIn(a, n) == StateOfCell(CellOf(a, n)) && StateIn(b, n) == StateOfCell(CellOf(b, n));
      }
    }
  }

  /** The record of `n` is the very same as in `cells`. */
  ghost predicate Keeps(cells: Cells, n: Name, at: Slot)
  {
    at.Some? && CellOf(at.value, n) == CellOf(cells, n)
  }

  /** What a refusal records. */
  function Refusal(cfg: Config, job: Job): Result
    requires Refused(cfg, job)
  {
    Result(Error, cfg.check(job).value, "")
  }

  /** Error and deleted are final for the steps of installs, reinstalls, pauses and resumes: from the
      first write to the last, a job of these kinds keeps such a record the very same, exactly
      unless it is refused and the record is not that refusal already. */
  lemma DeadStaysDead(cfg: Config, job: Job, cells: Cells, n: Name)
    requires NoDuplicates(cfg.order) && WellFormed(cfg, job)
    requires job.Provision? || job.Reinstall? || job.Pause? || job.Resume?
    requires n in cells && cells[n].result.state.IsDead()
    ensures var e := JobEffect(cfg, job, Some(cells));
      (forall k: nat :: k <= |e.writes| ==> Keeps(cells, n, Point(Some(cells), e, k)))
      <==> (Refused(cfg, job) ==> cells[n].result == Refusal(cfg, job))
    ensures Keeps(cells, n, Final(cfg, job, Some(cells)))
      <==> (Refused(cfg, job) ==> cells[n].result == Refusal(cfg, job))
  {
    var e := JobEffect(cfg, job, Some(cells));
    if Refused(cfg, job) {
      RefusalRewrites(cfg, job, cells, n);
    } else {
      forall k: nat | k <= |e.writes| ensures Keeps(cells, n, Point(Some(cells), e, k)) {
        StepsKeepDead(cfg, job, cells, n, k);
      }
    }
  }

  /** A refused job replaces the result of every record. */
  lemma RefusalRewrites(cfg: Config, job: Job, cells: Cells, n: Name)
    requires Refused(cfg, job) && n in cells
    ensures var e := JobEffect(cfg, job, Some(cells));
      && |e.writes| == 1
      && Final(cfg, job, Some(cells)) == Point(Some(cells), e, 1)
      && (Keeps(cells, n, Point(Some(cells), e, 1)) <==> cells[n].result == Refusal(cfg, job))
  {
    var f := Final(cfg, job, Some(cells)).value;
    assert n in f && f[n] == cells[n].WithResults(Refusal(cfg, job));
    assert CellOf(f, n) == Some(f[n]) && CellOf(cells, n) == Some(cells[n]);
  }

  lemma StepsKeepDead(cfg: Config, job: Job, cells: Cells, n: Name, k: nat)
    requires NoDuplicates(cfg.order) && WellFormed(cfg, job)
    requires job.Provision? || job.Reinstall? || job.Pause? || job.Resume?
    requires !Refused(cfg, job)
    requires n in cells && cells[n].result.state.IsDead()
    requires k <= |JobEffect(cfg, job, Some(cells)).writes|
    ensures Keeps(cells, n, Point(Some(cells), JobEffect(cfg, job, Some(cells)), k))
  {
    var id, steps := job.target.id, StepsOf(cfg, job);
    StepsAreDistinct(cfg, job);
    StepsPoints(cfg.prov, id, steps, cells, k);
    var at := Point(Some(cells), JobEffect(cfg, job, Some(cells)), k).value;
    if i :| 0 <= i < |steps| && steps[i].wl.name == n {
      StepKinds(cfg, job, i);
      assert CellPoint(cfg.prov, id, steps[i], CellOf(cells, n), CellOf(at, n));
    }
  }

  ghost predicate NoneDeleted(slot: Slot)
  {
    slot.Some? ==> forall n :: n in slot.value ==> slot.value[n].result.state != Deleted
  }

  lemma CellFinalNotDeleted(p: Provisioner, id: DlId, step: Step, cell: Cell)
    requires WellBehaved(p)
    requires StateOfCell(cell) != Some(Deleted)
    ensures StateOfCell(CellFinal(p, id, step, cell)) != Some(Deleted)
  {
    assert Reported(p.provision(id, step.wl)) && Reported(p.update(id, step.wl));
    assert Reported(p.pause(id, step.wl)) && Reported(p.resume(id, step.wl));
  }

  /** A record of a deletion never outlives the job that made it: the name is gone with it. */
  lemma DeletionsComplete(cfg: Config, job: Job, slot: Slot)
    requires NoDuplicates(cfg.order) && WellFormed(cfg, job) && WellBehaved(cfg.prov)
    requires NoneDeleted(slot)
    ensures NoneDeleted(Final(cfg, job, slot))
  {
    if job.Deprovision? {
      DeprovisionLeavesNothing(cfg, job, slot);
    } else if slot.None? {
      StepsOnNothing(cfg.prov, job.target.id, StepsOf(cfg, job));
    } else if !Refused(cfg, job) {
      StepsAreDistinct(cfg, job);
      StepsNotDeleted(cfg.prov, job.target.id, StepsOf(cfg, job), slot.value);
    }
  }

  lemma StepsNotDeleted(p: Provisioner, id: DlId, steps: seq<Step>, cells: Cells)
    requires DistinctBy(StepName(), steps) && WellBehaved(p) && NoneDeleted(Some(cells))
    ensures NoneDeleted(After(Some(cells), StepsEffect(p, id, steps, Some(cells))))
  {
    var e := StepsEffect(p, id, steps, Some(cells));
    StepsPoints(p, id, steps, cells, |e.writes|);
    var at := After(Some(cells), e).value;
    forall n | n in at ensures at[n].result.state != Deleted {
      assert CellOf(at, n) == Some(at[n]);
      assert StateOfCell(CellOf(cells, n)) != Some(Deleted);
      if i :| 0 <= i < |steps| && steps[i].wl.name == n {
        CellFinalNotDeleted(p, id, steps[i], CellOf(cells, n));
      }
    }
  }

  // ---------- runs ----------

  ghost predicate Clean(store: Store)
  {
    forall id :: id in store ==> NoneDeleted(Some(store[id]))
  }

  /** Every workload keeps its record or makes a transition that the job at the head of the queue
      allows. Deployments appear only with all workloads in state init, and disappear only by an
      uninstall. */
  ghost predicate LegalStep(cfg: Config, s: System, t: System)
  {
    forall id :: SlotOf(s.store, id) != SlotOf(t.store, id) ==>
      || (id !in s.store && id in t.store && AllInit(t.store[id]))
      || (s.queue != [] && id == Head(s) && id !in t.store && s.queue[0].Deprovision?)
      || (s.queue != [] && id == Head(s) && id in s.store && id in t.store && forall n: Name ::
            CellOf(s.store[id], n) == CellOf(t.store[id], n)
            || JobAllows(cfg, s.queue[0], n, StateIn(s.store[id], n), StateIn(t.store[id], n)))
  }

  lemma StepIsLegal(cfg: Config, base: Store, s: System, t: System)
    requires WellBehaved(cfg.prov) && Agrees(cfg, base, s) && Next(cfg, s, t)
    ensures LegalStep(cfg, s, t)
  {
    if Write(cfg, s, t) {
      WriteIsLegal(cfg, base, s, t);
    }
  }

  lemma WriteIsLegal(cfg: Config, base: Store, s: System, t: System)
    requires WellBehaved(cfg.prov) && Agrees(cfg, base, s) && Write(cfg, s, t)
    ensures LegalStep(cfg, s, t)
  {
    var e := JobEffect(cfg, s.queue[0], s.phase.start);
    JobTransition(cfg, s.queue[0], s.phase.start, s.phase.done);
    forall id { PutGet(s.store, Head(s), e.writes[s.phase.done], id); }
  }

  /** Every run of the engine, with crashes anywhere, moves every workload only along transitions
      that a step of the job at work, on that workload, allows; a refused job only puts workloads in
      error. So (see `StepAllows`) no workload goes back to init, and a name leaves a deployment that
      stays only from state deleted. */
  lemma LegalRuns(cfg: Config, run: seq<System>, i: nat)
    requires NoDuplicates(cfg.order) && WellBehaved(cfg.prov) && IsRun(cfg, run)
    requires 0 < i < |run|
    ensures LegalStep(cfg, run[i - 1], run[i])
  {
    RunKeeps(cfg, run[..i]);
    StepIsLegal(cfg, Ledger(cfg, run[0].store, run[i - 1].events), run[i - 1], run[i]);
  }

  /** Over every run, a record in error or deleted changes only by a refused job, or by an uninstall
      or an in-place update of that very workload; no other step touches it. */
  lemma OnlyTheseTouchTheDead(cfg: Config, run: seq<System>, i: nat, id: DlId, n: Name)
    requires NoDuplicates(cfg.order) && WellBehaved(cfg.prov) && IsRun(cfg, run)
    requires 0 < i < |run|
    requires id in run[i - 1].store && n in run[i - 1].store[id] && run[i - 1].store[id][n].result.state.IsDead()
    requires id in run[i].store && CellOf(run[i].store[id], n) != CellOf(run[i - 1].store[id], n)
    ensures run[i - 1].queue != [] && id == Head(run[i - 1])
    ensures var job := run[i - 1].queue[0];
      Refused(cfg, job) || HasTouch(StepsOf(cfg, job), n)
  {
    LegalRuns(cfg, run, i);
    DeadMoves(cfg, run[i - 1], run[i], id, n);
  }

  lemma DeadMoves(cfg: Config, s: System, t: System, id: DlId, n: Name)
    requires LegalStep(cfg, s, t)
    requires id in s.store && n in s.store[id] && s.store[id][n].result.state.IsDead()
    requires id in t.store && CellOf(t.store[id], n) != CellOf(s.store[id], n)
    ensures s.queue != [] && id == Head(s) && (Refused(cfg, s.queue[0]) || HasTouch(StepsOf(cfg, s.queue[0]), n))
  {
    assert SlotOf(s.store, id) != SlotOf(t.store, id);
    if !Refused(cfg, s.queue[0]) {
      AllowedTouch(StepsOf(cfg, s.queue[0]), n, StateIn(s.store[id], n), StateIn(t.store[id], n));
    }
  }

  /** An uninstall or an in-place update of `n` is among the steps. */
  ghost predicate HasTouch(steps: seq<Step>, n: Name)
  {
    exists k :: 0 <= k < |steps| && steps[k].wl.name == n && (steps[k].Uninstall? || steps[k].Change?)
  }

  lemma AllowedTouch(steps: seq<Step>, n: Name, a: State, b: State)
    requires a.Some? && a.value.IsDead()
    requires exists k :: 0 <= k < |steps| && steps[k].wl.name == n && StepAllows(steps[k], a, b)
    ensures HasTouch(steps, n)
  {
    var k :| 0 <= k < |steps| && steps[k].wl.name == n && StepAllows(steps[k], a, b);
    assert steps[k].Uninstall? || steps[k].Change?;
  }

  ghost predicate EventsWellFormed(cfg: Config, events: seq<Event>)
  {
    forall i :: 0 <= i < |events| ==>
      match events[i]
      case Created(_, cells) => AllInit(cells)
      case Completed(job) => WellFormed(cfg, job)
  }

  lemma {:induction false} LedgerIsClean(cfg: Config, initial: Store, events: seq<Event>)
    requires NoDuplicates(cfg.order) && WellBehaved(cfg.prov) && Clean(initial)
    requires EventsWellFormed(cfg, events)
    ensures Clean(Ledger(cfg, initial, events))
  {
    if events != [] {
      var front, last := events[..|events| - 1], events[|events| - 1];
      LedgerIsClean(cfg, initial, front);
      var before := Ledger(cfg, initial, front);
      assert events[|events| - 1] == last;
      match last
      case Created(id, cells) =>
      case Completed(job) =>
        var id := job.target.id;
        assert NoneDeleted(SlotOf(before, id));
        DeletionsComplete(cfg, job, SlotOf(before, id));
        forall other | other in Apply(cfg, before, last)
          ensures NoneDeleted(Some(Apply(cfg, before, last)[other]))
        {
          PutGet(before, id, Final(cfg, job, SlotOf(before, id)), other);
          assert SlotOf(Apply(cfg, before, last), other) == Some(Apply(cfg, before, last)[other]);
        }
    }
  }

  lemma {:induction false} RunEvents(cfg: Config, run: seq<System>)
    requires IsRun(cfg, run)
    ensures EventsWellFormed(cfg, run[|run| - 1].events)
    ensures QueueWellFormed(cfg, run[|run| - 1])
  {
    if |run| > 1 {
      RunEvents(cfg, run[..|run| - 1]);
      EventsKeep(cfg, run[|run| - 2], run[|run| - 1]);
    }
  }

  lemma EventsKeep(cfg: Config, s: System, t: System)
    requires EventsWellFormed(cfg, s.events) && QueueWellFormed(cfg, s) && Next(cfg, s, t)
    ensures EventsWellFormed(cfg, t.events) && QueueWellFormed(cfg, t)
  {
    QueueKeeps(cfg, s, t);
  }

  /** Over every run from a store without deleted records: whenever the head job has not been
      started, no deployment of the store holds a deleted record. */
  lemma NoDeletedRecordSurvives(cfg: Config, run: seq<System>)
    requires NoDuplicates(cfg.order) && WellBehaved(cfg.prov) && IsRun(cfg, run)
    requires Clean(run[0].store)
    ensures !run[|run| - 1].begun ==> Clean(run[|run| - 1].store)
  {
    RunKeeps(cfg, run);
    RunEvents(cfg, run);
    LedgerIsClean(cfg, run[0].store, run[|run| - 1].events);
  }
}
