/** The engine itself (pkg/provision/engine.go): methods that change the store and the queue step by
    step, proved against the effects of the module `Jobs`. */
module Engine {
  import opened Workloads
  import opened Outcomes
  import opened Plans
  import opened Sorting
  import opened Jobs
  import opened Replay
  import opened Runs
  import opened Boot
  import opened Storage
  import opened Folds

  /** What the engine acts on: the store, every durable state so far, and the provisioner calls. */
  datatype Machine = Machine(records: Records, trail: seq<Written>, calls: seq<Call>)

  function Tagged(id: DlId, writes: seq<Slot>): seq<Written>
  {
    seq(|writes|, i requires 0 <= i < |writes| => Written(id, writes[i]))
  }

  function Perform(m: Machine, id: DlId, e: Effect<Slot>): Machine
  {
    Machine(PutIn(m.records, id, After(SlotIn(m.records, id), e)), m.trail + Tagged(id, e.writes), m.calls + e.calls)
  }

  lemma PerformNothing(m: Machine, id: DlId)
    ensures Perform(m, id, NoEffect()) == m
  {}

  lemma PutTwice(records: Records, id: DlId, a: Slot, b: Slot)
    requires id in records && a.Some?
    ensures PutIn(PutIn(records, id, a), id, b) == PutIn(records, id, b)
  {}

  lemma SetTwice(cells: Cells, n: Name, a: Workload, b: Cell)
    ensures SetCell(SetCell(cells, n, Some(a)), n, b) == SetCell(cells, n, b)
  {}

  lemma TaggedShort(id: DlId, a: Slot, b: Slot)
    ensures Tagged(id, [a]) == [Written(id, a)]
    ensures Tagged(id, [a, b]) == [Written(id, a), Written(id, b)]
    ensures Tagged(id, []) == []
  {}

  /** One effect after another is their composition, provided neither writes to a deployment it
      does not find. */
  lemma PerformThen(m: Machine, id: DlId, a: Effect<Slot>, b: Effect<Slot>)
    requires id in m.records || After(None, a) == None
    requires After(SlotIn(m.records, id), a) == None ==> After(None, b) == None
    ensures Perform(Perform(m, id, a), id, b) == Perform(m, id, Then(a, b))
    ensures SlotIn(Perform(m, id, a).records, id) == After(SlotIn(m.records, id), a)
  {
    var slot := SlotIn(m.records, id);
    assert Tagged(id, a.writes + b.writes) == Tagged(id, a.writes) + Tagged(id, b.writes);
    ThenPoints(slot, a, b, |Then(a, b).writes|);
  }

  /** One step of a job. */
  function Act(p: Provisioner, m: Machine, id: DlId, step: Step): Machine
  {
    Perform(m, id, StepEffect(p, id, step, SlotIn(m.records, id)))
  }

  predicate ActFails(p: Provisioner, m: Machine, id: DlId, step: Step)
  {
    StepEffect(p, id, step, SlotIn(m.records, id)).failed
  }

  function Acting(p: Provisioner, id: DlId): (Machine, Step) -> Machine { (m, step) => Act(p, m, id, step) }

  function Failing(p: Provisioner, id: DlId): (Machine, Step) -> bool { (m, step) => ActFails(p, m, id, step) }

  /** Steps one after the other, each on the machine the previous one left. */
  function ActAll(p: Provisioner, m: Machine, id: DlId, steps: seq<Step>): Machine
  {
    Fold(Acting(p, id), m, steps)
  }

  predicate AnyFails(p: Provisioner, m: Machine, id: DlId, steps: seq<Step>)
  {
    AnyBad(Acting(p, id), Failing(p, id), m, steps)
  }

  lemma ActAllMore(p: Provisioner, m: Machine, id: DlId, steps: seq<Step>, s: Step)
    ensures ActAll(p, m, id, steps + [s]) == Act(p, ActAll(p, m, id, steps), id, s)
    ensures AnyFails(p, m, id, steps + [s]) ==
      (AnyFails(p, m, id, steps) || ActFails(p, ActAll(p, m, id, steps), id, s))
  {
    FoldMore(Acting(p, id), Failing(p, id), m, steps, s);
  }

  lemma ActAllAppend(p: Provisioner, m: Machine, id: DlId, xs: seq<Step>, ys: seq<Step>)
    ensures ActAll(p, ActAll(p, m, id, xs), id, ys) == ActAll(p, m, id, xs + ys)
    ensures AnyFails(p, m, id, xs + ys) == (AnyFails(p, m, id, xs) || AnyFails(p, ActAll(p, m, id, xs), id, ys))
  {
    FoldAppend(Acting(p, id), Failing(p, id), m, xs, ys);
  }

  lemma StepsOfParts(a: seq<Workload>, b: seq<Workload>, reason: string, lock: bool)
    ensures Installs(a + b) == Installs(a) + Installs(b)
    ensures Uninstalls(a + b, reason) == Uninstalls(a, reason) + Uninstalls(b, reason)
    ensures Locks(a + b, lock) == Locks(a, lock) + Locks(b, lock)
  {}

  lemma StepsMore(ws: seq<Workload>, j: nat, reason: string, lock: bool)
    requires j < |ws|
    ensures Installs(ws[..j + 1]) == Installs(ws[..j]) + [Install(ws[j])]
    ensures Uninstalls(ws[..j + 1], reason) == Uninstalls(ws[..j], reason) + [Uninstall(ws[j], reason)]
    ensures Locks(ws[..j + 1], lock) == Locks(ws[..j], lock) + [if lock then Lock(ws[j]) else Unlock(ws[j])]
  {}

  lemma OpStepsMore(ops: seq<UpgradeOp>, i: nat)
    requires i < |ops|
    ensures OpSteps(ops[..i + 1]) == OpSteps(ops[..i]) + [OpStep(ops[i])]
  {}

  lemma InstallMore(p: Provisioner, m: Machine, id: DlId, sizes: Sizes, order: seq<WorkloadType>, ws: seq<Workload>,
                    i: nat)
    requires i < |order|
    ensures var plan, group := InstallPlan(sizes, order[..i], ws), InstallGroup(sizes, ws, order[i]);
      ActAll(p, ActAll(p, m, id, Installs(plan)), id, Installs(group))
      == ActAll(p, m, id, Installs(InstallPlan(sizes, order[..i + 1], ws)))
  {
    var plan, group := InstallPlan(sizes, order[..i], ws), InstallGroup(sizes, ws, order[i]);
    ActAllAppend(p, m, id, Installs(plan), Installs(group));
    StepsOfParts(plan, group, "", false);
    assert order[..i + 1] == order[..i] + [order[i]];
    InstallPlanSnoc(sizes, order[..i], order[i], ws);
  }

  lemma UninstallMore(p: Provisioner, m: Machine, id: DlId, order: seq<WorkloadType>, ws: seq<Workload>, i: nat,
                      reason: string)
    requires i < |order|
    ensures var steps := Uninstalls(DownPlan(order[i + 1..], ws), reason);
      var group := Uninstalls(ByType(ws, order[i]), reason);
      var all := Uninstalls(DownPlan(order[i..], ws), reason);
      && ActAll(p, ActAll(p, m, id, steps), id, group) == ActAll(p, m, id, all)
      && (AnyFails(p, m, id, all) <==> AnyFails(p, m, id, steps) || AnyFails(p, ActAll(p, m, id, steps), id, group))
  {
    var plan, group := DownPlan(order[i + 1..], ws), ByType(ws, order[i]);
    ActAllAppend(p, m, id, Uninstalls(plan, reason), Uninstalls(group, reason));
    StepsOfParts(plan, group, reason, false);
    assert order[i..] == [order[i]] + order[i + 1..];
    DownPlanCons(order[i], order[i + 1..], ws);
  }

  lemma LockMore(p: Provisioner, m: Machine, id: DlId, order: seq<WorkloadType>, ws: seq<Workload>, i: nat)
    requires i < |order|
    ensures var plan, group := DownPlan(order[i + 1..], ws), ByType(ws, order[i]);
      ActAll(p, ActAll(p, m, id, Locks(plan, true)), id, Locks(group, true))
      == ActAll(p, m, id, Locks(DownPlan(order[i..], ws), true))
  {
    var plan, group := DownPlan(order[i + 1..], ws), ByType(ws, order[i]);
    ActAllAppend(p, m, id, Locks(plan, true), Locks(group, true));
    StepsOfParts(plan, group, "", true);
    assert order[i..] == [order[i]] + order[i + 1..];
    DownPlanCons(order[i], order[i + 1..], ws);
  }

  lemma UnlockMore(p: Provisioner, m: Machine, id: DlId, order: seq<WorkloadType>, ws: seq<Workload>, i: nat)
    requires i < |order|
    ensures var plan, group := UpPlan(order[..i], ws), ByType(ws, order[i]);
      ActAll(p, ActAll(p, m, id, Locks(plan, false)), id, Locks(group, false))
      == ActAll(p, m, id, Locks(UpPlan(order[..i + 1], ws), false))
  {
    var plan, group := UpPlan(order[..i], ws), ByType(ws, order[i]);
    ActAllAppend(p, m, id, Locks(plan, false), Locks(group, false));
    StepsOfParts(plan, group, "", false);
    assert order[..i + 1] == order[..i] + [order[i]];
    UpPlanSnoc(order[..i], order[i], ws);
  }

  /** Running the steps one after the other performs exactly the effect of the steps. */
  lemma {:induction false} ActAllPerforms(p: Provisioner, m: Machine, id: DlId, steps: seq<Step>)
    ensures var e := StepsEffect(p, id, steps, SlotIn(m.records, id));
      && ActAll(p, m, id, steps) == Perform(m, id, e)
      && AnyFails(p, m, id, steps) == e.failed
      && SlotIn(Perform(m, id, e).records, id) == After(SlotIn(m.records, id), e)
  {
    var slot := SlotIn(m.records, id);
    if steps == [] {
      PerformNothing(m, id);
    } else {
      var front, s := steps[..|steps| - 1], steps[|steps| - 1];
      assert steps == front + [s];
      ActAllMore(p, m, id, front, s);
      ActAllPerforms(p, m, id, front);
      var e := StepsEffect(p, id, front, slot);
      StepsOnNothing(p, id, front);
      StepsAppend(p, id, front, [s], slot);
      OneStep(p, id, s, After(slot, e));
      PerformThen(m, id, e, StepEffect(p, id, s, After(slot, e)));
      PerformSlot(m, id, Then(e, StepEffect(p, id, s, After(slot, e))));
    }
  }

  lemma PerformSlot(m: Machine, id: DlId, e: Effect<Slot>)
    requires id in m.records || After(None, e) == None
    ensures SlotIn(Perform(m, id, e).records, id) == After(SlotIn(m.records, id), e)
  {}

  lemma DeleteLast(m: Machine, id: DlId, e: Effect<Slot>)
    ensures var r := Perform(m, id, e);
      Perform(m, id, Effect(e.writes + [None], e.calls, false))
      == Machine(PutIn(r.records, id, None), r.trail + [Written(id, None)], r.calls)
  {
    assert Tagged(id, e.writes + [None]) == Tagged(id, e.writes) + [Written(id, None)];
  }

  /** The upgrade of an update job exists, and every workload it updates in place is of a type that
      can be updated. */
  ghost predicate Supported(cfg: Config, job: Job)
  {
    && job.Update?
    && var ops := cfg.upgrade(job.source, job.target);
    && ops.Some?
    && forall op :: op in ops.value && op.Change? ==> cfg.prov.canUpdate(op.wl.typ)
  }

  datatype Reply = Accepted | InvalidVersion | AlreadyExists | NotFound | BadUpgrade | UnsupportedUpdate

  /** What the update call answers, given the copy of the stored deployment it works on. */
  ghost function Verdict(cfg: Config, src: Deployment, update: Deployment): Reply
  {
    if cfg.upgrade(src, update).None? then BadUpgrade
    else if Supported(cfg, Job.Update(src, update)) then Accepted
    else UnsupportedUpdate
  }

  /** A job the update call accepted never reaches the branch of `updateWorkload` for types that
      cannot be updated. */
  lemma UnsupportedIsUnreachable(cfg: Config, job: Job, i: nat)
    requires Supported(cfg, job) && i < |StepsOf(cfg, job)| && StepsOf(cfg, job)[i].Change?
    ensures cfg.prov.canUpdate(StepsOf(cfg, job)[i].wl.typ)
  {
    var ops := cfg.upgrade(job.source, job.target).value;
    var sorted := SortOps(cfg.index, ops);
    SortPermutes(ByKey(KeyOfOp(cfg.index)), ops);
    assert sorted[i] in multiset(sorted);
  }

  class NativeEngine {
    const storage: DeploymentStorage
    const queue: JobQueue
    const prov: Provisioner
    const sizes: Sizes
    const upgrade: (Deployment, Deployment) -> Option<seq<UpgradeOp>>
    const check: Job -> Option<string>
    const active: Cells -> bool
    var order: seq<WorkloadType>
    var typeIndex: map<WorkloadType, int>
    ghost var calls: seq<Call>

    constructor (storage: DeploymentStorage, queue: JobQueue, prov: Provisioner, types: seq<WorkloadType>,
                 sizes: Sizes, upgrade: (Deployment, Deployment) -> Option<seq<UpgradeOp>>,
                 check: Job -> Option<string>, active: Cells -> bool)
      ensures this.storage == storage && this.queue == queue && this.prov == prov && this.sizes == sizes
      ensures this.upgrade == upgrade && this.check == check && this.active == active
      ensures order == types && typeIndex == map[] && calls == []
    {
      this.storage, this.queue, this.prov, this.sizes := storage, queue, prov, sizes;
      this.upgrade, this.check, this.active := upgrade, check, active;
      order, typeIndex, calls := types, map[], [];
    }

    ghost function Cfg(): Config
      reads this
    {
      Config(prov, order, typeIndex, sizes, upgrade, check)
    }

    ghost function State(): Machine
      reads this, storage
    {
      Machine(storage.records, storage.trail, calls)
    }

    ghost function SlotAt(id: DlId): Slot
      reads this, storage
    {
      SlotIn(storage.records, id)
    }

    // ---------- startup order ----------

    /** `WithStartupOrder`: requested types first, the other registered types in any order. Panics,
        here `ok` is false, exactly if a requested type is not registered or requested twice. */
    method ApplyStartupOrder(requested: seq<WorkloadType>) returns (ok: bool)
      modifies this`order, this`typeIndex
      ensures ok <==> (NoDuplicates(requested) && forall t :: t in requested ==> t in old(order))
      ensures ok ==> StartupOrder(requested, (set t | t in old(order)), order, typeIndex)
    {
      var all := set t | t in order;
      ghost var registered := all;
      var ordered: seq<WorkloadType> := [];
      for i := 0 to |requested|
        invariant ordered == requested[..i] && NoDuplicates(ordered)
        invariant forall t :: t in ordered ==> t in registered
        invariant all == registered - (set t | t in ordered)
        invariant Indexed(ordered, typeIndex)
        invariant order == old(order)
      {
        var typ := requested[i];
        if typ !in all {
          if typ in registered {
            var k :| 0 <= k < |ordered| && ordered[k] == typ;
            assert requested[k] == requested[i];
          } else {
            assert typ in requested && typ !in old(order);
          }
          return false;
        }
        all := all - {typ};
        ghost var was := ordered;
        ordered := ordered + [typ];
        typeIndex := typeIndex[typ := |ordered|];
        assert forall t :: t in ordered <==> t in was || t == typ;
      }
      assert requested[..|requested|] == requested;
      while all != {}
        invariant requested <= ordered && NoDuplicates(ordered)
        invariant forall t :: t in ordered ==> t in registered
        invariant all == registered - (set t | t in ordered)
        invariant Indexed(ordered, typeIndex)
        decreases all
      {
        var typ :| typ in all;
        all := all - {typ};
        ghost var was := ordered;
        ordered := ordered + [typ];
        typeIndex := typeIndex[typ := |ordered|];
        assert forall t :: t in ordered <==> t in was || t == typ;
      }
      forall t ensures t in ordered <==> t in registered {
        assert t !in all;
      }
      order := ordered;
      ok := true;
    }

    // ---------- one workload ----------

    method InstallWorkload(id: DlId, w: Workload) returns (failed: bool)
      requires storage.Valid()
      modifies storage, this`calls
      ensures storage.Valid()
      ensures State() == Act(prov, old(State()), id, Install(w))
      ensures failed == ActFails(prov, old(State()), id, Install(w))
    {
      var current := storage.Current(id, w.name);
      if current.NoDeployment? {
        return true;
      }
      ghost var e := StepEffect(prov, id, Install(w), SlotAt(id));
      ghost var before := storage.records;
      ghost var cells := before[id].cells;
      if current.NoWorkload? {
        var ok := storage.Add(id, w);
        PutTwice(before, id, e.writes[0], e.writes[|e.writes| - 1]);
        TaggedShort(id, e.writes[0], e.writes[|e.writes| - 1]);
      } else if current.value.result.state == Deleted || current.value.result.state == Error {
        PerformNothing(State(), id);
        return false;
      }
      var outcome := prov.provision(id, w);
      calls := calls + [ProvisionCall(id, w)];
      var result;
      match outcome {
        case NoAction =>
          PerformNothing(State(), id);
          return false;
        case Done(r) => result := r;
        case Failed(partial, error) => result := partial.(state := Error, error := error);
      }
      SetTwice(cells, w.name, w.WithResults(InitResult()), Some(w.WithResults(result)));
      TaggedShort(id, e.writes[0], e.writes[|e.writes| - 1]);
      var ok := storage.Transaction(id, w.WithResults(result));
      failed := !ok;
    }

    method UninstallWorkload(id: DlId, w: Workload, reason: string) returns (failed: bool)
      requires storage.Valid()
      modifies storage, this`calls
      ensures storage.Valid()
      ensures State() == Act(prov, old(State()), id, Uninstall(w, reason))
      ensures failed == ActFails(prov, old(State()), id, Uninstall(w, reason))
    {
      var current := storage.Current(id, w.name);
      if current.NoWorkload? {
        return false;
      }
      if current.NoDeployment? {
        return true;
      }
      ghost var e := StepEffect(prov, id, Uninstall(w, reason), SlotAt(id));
      ghost var before := storage.records;
      var result := Result(Deleted, reason, "");
      var err := prov.deprovision(id, w);
      calls := calls + [DeprovisionCall(id, w)];
      if err.Some? {
        result := Result(Error, err.value, "");
      }
      var ok := storage.Transaction(id, w.WithResults(result));
      if !ok {
        return true;
      }
      if result.state == Deleted {
        PutTwice(before, id, e.writes[0], e.writes[1]);
        SetTwice(before[id].cells, w.name, w.WithResults(result), None);
        ok := storage.Remove(id, w.name);
      }
      TaggedShort(id, e.writes[0], e.writes[|e.writes| - 1]);
      failed := !ok;
    }

    method UpdateWorkload(id: DlId, w: Workload) returns (failed: bool)
      requires storage.Valid()
      modifies storage, this`calls
      ensures storage.Valid()
      ensures State() == Act(prov, old(State()), id, Step.Change(w))
      ensures failed == ActFails(prov, old(State()), id, Step.Change(w))
    {
      if !prov.canUpdate(w.typ) {
        return true;
      }
      var outcome := prov.update(id, w);
      calls := calls + [UpdateCall(id, w)];
      var result;
      match outcome {
        case NoAction =>
          var current := storage.Current(id, w.name);
          if !current.Found? {
            return true;
          }
          result := current.value.result;
        case Failed(_, _) => return true;
        case Done(r) => result := r;
      }
      var ok := storage.Transaction(id, w.WithResults(result));
      failed := !ok;
    }

    method LockWorkload(id: DlId, w: Workload, lock: bool) returns (failed: bool)
      requires storage.Valid()
      modifies storage, this`calls
      ensures storage.Valid()
      ensures var step := if lock then Lock(w) else Unlock(w);
        State() == Act(prov, old(State()), id, step) && failed == ActFails(prov, old(State()), id, step)
    {
      var current := storage.Current(id, w.name);
      if !current.Found? {
        return true;
      }
      if !current.value.result.state.IsOkay() {
        return false;
      }
      var outcome := if lock then prov.pause(id, w) else prov.resume(id, w);
      calls := calls + [if lock then PauseCall(id, w) else ResumeCall(id, w)];
      match outcome {
        case NoAction => failed := false;
        case Failed(_, _) => failed := true;
        case Done(result) =>
          var ok := storage.Transaction(id, w.WithResults(result));
          failed := !ok;
      }
    }

    // ---------- one deployment ----------

    method SortMountWorkloads(workloads: array<Workload>)
      modifies workloads
      ensures workloads[..] == SortMounts(sizes, old(workloads[..]))
    {
      InsertionSort(workloads, (x, y) => LargerMount(sizes, x, y));
    }

    method InstallAll(id: DlId, workloads: seq<Workload>)
      requires storage.Valid()
      modifies storage, this`calls
      ensures storage.Valid()
      ensures State() == ActAll(prov, old(State()), id, Installs(workloads))
    {
      ghost var m := State();
      for j := 0 to |workloads|
        invariant storage.Valid()
        invariant State() == ActAll(prov, m, id, Installs(workloads[..j]))
      {
        ActAllMore(prov, m, id, Installs(workloads[..j]), Install(workloads[j]));
        var failed := InstallWorkload(id, workloads[j]);
        StepsMore(workloads, j, "", false);
      }
      assert workloads[..|workloads|] == workloads;
    }

    method UninstallAll(id: DlId, workloads: seq<Workload>, reason: string) returns (errors: bool)
      requires storage.Valid()
      modifies storage, this`calls
      ensures storage.Valid()
      ensures State() == ActAll(prov, old(State()), id, Uninstalls(workloads, reason))
      ensures errors == AnyFails(prov, old(State()), id, Uninstalls(workloads, reason))
    {
      ghost var m := State();
      errors := false;
      for j := 0 to |workloads|
        invariant storage.Valid()
        invariant State() == ActAll(prov, m, id, Uninstalls(workloads[..j], reason))
        invariant errors == AnyFails(prov, m, id, Uninstalls(workloads[..j], reason))
      {
        ActAllMore(prov, m, id, Uninstalls(workloads[..j], reason), Uninstall(workloads[j], reason));
        var failed := UninstallWorkload(id, workloads[j], reason);
        if failed {
          errors := true;
        }
        StepsMore(workloads, j, reason, false);
      }
      assert workloads[..|workloads|] == workloads;
    }

    method LockAll(id: DlId, workloads: seq<Workload>, lock: bool)
      requires storage.Valid()
      modifies storage, this`calls
      ensures storage.Valid()
      ensures State() == ActAll(prov, old(State()), id, Locks(workloads, lock))
    {
      ghost var m := State();
      for j := 0 to |workloads|
        invariant storage.Valid()
        invariant State() == ActAll(prov, m, id, Locks(workloads[..j], lock))
      {
        ghost var step := if lock then Lock(workloads[j]) else Unlock(workloads[j]);
        ActAllMore(prov, m, id, Locks(workloads[..j], lock), step);
        var failed := LockWorkload(id, workloads[j], lock);
        StepsMore(workloads, j, "", lock);
      }
      assert workloads[..|workloads|] == workloads;
    }

    method WorkloadsToInstall(d: Deployment, typ: WorkloadType) returns (workloads: seq<Workload>)
      ensures workloads == InstallGroup(sizes, d.workloads, typ)
    {
      workloads := ByType(d.workloads, typ);
      if IsMount(typ) {
        var a := new Workload[|workloads|](k requires 0 <= k < |workloads| => workloads[k]);
        assert a[..] == workloads;
        SortMountWorkloads(a);
        workloads := a[..];
      }
    }

    method InstallDeployment(d: Deployment)
      requires storage.Valid()
      modifies storage, this`calls
      ensures storage.Valid()
      ensures State() == ActAll(prov, old(State()), d.id, Installs(InstallPlan(sizes, order, d.workloads)))
    {
      ghost var m, ws := State(), d.workloads;
      for i := 0 to |order|
        invariant storage.Valid()
        invariant State() == ActAll(prov, m, d.id, Installs(InstallPlan(sizes, order[..i], ws)))
      {
        var workloads := WorkloadsToInstall(d, order[i]);
        InstallAll(d.id, workloads);
        InstallMore(prov, m, d.id, sizes, order, ws, i);
      }
      assert order[..|order|] == order;
    }

    method UninstallDeployment(d: Deployment, reason: string)
      requires storage.Valid()
      modifies storage, this`calls
      ensures storage.Valid()
      ensures var steps := Uninstalls(DownPlan(order, d.workloads), reason);
        var m := ActAll(prov, old(State()), d.id, steps);
        State() == if AnyFails(prov, old(State()), d.id, steps) then m
                   else Machine(PutIn(m.records, d.id, None), m.trail + [Written(d.id, None)], m.calls)
    {
      ghost var m, ws := State(), d.workloads;
      var errors := false;
      for i := |order| downto 0
        invariant storage.Valid()
        invariant State() == ActAll(prov, m, d.id, Uninstalls(DownPlan(order[i..], ws), reason))
        invariant errors == AnyFails(prov, m, d.id, Uninstalls(DownPlan(order[i..], ws), reason))
      {
        var typ := order[i];
        var failed := UninstallAll(d.id, ByType(d.workloads, typ), reason);
        errors := errors || failed;
        UninstallMore(prov, m, d.id, order, ws, i, reason);
      }
      assert order[0..] == order;
      if errors {
        return;
      }
      storage.Delete(d.id);
    }

    method LockDeployment(d: Deployment)
      requires storage.Valid()
      modifies storage, this`calls
      ensures storage.Valid()
      ensures State() == ActAll(prov, old(State()), d.id, Locks(DownPlan(order, d.workloads), true))
    {
      ghost var m, ws := State(), d.workloads;
      for i := |order| downto 0
        invariant storage.Valid()
        invariant State() == ActAll(prov, m, d.id, Locks(DownPlan(order[i..], ws), true))
      {
        var typ := order[i];
        LockAll(d.id, ByType(d.workloads, typ), true);
        LockMore(prov, m, d.id, order, ws, i);
      }
      assert order[0..] == order;
    }

    method UnlockDeployment(d: Deployment)
      requires storage.Valid()
      modifies storage, this`calls
      ensures storage.Valid()
      ensures State() == ActAll(prov, old(State()), d.id, Locks(UpPlan(order, d.workloads), false))
    {
      ghost var m, ws := State(), d.workloads;
      for i := 0 to |order|
        invariant storage.Valid()
        invariant State() == ActAll(prov, m, d.id, Locks(UpPlan(order[..i], ws), false))
      {
        var typ := order[i];
        LockAll(d.id, ByType(d.workloads, typ), false);
        UnlockMore(prov, m, d.id, order, ws, i);
      }
      assert order[..|order|] == order;
    }

    method SortOperations(ops: array<UpgradeOp>)
      modifies ops
      ensures ops[..] == SortOps(typeIndex, old(ops[..]))
    {
      InsertionSort(ops, ByKey(KeyOfOp(typeIndex)));
    }

    method UpdateDeployment(id: DlId, update: seq<UpgradeOp>)
      requires storage.Valid()
      modifies storage, this`calls
      ensures storage.Valid()
      ensures State() == ActAll(prov, old(State()), id, OpSteps(SortOps(typeIndex, update)))
    {
      var ops := new UpgradeOp[|update|](k requires 0 <= k < |update| => update[k]);
      assert ops[..] == update;
      SortOperations(ops);
      var sorted := ops[..];
      ghost var m := State();
      for i := 0 to |sorted|
        invariant storage.Valid()
        invariant State() == ActAll(prov, m, id, OpSteps(sorted[..i]))
      {
        OpStepsMore(sorted, i);
        ActAllMore(prov, m, id, OpSteps(sorted[..i]), OpStep(sorted[i]));
        var failed: bool;
        match sorted[i] {
          case Remove(w) => failed := UninstallWorkload(id, w, "deleted by an update");
          case Add(w) => failed := InstallWorkload(id, w);
          case Change(w) => failed := UpdateWorkload(id, w);
        }
      }
      assert sorted[..|sorted|] == sorted;
    }

    // ---------- the API ----------

    /** Nothing durable has changed. */
    twostate predicate Untouched()
      reads this, storage, queue
    {
      State() == old(State()) && queue.jobs == old(queue.jobs)
    }

    /** `Provision`: store the deployment, then queue it. */
    method Provision(d: Deployment) returns (r: Reply)
      requires storage.Valid()
      modifies storage, queue
      ensures storage.Valid()
      ensures r == if d.header.version != 0 then InvalidVersion
                   else if d.id in old(storage.records) then AlreadyExists else Accepted
      ensures r != Accepted ==> Untouched()
      ensures r == Accepted ==>
        && queue.jobs == old(queue.jobs) + [Job.Provision(d)]
        && storage.records == old(storage.records)[d.id := Storage.Record(d.header, Initial(d.workloads))]
        && AllInit(storage.records[d.id].cells)
    {
      if d.header.version != 0 {
        return InvalidVersion;
      }
      var ok := storage.Create(d);
      if !ok {
        return AlreadyExists;
      }
      InitialIsInit(d.workloads);
      queue.Enqueue(Job.Provision(d));
      r := Accepted;
    }

    method Pause(id: DlId) returns (r: Reply)
      requires storage.Valid()
      modifies queue
      ensures r == if id in storage.records then Accepted else NotFound
      ensures r != Accepted ==> Untouched()
      ensures r == Accepted ==>
        exists d :: IsCopy(storage.records, id, d) && queue.jobs == old(queue.jobs) + [Job.Pause(d)]
    {
      var d := storage.Get(id);
      if d.None? {
        return NotFound;
      }
      queue.Enqueue(Job.Pause(d.value));
      r := Accepted;
    }

    method Resume(id: DlId) returns (r: Reply)
      requires storage.Valid()
      modifies queue
      ensures r == if id in storage.records then Accepted else NotFound
      ensures r != Accepted ==> Untouched()
      ensures r == Accepted ==>
        exists d :: IsCopy(storage.records, id, d) && queue.jobs == old(queue.jobs) + [Job.Resume(d)]
    {
      var d := storage.Get(id);
      if d.None? {
        return NotFound;
      }
      queue.Enqueue(Job.Resume(d.value));
      r := Accepted;
    }

    method Deprovision(id: DlId, reason: string) returns (r: Reply)
      requires storage.Valid()
      modifies queue
      ensures r == if id in storage.records then Accepted else NotFound
      ensures r != Accepted ==> Untouched()
      ensures r == Accepted ==> exists d ::
        IsCopy(storage.records, id, d) && queue.jobs == old(queue.jobs) + [Job.Deprovision(d, reason)]
    {
      var d := storage.Get(id);
      if d.None? {
        return NotFound;
      }
      queue.Enqueue(Job.Deprovision(d.value, reason));
      r := Accepted;
    }

    /** `Update`: refuse what the upgrade cannot do, store the new header, queue the difference
        between the stored deployment and the new one. */
    method Update(update: Deployment) returns (r: Reply)
      requires storage.Valid()
      modifies storage, queue
      ensures storage.Valid()
      ensures r == NotFound <==> update.id !in old(storage.records)
      ensures r != Accepted ==> Untouched()
      ensures r != NotFound ==> exists src ::
        && IsCopy(old(storage.records), update.id, src)
        && r == Verdict(Cfg(), src, update)
        && (r == Accepted ==> queue.jobs == old(queue.jobs) + [Job.Update(src, update)])
      ensures r == Accepted ==>
        var cells := old(storage.records)[update.id].cells;
        storage.records == old(storage.records)[update.id := Storage.Record(update.header, cells)]
    {
      var d := storage.Get(update.id);
      if d.None? {
        return NotFound;
      }
      var upgrades := upgrade(d.value, update);
      if upgrades.None? {
        return BadUpgrade;
      }
      for i := 0 to |upgrades.value|
        invariant forall j :: 0 <= j < i && upgrades.value[j].Change? ==> prov.canUpdate(upgrades.value[j].wl.typ)
      {
        var op := upgrades.value[i];
        if op.Change? && !prov.canUpdate(op.wl.typ) {
          assert !Supported(Cfg(), Job.Update(d.value, update));
          return UnsupportedUpdate;
        }
      }
      var header := d.value.header.(version := update.header.version, signature := update.header.signature);
      if d.value.header.description != update.header.description {
        header := header.(description := update.header.description);
      }
      if d.value.header.metadata != update.header.metadata {
        header := header.(metadata := update.header.metadata);
      }
      assert Supported(Cfg(), Job.Update(d.value, update));
      var ok := storage.Update(update.id, header);
      queue.Enqueue(Job.Update(d.value, update));
      r := Accepted;
    }

    // ---------- the loop ----------

    /** One round of `Run`: peek the head, validate it, carry it out, drop it, and tell the callback.
        A job that fails validation marks its deployment and is dropped without telling anyone. */
    method RunOnce(dequeueFails: bool) returns (notified: Option<(DlId, bool)>)
      requires storage.Valid() && queue.jobs != []
      modifies storage, queue, this`calls
      ensures storage.Valid()
      ensures var job := old(queue.jobs[0]);
        && State() == Perform(old(State()), job.target.id, JobEffect(old(Cfg()), job, old(SlotAt(job.target.id))))
        && notified == (if (job.Provision? || job.Reinstall? || job.Update?) && old(Cfg()).check(job).Some? then None
                        else Some((job.target.id, job.Deprovision?)))
      ensures queue.jobs == if dequeueFails then old(queue.jobs) else old(queue.jobs)[1..]
    {
      var job := queue.PeekBlock();
      var id := job.target.id;
      ghost var m := State();
      PerformNothing(m, id);
      if job.Provision? || job.Update? || job.Reinstall? {
        var err := check(job);
        if err.Some? {
          var ok := storage.Error(id, err.value);
          if ok { TaggedShort(id, MarkError(SlotIn(m.records, id), err.value), None); }
          queue.Dequeue(dequeueFails);
          return None;
        }
      }
      ActAllPerforms(prov, m, id, StepsOf(Cfg(), job));
      match job {
        case Reinstall(d) => InstallDeployment(d);
        case Provision(d) => InstallDeployment(d);
        case Deprovision(d, reason) =>
          UninstallDeployment(d, reason);
          DeleteLast(m, id, StepsEffect(prov, id, StepsOf(Cfg(), job), SlotIn(m.records, id)));
        case Pause(d) => LockDeployment(d);
        case Resume(d) => UnlockDeployment(d);
        case Update(source, d) =>
          var ops := upgrade(source, d);
          if ops.Some? {
            UpdateDeployment(d.id, ops.value);
          }
      }
      queue.Dequeue(dequeueFails);
      notified := Some((id, job.Deprovision?));
    }

    /** `boot`: queue a reinstall of every active stored deployment. */
    method RunBoot()
      requires storage.Valid()
      modifies queue
      ensures exists jobs :: queue.jobs == old(queue.jobs) + jobs && Booted(active, Cellular(storage.records), jobs)
    {
      ghost var was, jobs := queue.jobs, [];
      var twins := storage.Twins();
      for i := 0 to |twins|
        invariant Booting(was, jobs, OfTwins(storage.records, twins[..i]))
      {
        jobs := BootTwin(twins[i], was, jobs, OfTwins(storage.records, twins[..i]));
        assert twins[..i + 1] == twins[..i] + [twins[i]];
        assert OfTwins(storage.records, twins[..i + 1])
            == OfTwins(storage.records, twins[..i]) + OfTwins(storage.records, [twins[i]]);
      }
      assert OfTwins(storage.records, twins[..|twins|]) == storage.records.Keys;
    }

    /** The deployments of one twin. */
    method BootTwin(twin: nat, ghost was: seq<Job>, ghost jobs: seq<Job>,
                    ghost done: set<DlId>) returns (ghost more: seq<Job>)
      requires storage.Valid() && Booting(was, jobs, done) && done !! OfTwins(storage.records, [twin])
      modifies queue
      ensures Booting(was, more, done + OfTwins(storage.records, [twin]))
    {
      more := jobs;
      ghost var now := done;
      var ids := storage.ByTwin(twin);
      for j := 0 to |ids|
        invariant Booting(was, more, now)
        invariant forall id :: id in now <==> id in done || (id.twin == twin && id.contract in ids[..j])
      {
        assert DlId(twin, ids[j]) in OfTwins(storage.records, [twin]);
        more := BootOne(DlId(twin, ids[j]), was, more, now);
        now := now + {DlId(twin, ids[j])};
        assert ids[..j + 1] == ids[..j] + [ids[j]];
      }
      assert now == done + OfTwins(storage.records, [twin]) by {
        forall id ensures id in now <==> id in done || id in OfTwins(storage.records, [twin]) {
          assert id == DlId(id.twin, id.contract) && ids[..|ids|] == ids;
        }
      }
    }

    method BootOne(id: DlId, ghost was: seq<Job>, ghost jobs: seq<Job>,
                   ghost done: set<DlId>) returns (ghost more: seq<Job>)
      requires storage.Valid() && Booting(was, jobs, done) && id in storage.records && id !in done
      modifies queue
      ensures Booting(was, more, done + {id})
    {
      more := jobs;
      var dl := storage.Get(id);
      GatherLists(dl.value.workloads, storage.records[id].cells);
      if active(Gather(dl.value.workloads)) {
        var job := Reinstall(dl.value);
        queue.Enqueue(job);
        BootedMore(Cellular(storage.records), jobs, job, done);
        more := jobs + [job];
      }
    }

    /** The queue is `was` followed by the reinstalls of the deployments in `done`. */
    ghost predicate Booting(was: seq<Job>, jobs: seq<Job>, done: set<DlId>)
      reads this, storage, queue
    {
      queue.jobs == was + jobs && BootedFor(Cellular(storage.records), jobs, done)
    }

    ghost function OfTwins(records: Records, twins: seq<nat>): set<DlId>
    {
      set id | id in records && id.twin in twins
    }

    /** `Booted`, for the deployments in `done`. */
    ghost predicate BootedFor(store: Store, jobs: seq<Job>, done: set<DlId>)
    {
      && DistinctTargets(jobs)
      && (forall i :: 0 <= i < |jobs| ==> ReinstallsStored(active, store, jobs[i]) && jobs[i].target.id in done)
      && (forall id :: id in store && id in done && active(store[id]) ==> Targeted(jobs, id))
    }

    lemma BootedMore(store: Store, jobs: seq<Job>, job: Job, done: set<DlId>)
      requires BootedFor(store, jobs, done) && ReinstallsStored(active, store, job) && job.target.id !in done
      ensures BootedFor(store, jobs + [job], done + {job.target.id})
    {
      var more := jobs + [job];
      forall id | Targeted(jobs, id) ensures Targeted(more, id) {
        var i :| 0 <= i < |jobs| && jobs[i].target.id == id;
        assert more[i].target.id == id;
      }
      assert more[|jobs|] == job;
      assert Targeted(more, job.target.id);
    }
  }
}
