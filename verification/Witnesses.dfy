/** Concrete inputs on which the code does not keep a promise. The exact conditions are proved where
    the promises are stated. */
module Witnesses {
  import opened Workloads
  import opened Outcomes
  import opened Plans
  import opened Jobs
  import opened Runs
  import opened Boot
  import opened Pausing
  import opened Reconcile
  import opened Capacity
  import opened Sums
  import opened Sorting
  import opened Migration

  const VM: WorkloadType := "zmachine"
  const ID := DlId(1, 1)
  const WRONG := "contract not found"

  function Machine(spec: string, state: ResultState): Workload
  {
    Workload("vm", VM, spec, Result(state, "", ""))
  }

  function One(w: Workload): Deployment { Deployment(ID, Header(0, "", "", ""), [w]) }

  function Stored(w: Workload): Cells { map[w.name := w] }

  /** A manager that succeeds in everything without doing more. */
  function Agreeable(pauser: Option<Pauser>): map<WorkloadType, Manager>
  {
    map[VM := Manager((_, _) => Answer(Json(""), None), (_, _) => None, Some((_, _) => Answer(Json(""), None)), pauser)]
  }

  function NodeWith(pauser: Option<Pauser>, ops: seq<UpgradeOp>, error: Option<string>): Config
  {
    Config(MapProvisioner(Agreeable(pauser)), [VM], map[VM := 1], _ => None, (_, _) => Some(ops), _ => error)
  }

  /** A `Pauser` whose `Pause` returns nil. */
  const NILPAUSER := Some(Pauser((_, _) => None, (_, _) => None))

  lemma StubbornNeed(w: Workload)
    requires w.result.state == Ok && w.typ == VM
    ensures var cfg, chain := NodeWith(NILPAUSER, [], None), Chain([1], _ => Some(true));
      && NeedOf(chain, 1, Stored(w)) == Freeze
      && !Converges(cfg, Agreeable(NILPAUSER), chain, ID, Stored(w))
  {
    var chain := Chain([1], _ => Some(true));
    assert w.name in Stored(w) && Stored(w)[w.name].result.state == Ok;
    assert 1 in chain.contracts;
    assert StateOf(PauseAnswer(Agreeable(NILPAUSER)[VM], ID, w)) == Ok;
  }

  lemma PauseIsCorrective(w: Workload)
    requires w.result.state == Ok && w.typ == VM
    ensures Corrective(Chain([1], _ => Some(true)), map[ID := Stored(w)], [Pause(One(w))])
  {
    var jobs := [Pause(One(w))];
    StubbornNeed(w);
    assert jobs[0].target.id == ID && Targeted(jobs, ID);
    assert Lists([w], Stored(w));
  }

  /** A manager that says ok to a pause leaves the workload ok, so every sync pauses it again. */
  lemma SyncNeverSettles(again: seq<Job>)
    ensures var cfg, chain := NodeWith(NILPAUSER, [], None), Chain([1], _ => Some(true));
      var store, jobs := map[ID := Stored(Machine("", Ok))], [Pause(One(Machine("", Ok)))];
      && Corrective(chain, store, jobs)
      && (Corrective(chain, DrainStore(cfg, store, jobs), again) ==> again != [])
  {
    var w := Machine("", Ok);
    var cfg, chain := NodeWith(NILPAUSER, [], None), Chain([1], _ => Some(true));
    var store, jobs := map[ID := Stored(w)], [Pause(One(w))];
    StubbornNeed(w);
    PauseIsCorrective(w);
    if Corrective(chain, DrainStore(cfg, store, jobs), again) {
      assert NoDuplicates(cfg.order);
      Fixpoint(cfg, Agreeable(NILPAUSER), chain, store, jobs, again);
    }
  }

  function Unit(): Usage { _ => Some(Amount(1, 0, 0, 0)) }

  lemma UseOfOne(w: Workload)
    requires w.result.state == Ok
    ensures Uses(Unit(), Stored(w), Amount(1, 0, 0, 0))
  {
    var ws := [w];
    assert ws[..0] == [] && Lists(ws, Stored(w));
    forall c ensures Sum(Unit(), c, ws) == Of(Amount(1, 0, 0, 0), c) {
      assert Sum(Unit(), c, ws[..0]) == 0 && Contribution(Unit(), c, ws[0]) == Of(Amount(1, 0, 0, 0), c);
    }
    WrapSmall(0);
    WrapSmall(1);
    assert Total(Unit(), ws) == Amount(1, 0, 0, 0);
  }

  /** A refused job on a deployment that was reported with a use that is not zero. */
  lemma RefusedStaysReported(job: Job)
    requires job.NeedsValidation()
    ensures var cfg := NodeWith(None, [], Some(WRONG));
      var cells := Stored(Machine("", Ok));
      && Uses(Unit(), cells, Amount(1, 0, 0, 0))
      && Final(cfg, job, Some(cells)).Some?
      && !Uses(Unit(), Final(cfg, job, Some(cells)).value, Amount(1, 0, 0, 0))
  {
    var w := Machine("", Ok);
    UseOfOne(w);
    RefusalGoesStale(NodeWith(None, [], Some(WRONG)), Unit(), job, Stored(w), Amount(1, 0, 0, 0));
  }

  /** A refused install rewrites a record that was deleted. */
  lemma RefusedInstallRewritesDeleted()
    ensures var cfg, w := NodeWith(None, [], Some(WRONG)), Machine("", Deleted);
      var at := Final(cfg, Reinstall(One(w)), Some(Stored(w)));
      at.Some? && w.name in at.value && at.value[w.name].result == Result(Error, WRONG, "")
  {}

  function Updating(now: Workload): Config { NodeWith(None, [UpgradeOp.Change(now)], None) }

  lemma SortOne(index: map<WorkloadType, int>, op: UpgradeOp)
    ensures SortOps(index, [op]) == [op]
  {
    var less, ops := ByKey(KeyOfOp(index)), [op];
    assert Sort(less, ops) == Insert(less, SortTo(less, ops, 0), op) == [op];
  }

  lemma ChangeBringsNew(was: Workload, now: Workload)
    requires was == Machine("old", Ok) && now == Machine("new", Ok)
    ensures StepEffect(Updating(now).prov, ID, Step.Change(now), Some(Stored(was))).writes == [Some(Stored(now))]
  {
    assert SetCell(Stored(was), now.name, Some(now)) == Stored(now);
    assert Updating(now).prov.update(ID, now) == Done(Result(Ok, "", ""));
  }

  lemma UpdateBringsNew(was: Workload, now: Workload)
    requires was == Machine("old", Ok) && now == Machine("new", Ok)
    ensures Final(Updating(now), Update(One(was), One(now)), Some(Stored(was))) == Some(Stored(now))
  {
    var cfg, job := Updating(now), Update(One(was), One(now));
    SortOne(cfg.index, UpgradeOp.Change(now));
    assert StepsOf(cfg, job) == [Step.Change(now)];
    OneStep(cfg.prov, ID, Step.Change(now), Some(Stored(was)));
    ChangeBringsNew(was, now);
  }

  /** A pause queued while an update is ahead of it: the update brings the new definition, and the
      pause, made from the snapshot before, puts the old one back. */
  lemma PauseUndoesUpdate()
    ensures var was, now := Machine("old", Ok), Machine("new", Ok);
      var updated := Final(Updating(now), Update(One(was), One(now)), Some(Stored(was)));
      var paused := Final(Updating(now), Pause(One(was)), updated);
      && updated == Some(Stored(now))
      && paused.Some? && was.name in paused.value && !SameDefinition(paused.value[was.name], now)
  {
    var was, now := Machine("old", Ok), Machine("new", Ok);
    UpdateBringsNew(was, now);
    var ws := [was];
    assert ws[0] in ws && Lists(ws, Stored(was));
    LockKeepsDefinition(Updating(now), Agreeable(None), Pause(One(was)), Stored(was), Stored(now), was.name);
  }

  // ---------- runs of engine and setter ----------

  const UNIT := Amount(1, 0, 0, 0)

  /** One deployment, last reported with one unit. */
  function At(w: Workload, queue: seq<Job>, begun: bool, worker: Worker, channel: seq<DlId>, hand: Hand,
              excused: set<DlId>): Pair
  {
    Pair(map[ID := Stored(w)], queue, begun, worker, channel, hand, map[ID := UNIT], {ID}, excused)
  }

  function Reinstalling(): Job { Reinstall(One(Machine("", Ok))) }

  function Calm(): Pair { At(Machine("", Ok), [], false, Resting, [], Empty, {}) }

  function Queued(): Pair { At(Machine("", Ok), [Reinstalling()], false, Resting, [], Empty, {}) }

  /** The reinstall is at work on `w` after `done` writes. */
  function AtWork(w: Workload, done: nat): Pair
  {
    At(w, [Reinstalling()], true, Worker.Working(Reinstalling(), Some(Stored(Machine("", Ok))), done), [], Empty, {})
  }

  /** A reinstall is queued, started and writes `after`. */
  function Opening(after: Workload): seq<Pair>
  {
    [Calm(), Queued(), AtWork(Machine("", Ok), 0), AtWork(after, 1)]
  }

  ghost predicate Writes(cfg: Config, after: Workload)
  {
    after.name == "vm" && JobEffect(cfg, Reinstalling(), Some(Stored(Machine("", Ok)))).writes == [Some(Stored(after))]
  }

  lemma CalmIsFirst()
    ensures First(Unit(), Calm())
  {
    UseOfOne(Machine("", Ok));
  }

  lemma QueuesAndBegins()
    ensures Enqueued(Calm(), Queued()) && Began(Queued(), AtWork(Machine("", Ok), 0))
  {
    assert Queued() == Calm().(queue := Calm().queue + [Reinstalling()]);
  }

  lemma OpeningRuns(cfg: Config, after: Workload)
    requires Writes(cfg, after)
    ensures IsInterleaving(cfg, Unit(), Opening(after))
  {
    CalmIsFirst();
    QueuesAndBegins();
    WritesSo(cfg, AtWork(Machine("", Ok), 0), after);
    RunOfFour(cfg, Calm(), Queued(), AtWork(Machine("", Ok), 0), AtWork(after, 1));
  }

  lemma RunOfFour(cfg: Config, a: Pair, b: Pair, c: Pair, d: Pair)
    requires First(Unit(), a) && Enqueued(a, b) && Began(b, c) && Wrote(cfg, c, d)
    ensures IsInterleaving(cfg, Unit(), [a, b, c, d])
  {}

  lemma WritesSo(cfg: Config, s: Pair, after: Workload)
    requires Writes(cfg, after) && s == AtWork(Machine("", Ok), 0)
    ensures Wrote(cfg, s, AtWork(after, 1))
  {
    assert PutSlot(s.store, ID, Some(Stored(after))) == map[ID := Stored(after)];
  }

  lemma StepRuns(cfg: Config, run: seq<Pair>, t: Pair)
    requires IsInterleaving(cfg, Unit(), run) && Capacity.Step(cfg, Unit(), run[|run| - 1], t)
    ensures IsInterleaving(cfg, Unit(), run + [t])
  {}

  /** The reinstall leaves the queue, and a refused one tells nobody. */
  lemma ReinstallEnds(cfg: Config, after: Workload) returns (t: Pair)
    requires Writes(cfg, after)
    ensures IsInterleaving(cfg, Unit(), Opening(after) + [t])
    ensures t == if Refused(cfg, Reinstalling()) then At(after, [], false, Resting, [], Empty, {ID})
                 else At(after, [], false, Calling(ID), [], Empty, {})
  {
    t := if Refused(cfg, Reinstalling()) then At(after, [], false, Resting, [], Empty, {ID})
         else At(after, [], false, Calling(ID), [], Empty, {});
    OpeningRuns(cfg, after);
    EndsSo(cfg, AtWork(after, 1), t);
    StepRuns(cfg, Opening(after), t);
  }

  lemma EndsSo(cfg: Config, s: Pair, t: Pair)
    requires s.worker == Worker.Working(Reinstalling(), Some(Stored(Machine("", Ok))), 1) && |s.queue| == 1
    requires |JobEffect(cfg, s.worker.job, s.worker.start).writes| == 1
    requires t == if Refused(cfg, Reinstalling())
                  then s.(queue := [], begun := false, worker := Resting, excused := s.excused + {ID})
                  else s.(queue := [], begun := false, worker := Calling(ID))
    ensures Ended(cfg, s, t, false)
  {
    assert s.queue[1..] == [];
  }

  lemma NoUse(w: Workload, amount: Amount)
    requires w.result.state == Error
    ensures Uses(Unit(), Stored(w), amount) <==> amount == ZERO
  {
    var ws := [w];
    assert Lists(ws, Stored(w));
    NoOkayTotal(Unit(), ws);
    assert Uses(Unit(), Stored(w), ZERO);
    if Uses(Unit(), Stored(w), amount) { UsesIsUnique(Unit(), Stored(w), amount, ZERO); }
  }

  function Refusing(): Config { NodeWith(None, [], Some(WRONG)) }

  function Rejected(): Workload { Machine("", Ok).WithResults(Result(Error, WRONG, "")) }

  lemma RefusalBreaks()
    ensures Writes(Refusing(), Rejected())
  {
    var marked := MarkError(Some(Stored(Machine("", Ok))), WRONG).value;
    assert marked.Keys == Stored(Rejected()).Keys && marked["vm"] == Rejected();
    assert marked == Stored(Rejected());
    assert Refused(Refusing(), Reinstalling());
  }

  /** The job is refused, which nobody is told, and after a restart that reports all listed deployments
      the last report still says one unit. */
  lemma RestartMissesRefused() returns (run: seq<Pair>)
    ensures IsInterleaving(Refusing(), Unit(), run) && |run| == 6 && Restarted(Unit(), run[4], run[5])
    ensures Quiet(run[5]) && ID in run[5].store && !Uses(Unit(), run[5].store[ID], LastReport(run[5], ID))
  {
    var cfg, bad := Refusing(), Rejected();
    RefusalBreaks();
    var t := ReinstallEnds(cfg, bad);
    NoUse(bad, UNIT);
    RestartsSo(t, bad);
    StepRuns(cfg, Opening(bad) + [t], t);
    run := Opening(bad) + [t] + [t];
  }

  lemma RestartsSo(s: Pair, w: Workload)
    requires w.result.state == Error && s == At(w, [], false, Resting, [], Empty, {ID})
    ensures Restarted(Unit(), s, s)
  {
    assert forall n :: n in s.store[ID] ==> s.store[ID][n] == w;
    assert !Listed(s, ID);
  }

  /** A manager that fails to provision. */
  function Failing(): Config
  {
    Config(
      MapProvisioner(map[VM := Manager((_, _) => Answer(Json(""), Some(Plain("broken"))), (_, _) => None, None, None)]),
      [VM], map[VM := 1], _ => None, (_, _) => None, _ => None)
  }

  function Broken(): Workload { Machine("", Ok).WithResults(Result(Error, "broken", "")) }

  lemma FailingBreaks()
    ensures Writes(Failing(), Broken())
  {
    var w, cfg := Machine("", Ok), Failing();
    var ws := [w];
    assert ws[1..] == [] && ByType(ws, VM) == ws;
    assert cfg.order[1..] == [] && InstallPlan(cfg.sizes, cfg.order, ws) == ws;
    assert StepsOf(cfg, Reinstalling()) == [Install(w)];
    OneStep(cfg.prov, ID, Install(w), Some(Stored(w)));
    assert cfg.prov.provision(ID, w) == Done(Result(Error, "broken", ""));
    assert SetCell(Stored(w), w.name, Some(Broken())) == Stored(Broken());
  }

  lemma SendsSo()
    ensures Sent(At(Broken(), [], false, Calling(ID), [], Empty, {}), At(Broken(), [], false, Resting, [ID], Empty, {}))
  {}

  /** The job broke the deployment, and its id is in the channel. */
  lemma BrokenIsPending() returns (run: seq<Pair>)
    ensures IsInterleaving(Failing(), Unit(), run) && |run| == 6
    ensures run[5] == At(Broken(), [], false, Resting, [ID], Empty, {})
  {
    var cfg := Failing();
    FailingBreaks();
    var t := ReinstallEnds(cfg, Broken());
    var u := At(Broken(), [], false, Resting, [ID], Empty, {});
    SendsSo();
    StepRuns(cfg, Opening(Broken()) + [t], u);
    run := Opening(Broken()) + [t] + [u];
  }

  /** A restart that cannot send forgets the pending id, and the last report still says one unit. */
  lemma SilentRestartForgets() returns (run: seq<Pair>)
    ensures IsInterleaving(Failing(), Unit(), run) && |run| == 7 && RestartedSilently(run[5], run[6])
    ensures Quiet(run[6]) && ID in run[6].store && !Uses(Unit(), run[6].store[ID], LastReport(run[6], ID))
  {
    var front := BrokenIsPending();
    var t := At(Broken(), [], false, Resting, [], Empty, {ID});
    assert Pending(front[5], ID);
    assert RestartedSilently(front[5], t);
    StepRuns(Failing(), front, t);
    NoUse(Broken(), UNIT);
    run := front + [t];
  }

  /** The report of the present use cannot be sent, and the last one still says one unit. */
  lemma FailedSendForgets() returns (run: seq<Pair>)
    ensures IsInterleaving(Failing(), Unit(), run) && |run| == 9 && GaveUp(run[7], run[8])
    ensures Quiet(run[8]) && ID in run[8].store && !Uses(Unit(), run[8].store[ID], LastReport(run[8], ID))
  {
    var cfg := Failing();
    var front := BrokenIsPending();
    var t := At(Broken(), [], false, Resting, [], Holding(ID), {});
    assert Received(front[5], t);
    StepRuns(cfg, front, t);
    var u := At(Broken(), [], false, Resting, [], Loaded(ID, ZERO), {});
    NoUse(Broken(), ZERO);
    assert Load(Unit(), t, u);
    StepRuns(cfg, front + [t], u);
    var v := At(Broken(), [], false, Resting, [], Empty, {ID});
    assert GaveUp(u, v);
    StepRuns(cfg, front + [t] + [u], v);
    NoUse(Broken(), UNIT);
    run := front + [t] + [u] + [v];
  }

  /** The deployments of a twin whose listing fails are gone after a migration that reports success. */
  method UnlistedIsGone() returns (ok: bool, kept: bool)
    ensures ok && !kept
  {
    var d := One(Machine("", Ok));
    var migrator := new Migrator(map[ID := d], map[]);
    var faults := Faults(_ => true, _ => false, _ => false, _ => false);
    assert ID in migrator.source && ID !in migrator.target && faults.list(ID.twin);
    assert forall id :: id in migrator.source ==> !Unmovable(faults, id);
    ok := migrator.MigrateAndRemove([ID.twin], faults);
    kept := ID in migrator.target || ID in migrator.source;
  }
}
