/** Moving deployments from the old file store to the new one
    (cmds/modules/provisiond/migration.go). */
module Migration {
  import opened Workloads
  import opened Plans

  type Deployments = map<DlId, Deployment>

  /** Which operations fail. */
  datatype Faults = Faults(list: nat -> bool, get: DlId -> bool, migrate: DlId -> bool, delete: DlId -> bool)

  /** The old store and the new one between two operations. */
  datatype Stores = Stores(source: Deployments, target: Deployments)

  /** Every deployment of `initial` is, as it was, in the old store or in the new one. */
  ghost predicate NoneLost(initial: Deployments, s: Stores)
  {
    forall id :: id in initial ==>
      (id in s.source && s.source[id] == initial[id]) || (id in s.target && s.target[id] == initial[id])
  }

  /** A deployment is copied from the old store to the new one. */
  ghost predicate Copies(s: Stores, t: Stores, id: DlId)
  {
    id in s.source && t == Stores(s.source, s.target[id := s.source[id]])
  }

  /** A deployment that is in the new store is deleted from the old one. */
  ghost predicate Deletes(s: Stores, t: Stores, id: DlId)
  {
    && id in s.source && id in s.target && s.target[id] == s.source[id]
    && t == Stores(s.source - {id}, s.target)
  }

  ghost predicate OneMove(s: Stores, t: Stores)
  {
    exists id :: Copies(s, t, id) || Deletes(s, t, id)
  }

  ghost predicate Within(source: Deployments, initial: Deployments)
  {
    forall id :: id in source ==> id in initial && source[id] == initial[id]
  }

  /** Since mark `from`, the stores changed by copies and by deletions of what was copied, one at a
      time, and at no moment a deployment of `initial` was lost. */
  ghost predicate Journey(initial: Deployments, marks: seq<Stores>, from: nat)
  {
    && from < |marks|
    && (forall k :: from <= k < |marks| ==> NoneLost(initial, marks[k]))
    && (forall k :: from < k < |marks| ==> OneMove(marks[k - 1], marks[k]))
  }

  lemma JourneyMore(initial: Deployments, marks: seq<Stores>, from: nat, t: Stores, id: DlId)
    requires Journey(initial, marks, from)
    requires var s := marks[|marks| - 1];
      Within(s.source, initial) && (Copies(s, t, id) || Deletes(s, t, id))
    ensures Journey(initial, marks + [t], from) && Within(t.source, initial)
  {
    var s := marks[|marks| - 1];
    assert NoneLost(initial, s);
    assert NoneLost(initial, t);
    assert OneMove(s, t);
  }

  ghost predicate Migrated(initial: Deployments, target: Deployments, id: DlId)
  {
    id in initial && id in target && target[id] == initial[id]
  }

  class Migrator {
    var source: Deployments
    var target: Deployments
    /** The stores at the start and after every operation that changed one of them. */
    ghost var trail: seq<Stores>

    constructor (source: Deployments, target: Deployments)
      ensures this.source == source && this.target == target && trail == [Stores(source, target)]
    {
      this.source, this.target, trail := source, target, [Stores(source, target)];
    }

    ghost predicate Valid()
      reads this
    {
      trail != [] && trail[|trail| - 1] == Now()
    }

    ghost function Now(): Stores
      reads this
    {
      Stores(source, target)
    }

    /** The contracts of a twin in the old store, sorted by id. */
    method ByTwin(twin: nat) returns (ids: seq<nat>)
      ensures forall c :: c in ids <==> DlId(twin, c) in source
      ensures forall i, j :: 0 <= i < j < |ids| ==> ids[i] < ids[j]
    {
      ids := [];
      ghost var done: set<DlId> := {};
      var left := set id | id in source && id.twin == twin;
      while left != {}
        invariant forall id :: id in left ==> id in source && id.twin == twin && id.contract !in ids
        invariant forall c :: c in ids ==> DlId(twin, c) in source
        invariant forall id :: id in source && id.twin == twin && id !in left ==> id.contract in ids
        invariant forall i, j :: 0 <= i < j < |ids| ==> ids[i] < ids[j]
        decreases left
      {
        var id :| id in left;
        left := left - {id};
        assert id == DlId(twin, id.contract);
        ghost var was := ids;
        ids := InsertSorted(ids, id.contract);
        assert forall c :: c in ids <==> c in was || c == id.contract;
      }
      forall c | DlId(twin, c) in source ensures c in ids {
        assert DlId(twin, c).contract in ids;
      }
    }

    /** The stores are at the end of a safe journey, and what is left in the old one is as it was. */
    ghost predicate Safe(initial: Deployments, from: nat)
      reads this
    {
      Valid() && Journey(initial, trail, from) && Within(source, initial)
    }

    /** `Migrate` of the new store. */
    method Copy(id: DlId, deployment: Deployment, fails: bool) returns (ok: bool)
      modifies this
      ensures ok == !fails && source == old(source)
      ensures target == if ok then old(target)[id := deployment] else old(target)
      ensures trail == old(trail) + if ok then [Now()] else []
    {
      ok := !fails;
      if ok {
        target := target[id := deployment];
        trail := trail + [Now()];
      }
    }

    /** `Delete` of the old store. */
    method Delete(id: DlId, fails: bool) returns (ok: bool)
      modifies this
      ensures ok == !fails && target == old(target)
      ensures source == if ok then old(source) - {id} else old(source)
      ensures trail == old(trail) + if ok then [Now()] else []
    {
      ok := !fails;
      if ok {
        source := source - {id};
        trail := trail + [Now()];
      }
    }

    /** One deployment: read it, write it to the new store, and only then delete it from the old. */
    method MigrateOne(id: DlId, faults: Faults, ghost initial: Deployments, ghost from: nat) returns (errored: bool)
      requires id in source && Safe(initial, from)
      modifies this
      ensures Safe(initial, from)
      ensures errored == (faults.get(id) || faults.migrate(id))
      ensures target == if errored then old(target) else old(target)[id := initial[id]]
      ensures source == if errored || faults.delete(id) then old(source) else old(source) - {id}
      ensures trail == old(trail)
        + (if errored then [] else [Stores(old(source), target)])
        + (if errored || faults.delete(id) then [] else [Stores(source, target)])
    {
      if faults.get(id) {
        return true;
      }
      var deployment := source[id];
      var ok := Copy(id, deployment, faults.migrate(id));
      if !ok {
        return true;
      }
      ghost var t := Now();
      JourneyMore(initial, old(trail), from, t, id);
      ok := Delete(id, faults.delete(id));
      if ok {
        JourneyMore(initial, old(trail) + [t], from, Now(), id);
      }
      errored := false;
    }

    /** The deployments of one twin. */
    method MigrateTwin(twin: nat, faults: Faults, ghost initial: Deployments, ghost from: nat) returns (errored: bool)
      requires Safe(initial, from)
      requires forall id :: id in initial && id.twin == twin ==> id in source
      modifies this
      ensures Safe(initial, from) && old(trail) <= trail
      ensures errored <==> exists id :: id in initial && id.twin == twin && Fails(faults, id)
      ensures TwinMoved(initial, faults, twin, target)
      ensures OthersSame(twin, source, target, old(source), old(target))
    {
      errored := false;
      var dls := ByTwin(twin);
      ghost var was := target;
      for j := 0 to |dls|
        invariant Safe(initial, from) && old(trail) <= trail
        invariant forall k :: j <= k < |dls| ==> DlId(twin, dls[k]) in source
        invariant errored <==> AnyFails(faults, twin, dls[..j])
        invariant AllMigrated(initial, target, faults, twin, dls[..j])
        invariant OthersSame(twin, source, target, old(source), was)
      {
        ghost var sourceBefore, before := source, target;
        var failed := MigrateOne(DlId(twin, dls[j]), faults, initial, from);
        OthersSameMore(twin, sourceBefore, before, DlId(twin, dls[j]), source, target, old(source), was);
        OneMore(initial, before, target, faults, twin, dls, j);
        errored := errored || failed;
      }
      assert dls[..|dls|] == dls;
      forall id | id in initial && id.twin == twin ensures id.contract in dls && DlId(twin, id.contract) == id {
      }
    }

    /** `storageMigration`: at every moment each deployment is in one of the stores. Nil is returned
        exactly if no deployment of a twin that could be listed failed, and then all of these are in
        the new store; a twin that could not be listed is skipped and does not count. */
    method Migrate(twins: seq<nat>, faults: Faults) returns (ok: bool)
      requires Valid() && NoDuplicates(twins) && forall id :: id in source ==> id.twin in twins
      modifies this
      ensures old(trail) <= trail && Safe(old(source), |old(trail)| - 1)
      ensures ok <==> forall id :: id in old(source) ==> !Unmovable(faults, id)
      ensures ok ==> forall id :: id in old(source) && !faults.list(id.twin) ==> Migrated(old(source), target, id)
      ensures UnlistedSame(faults, target, old(target))
    {
      ghost var initial, before, from := source, target, |trail| - 1;
      var errored := false;
      for i := 0 to |twins|
        invariant Safe(initial, from) && old(trail) <= trail
        invariant Visited(initial, faults, twins[..i], source, target)
        invariant errored <==> AnyUnmovable(initial, faults, twins[..i])
        invariant UnlistedSame(faults, target, before)
      {
        var twin := twins[i];
        assert twins[..i + 1] == twins[..i] + [twin] && twin !in twins[..i];
        UnmovableMore(initial, faults, twins[..i], twin);
        if faults.list(twin) {
          VisitedUnlisted(initial, faults, twins[..i], twin, source, target);
          continue;
        }
        ghost var sourceBefore, targetBefore := source, target;
        var failed := MigrateTwin(twin, faults, initial, from);
        VisitedMore(initial, faults, twins[..i], twin, sourceBefore, targetBefore, source, target);
        UnlistedMore(faults, twin, target, targetBefore, before);
        errored := errored || failed;
      }
      assert twins[..|twins|] == twins;
      ok := !errored;
    }

    /** The start of the daemon: after a successful migration the old store is removed. What was
        stored and is now in neither store is exactly what belonged to a twin that could not be
        listed, since a failed listing is skipped without counting as an error. */
    method MigrateAndRemove(twins: seq<nat>, faults: Faults) returns (ok: bool)
      requires Valid() && NoDuplicates(twins) && forall id :: id in source ==> id.twin in twins
      modifies this
      ensures Valid()
      ensures ok <==> forall id :: id in old(source) ==> !Unmovable(faults, id)
      ensures ok ==> source == map[]
      ensures ok ==> forall id :: id in old(source) && id !in old(target) ==> (id in target <==> !faults.list(id.twin))
      ensures !ok ==> NoneLost(old(source), Now())
    {
      ok := Migrate(twins, faults);
      if ok {
        source := map[];
        trail := trail + [Now()];
      }
    }
  }

  /** Its twin can be listed, and it cannot be moved. */
  predicate Unmovable(faults: Faults, id: DlId)
  {
    !faults.list(id.twin) && Fails(faults, id)
  }

  /** Reading the deployment from the old store, or writing it to the new one, fails. */
  predicate Fails(faults: Faults, id: DlId)
  {
    faults.get(id) || faults.migrate(id)
  }

  /** Of a twin that can be listed, everything that can be moved is in the new store. */
  ghost predicate TwinMoved(initial: Deployments, faults: Faults, twin: nat, target: Deployments)
  {
    forall id :: id in initial && id.twin == twin && !Fails(faults, id) ==> Migrated(initial, target, id)
  }

  /** After the twins `seen`. */
  ghost predicate Visited(initial: Deployments, faults: Faults, seen: seq<nat>, source: Deployments,
                          target: Deployments)
  {
    && (forall id :: id in initial && id.twin !in seen ==> id in source)
    && (forall twin :: twin in seen && !faults.list(twin) ==> TwinMoved(initial, faults, twin, target))
  }

  ghost predicate AnyUnmovable(initial: Deployments, faults: Faults, seen: seq<nat>)
  {
    exists id :: id in initial && id.twin in seen && Unmovable(faults, id)
  }

  lemma UnmovableMore(initial: Deployments, faults: Faults, seen: seq<nat>, twin: nat)
    ensures AnyUnmovable(initial, faults, seen + [twin])
      <==> AnyUnmovable(initial, faults, seen) || exists id :: id in initial && id.twin == twin && Unmovable(faults, id)
  {
    if AnyUnmovable(initial, faults, seen) {
      var id :| id in initial && id.twin in seen && Unmovable(faults, id);
      assert id.twin in seen + [twin];
    }
    if id :| id in initial && id.twin == twin && Unmovable(faults, id) {
      assert id.twin in seen + [twin];
    }
  }

  /** Deployments of twins that cannot be listed are as before. */
  ghost predicate UnlistedSame(faults: Faults, target: Deployments, before: Deployments)
  {
    forall id: DlId :: faults.list(id.twin) ==> Same(id, target, before)
  }

  lemma UnlistedMore(faults: Faults, twin: nat, target: Deployments, mid: Deployments, before: Deployments)
    requires !faults.list(twin) && UnlistedSame(faults, mid, before)
    requires forall id: DlId :: id.twin != twin ==> Same(id, target, mid)
    ensures UnlistedSame(faults, target, before)
  {}

  lemma VisitedUnlisted(initial: Deployments, faults: Faults, seen: seq<nat>, twin: nat, source: Deployments,
                        target: Deployments)
    requires Visited(initial, faults, seen, source, target) && faults.list(twin)
    ensures Visited(initial, faults, seen + [twin], source, target)
  {
    assert forall t :: t in seen + [twin] <==> t in seen || t == twin;
  }

  lemma VisitedMore(initial: Deployments, faults: Faults, seen: seq<nat>, twin: nat, source0: Deployments,
                    target0: Deployments, source: Deployments, target: Deployments)
    requires Visited(initial, faults, seen, source0, target0) && twin !in seen
    requires TwinMoved(initial, faults, twin, target) && OthersSame(twin, source, target, source0, target0)
    ensures Visited(initial, faults, seen + [twin], source, target)
  {
    assert forall t :: t in seen + [twin] <==> t in seen || t == twin;
    forall t | t in seen && !faults.list(t) ensures TwinMoved(initial, faults, t, target) {
      forall id | id in initial && id.twin == t && !Fails(faults, id) ensures Migrated(initial, target, id) {
        assert Migrated(initial, target0, id) && Same(id, target, target0);
      }
    }
  }

  predicate AnyFails(faults: Faults, twin: nat, dls: seq<nat>)
  {
    exists k :: 0 <= k < |dls| && Fails(faults, DlId(twin, dls[k]))
  }

  ghost predicate AllMigrated(initial: Deployments, target: Deployments, faults: Faults, twin: nat, dls: seq<nat>)
  {
    forall c :: c in dls && !Fails(faults, DlId(twin, c)) ==> Migrated(initial, target, DlId(twin, c))
  }

  ghost predicate OthersSame(twin: nat, source: Deployments, target: Deployments, source0: Deployments,
                             target0: Deployments)
  {
    forall id: DlId :: id.twin != twin ==> (id in source <==> id in source0) && Same(id, target, target0)
  }

  lemma OthersSameMore(twin: nat, source: Deployments, target: Deployments, id: DlId, sourceNow: Deployments,
                       targetNow: Deployments, source0: Deployments, target0: Deployments)
    requires OthersSame(twin, source, target, source0, target0) && id.twin == twin
    requires sourceNow == source || sourceNow == source - {id}
    requires targetNow == target || (id in targetNow && targetNow == target[id := targetNow[id]])
    ensures OthersSame(twin, sourceNow, targetNow, source0, target0)
  {}

  lemma OneMore(initial: Deployments, before: Deployments, after: Deployments, faults: Faults, twin: nat,
                dls: seq<nat>, j: nat)
    requires j < |dls| && AllMigrated(initial, before, faults, twin, dls[..j]) && DlId(twin, dls[j]) in initial
    requires var id := DlId(twin, dls[j]);
      after == if Fails(faults, id) then before else before[id := initial[id]]
    ensures AllMigrated(initial, after, faults, twin, dls[..j + 1])
    ensures AnyFails(faults, twin, dls[..j + 1]) <==>
      AnyFails(faults, twin, dls[..j]) || Fails(faults, DlId(twin, dls[j]))
  {
    assert dls[..j + 1] == dls[..j] + [dls[j]];
    if AnyFails(faults, twin, dls[..j]) {
      var k :| 0 <= k < j && Fails(faults, DlId(twin, dls[..j][k]));
      assert dls[..j + 1][k] == dls[..j][k];
    }
    assert dls[..j + 1][j] == dls[j];
  }

  ghost predicate Same(id: DlId, a: Deployments, b: Deployments)
  {
    (id in a <==> id in b) && (id in a ==> a[id] == b[id])
  }

  function InsertSorted(s: seq<nat>, x: nat): (r: seq<nat>)
    requires x !in s
    requires forall i, j :: 0 <= i < j < |s| ==> s[i] < s[j]
    ensures forall i, j :: 0 <= i < j < |r| ==> r[i] < r[j]
    ensures forall c :: c in r <==> c in s || c == x
  {
    if s == [] || x < s[0] then [x] + s
    else
      var rest := InsertSorted(s[1..], x);
      assert forall c :: c in rest ==> s[0] < c;
      assert s == [s[0]] + s[1..];
      assert forall i :: 0 <= i < |rest| ==> rest[i] in rest;
      [s[0]] + rest
  }
}
