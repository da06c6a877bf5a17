/** The store of deployments and the job queue, with the contracts the engine relies on. Each
    method is one atomic, durable operation; the transaction log is kept only as `trail`. */
module Storage {
  import opened Workloads
  import opened Plans
  import opened Jobs
  import opened Runs

  datatype Record = Record(header: Header, cells: Cells)

  datatype Written = Written(id: DlId, slot: Slot)

  datatype Lookup<T> = Found(value: T) | NoWorkload | NoDeployment

  type Records = map<DlId, Record>

  function SlotIn(records: Records, id: DlId): Slot
  {
    if id in records then Some(records[id].cells) else None
  }

  /** `d` is the stored deployment `id`, with its workloads in some order. */
  ghost predicate IsCopy(records: Records, id: DlId, d: Deployment)
  {
    && id in records && d.id == id
    && d.header == records[id].header && Lists(d.workloads, records[id].cells)
  }

  /** Replace the workloads of a stored deployment, or drop it. */
  function PutIn(records: Records, id: DlId, slot: Slot): Records
  {
    match slot
    case None => records - {id}
    case Some(cells) => if id in records then records[id := records[id].(cells := cells)] else records
  }

  /** The workloads of every deployment, without the headers. */
  function Cellular(records: Records): Store
  {
    map id | id in records :: records[id].cells
  }

  ghost predicate AllKeyed(records: Records)
  {
    forall id :: id in records ==> KeyedByName(records[id].cells)
  }

  function Initial(ws: seq<Workload>): Cells
  {
    if ws == [] then map[]
    else Initial(ws[..|ws| - 1])[ws[|ws| - 1].name := ws[|ws| - 1].WithResults(InitResult())]
  }

  ghost predicate Named(ws: seq<Workload>, n: Name)
  {
    exists i :: 0 <= i < |ws| && ws[i].name == n
  }

  lemma NamedMore(ws: seq<Workload>, w: Workload, n: Name)
    ensures Named(ws + [w], n) <==> Named(ws, n) || w.name == n
  {
    if Named(ws, n) {
      var i :| 0 <= i < |ws| && ws[i].name == n;
      assert (ws + [w])[i].name == n;
    }
    assert (ws + [w])[|ws|] == w;
  }

  lemma {:induction false} InitialIsInit(ws: seq<Workload>)
    ensures AllInit(Initial(ws)) && KeyedByName(Initial(ws))
    ensures forall n :: n in Initial(ws) <==> Named(ws, n)
  {
    if ws != [] {
      var front := ws[..|ws| - 1];
      InitialIsInit(front);
      assert ws == front + [ws[|ws| - 1]];
      forall n { NamedMore(front, ws[|ws| - 1], n); }
    }
  }

  /** Each workload starts in state init, with nothing else recorded. */
  lemma {:induction false} InitialStores(ws: seq<Workload>)
    requires DistinctNames(ws)
    ensures forall i :: 0 <= i < |ws| ==>
      ws[i].name in Initial(ws) && Initial(ws)[ws[i].name] == ws[i].(result := Result(Init, "", ""))
  {
    if ws != [] {
      var front := ws[..|ws| - 1];
      InitialStores(front);
      forall i | 0 <= i < |ws|
        ensures ws[i].name in Initial(ws) && Initial(ws)[ws[i].name] == ws[i].(result := Result(Init, "", ""))
      {
        if i < |front| { assert front[i] == ws[i]; }
      }
    }
  }

  /** A listing read back as a map. */
  function Gather(ws: seq<Workload>): Cells
  {
    if ws == [] then map[] else Gather(ws[..|ws| - 1])[ws[|ws| - 1].name := ws[|ws| - 1]]
  }

  lemma {:induction false} GatherKeys(ws: seq<Workload>)
    requires DistinctNames(ws)
    ensures forall i :: 0 <= i < |ws| ==> ws[i].name in Gather(ws) && Gather(ws)[ws[i].name] == ws[i]
    ensures forall n :: n in Gather(ws) ==> Named(ws, n)
  {
    if ws != [] {
      var front := ws[..|ws| - 1];
      GatherKeys(front);
      assert ws == front + [ws[|ws| - 1]];
      forall n { NamedMore(front, ws[|ws| - 1], n); }
      forall i | 0 <= i < |ws| ensures ws[i].name in Gather(ws) && Gather(ws)[ws[i].name] == ws[i] {
        if i < |front| { assert front[i] == ws[i]; }
      }
    }
  }

  lemma GatherLists(ws: seq<Workload>, cells: Cells)
    requires Lists(ws, cells)
    ensures Gather(ws) == cells
  {
    GatherKeys(ws);
    var g := Gather(ws);
    forall n ensures (n in g <==> n in cells) && (n in g ==> g[n] == cells[n]) {
      if n in g {
        var i :| 0 <= i < |ws| && ws[i].name == n;
      }
      if n in cells {
        var i :| 0 <= i < |ws| && ws[i] == cells[n];
      }
    }
  }

  ghost predicate HasId(dls: seq<Deployment>, id: DlId)
  {
    exists i :: 0 <= i < |dls| && dls[i].id == id
  }

  lemma HasIdMore(dls: seq<Deployment>, d: Deployment)
    ensures forall id :: HasId(dls + [d], id) <==> HasId(dls, id) || d.id == id
  {
    forall id | HasId(dls, id) ensures HasId(dls + [d], id) {
      var i :| 0 <= i < |dls| && dls[i].id == id;
      assert (dls + [d])[i].id == id;
    }
    assert (dls + [d])[|dls|] == d;
  }

  class DeploymentStorage {
    var records: Records
    /** Every state a deployment was durably in, in the order of the writes. */
    ghost var trail: seq<Written>

    constructor ()
      ensures records == map[] && trail == []
    {
      records, trail := map[], [];
    }

    ghost predicate Valid() reads this { AllKeyed(records) }

    method Create(d: Deployment) returns (ok: bool)
      requires Valid()
      modifies this
      ensures Valid()
      ensures ok == (d.id !in old(records))
      ensures records == if ok then old(records)[d.id := Record(d.header, Initial(d.workloads))] else old(records)
      ensures trail == if ok then old(trail) + [Written(d.id, Some(Initial(d.workloads)))] else old(trail)
    {
      ok := d.id !in records;
      if ok {
        InitialIsInit(d.workloads);
        records := records[d.id := Record(d.header, Initial(d.workloads))];
        trail := trail + [Written(d.id, Some(Initial(d.workloads)))];
      }
    }

    /** A copy of the deployment with the current record of each workload, in some order. */
    method Get(id: DlId) returns (d: Option<Deployment>)
      requires Valid()
      ensures d.Some? <==> id in records
      ensures d.Some? ==> IsCopy(records, id, d.value)
    {
      if id !in records {
        return None;
      }
      var cells := records[id].cells;
      var left := cells.Keys;
      var ws: seq<Workload> := [];
      while left != {}
        invariant left <= cells.Keys && DistinctNames(ws)
        invariant forall i :: 0 <= i < |ws| ==> ws[i].name in cells.Keys - left && cells[ws[i].name] == ws[i]
        invariant forall n :: n in cells.Keys - left ==> cells[n] in ws
        decreases left
      {
        var n :| n in left;
        ghost var was := ws;
        ws := ws + [cells[n]];
        left := left - {n};
        forall m | m in cells.Keys - left ensures cells[m] in ws {
          if m != n { assert cells[m] in was; }
        }
      }
      d := Some(Deployment(id, records[id].header, ws));
    }

    /** The twins with stored deployments, each once. */
    method Twins() returns (twins: seq<nat>)
      ensures NoDuplicates(twins)
      ensures forall id :: id in records ==> id.twin in twins
    {
      twins := [];
      var left := records.Keys;
      while left != {}
        invariant left <= records.Keys && NoDuplicates(twins)
        invariant forall id :: id in records.Keys - left ==> id.twin in twins
        decreases left
      {
        var id :| id in left;
        left := left - {id};
        ghost var was := twins;
        if id.twin !in twins {
          twins := twins + [id.twin];
        }
        forall other | other in records.Keys - left ensures other.twin in twins {
          assert other == id || other.twin in was;
        }
      }
    }

    /** The contracts of a twin, each once. */
    method ByTwin(twin: nat) returns (ids: seq<nat>)
      ensures NoDuplicates(ids)
      ensures forall c :: c in ids <==> DlId(twin, c) in records
    {
      ids := [];
      var left := set id | id in records && id.twin == twin;
      while left != {}
        invariant forall id :: id in left ==> id in records && id.twin == twin && id.contract !in ids
        invariant NoDuplicates(ids)
        invariant forall c :: c in ids ==> DlId(twin, c) in records
        invariant forall id :: id in records && id.twin == twin && id !in left ==> id.contract in ids
        decreases left
      {
        var id :| id in left;
        left := left - {id};
        ghost var was := ids;
        ids := ids + [id.contract];
        assert forall c :: c in ids <==> c in was || c == id.contract;
        assert id == DlId(twin, id.contract);
      }
      forall c | DlId(twin, c) in records ensures c in ids {
        assert DlId(twin, c).contract in ids;
      }
    }

    /** `d` is the copy of a stored deployment that has an ok or paused workload. */
    ghost predicate Okay(d: Deployment)
      reads this
    {
      d.id in records && Lists(d.workloads, records[d.id].cells) && HasOkay(records[d.id].cells)
    }

    /** `dls` are the deployments, `left` aside, that have an ok or paused workload. */
    ghost predicate OkaysBut(dls: seq<Deployment>, left: set<DlId>)
      reads this
    {
      && (forall i :: 0 <= i < |dls| ==> Okay(dls[i]) && dls[i].id !in left)
      && (forall i, j :: 0 <= i < j < |dls| ==> dls[i].id != dls[j].id)
      && (forall id :: id in records && id !in left && HasOkay(records[id].cells) ==> HasId(dls, id))
    }

    lemma OkaysMore(dls: seq<Deployment>, left: set<DlId>, d: Deployment)
      requires OkaysBut(dls, left + {d.id}) && d.id !in left && IsCopy(records, d.id, d)
      ensures OkaysBut(if HasOkay(records[d.id].cells) then dls + [d] else dls, left)
    {
      HasIdMore(dls, d);
    }

    /** The deployments that have an ok or paused workload, each once. */
    method Capacity() returns (dls: seq<Deployment>)
      requires Valid()
      ensures forall i :: 0 <= i < |dls| ==> Okay(dls[i])
      ensures forall i, j :: 0 <= i < j < |dls| ==> dls[i].id != dls[j].id
      ensures forall id :: id in records && HasOkay(records[id].cells) ==> HasId(dls, id)
    {
      dls := [];
      var left := records.Keys;
      while left != {}
        invariant left <= records.Keys && OkaysBut(dls, left)
        decreases left
      {
        var id :| id in left;
        ghost var before := left;
        left := left - {id};
        assert before == left + {id};
        var d := Get(id);
        var cells := records[id].cells;
        OkaysMore(dls, left, d.value);
        if n :| n in cells && cells[n].result.state.IsOkay() {
          assert HasOkay(cells);
          dls := dls + [d.value];
        }
      }
    }

    method Current(id: DlId, name: Name) returns (r: Lookup<Workload>)
      ensures r.NoDeployment? <==> SlotIn(records, id) == None
      ensures r.NoWorkload? <==> SlotIn(records, id).Some? && CellOf(SlotIn(records, id).value, name) == None
      ensures r.Found? ==> SlotIn(records, id).Some? && CellOf(SlotIn(records, id).value, name) == Some(r.value)
    {
      r := if id !in records then NoDeployment
           else if name !in records[id].cells then NoWorkload
           else Found(records[id].cells[name]);
    }

    /** Replaces the header of a deployment; its workloads stay. */
    method Update(id: DlId, header: Header) returns (ok: bool)
      requires Valid()
      modifies this`records
      ensures Valid()
      ensures ok == (id in old(records))
      ensures records == if ok then old(records)[id := Record(header, old(records)[id].cells)] else old(records)
    {
      ok := id in records;
      if ok {
        records := records[id := records[id].(header := header)];
      }
    }

    /** One durable write of the workloads of a deployment. */
    method Put(id: DlId, slot: Slot)
      requires Valid() && (slot.Some? ==> id in records && KeyedByName(slot.value))
      modifies this
      ensures Valid()
      ensures records == PutIn(old(records), id, slot) && trail == old(trail) + [Written(id, slot)]
    {
      match slot {
        case None => records := records - {id};
        case Some(cells) => records := records[id := records[id].(cells := cells)];
      }
      trail := trail + [Written(id, slot)];
    }

    method Add(id: DlId, w: Workload) returns (ok: bool)
      requires Valid()
      modifies this
      ensures Valid()
      ensures ok == (id in old(records) && w.name !in old(records)[id].cells)
      ensures ok ==> var slot := Some(old(records)[id].cells[w.name := w.WithResults(InitResult())]);
        records == PutIn(old(records), id, slot) && trail == old(trail) + [Written(id, slot)]
      ensures !ok ==> records == old(records) && trail == old(trail)
    {
      ok := id in records && w.name !in records[id].cells;
      if ok {
        Put(id, Some(records[id].cells[w.name := w.WithResults(InitResult())]));
      }
    }

    /** Logs a record; it becomes the current one if the deployment has the name. */
    method Transaction(id: DlId, w: Workload) returns (ok: bool)
      requires Valid()
      modifies this
      ensures Valid()
      ensures ok == (id in old(records))
      ensures ok ==> var cells := old(records)[id].cells;
        var slot := Some(SetCell(cells, w.name, Logged(CellOf(cells, w.name), w)));
        records == PutIn(old(records), id, slot) && trail == old(trail) + [Written(id, slot)]
      ensures !ok ==> records == old(records) && trail == old(trail)
    {
      ok := id in records;
      if ok {
        var cells := records[id].cells;
        if w.name in cells {
          Put(id, Some(cells[w.name := w]));
        } else {
          assert cells - {w.name} == cells;
          Put(id, Some(cells));
        }
      }
    }

    method Remove(id: DlId, name: Name) returns (ok: bool)
      requires Valid()
      modifies this
      ensures Valid()
      ensures ok == (id in old(records))
      ensures ok ==> var slot := Some(old(records)[id].cells - {name});
        records == PutIn(old(records), id, slot) && trail == old(trail) + [Written(id, slot)]
      ensures !ok ==> records == old(records) && trail == old(trail)
    {
      ok := id in records;
      if ok {
        Put(id, Some(records[id].cells - {name}));
      }
    }

    /** Deletes the whole deployment; deleting a missing one is no error. */
    method Delete(id: DlId)
      requires Valid()
      modifies this
      ensures Valid()
      ensures records == PutIn(old(records), id, None) && trail == old(trail) + [Written(id, None)]
    {
      Put(id, None);
    }

    method Error(id: DlId, err: string) returns (ok: bool)
      requires Valid()
      modifies this
      ensures Valid()
      ensures ok == (id in old(records))
      ensures ok ==> var slot := MarkError(Some(old(records)[id].cells), err);
        records == PutIn(old(records), id, slot) && trail == old(trail) + [Written(id, slot)]
      ensures !ok ==> records == old(records) && trail == old(trail)
    {
      ok := id in records;
      if ok {
        Put(id, MarkError(Some(records[id].cells), err));
      }
    }
  }

  /** The on-disk FIFO of jobs. */
  class JobQueue {
    var jobs: seq<Job>

    constructor ()
      ensures jobs == []
    {
      jobs := [];
    }

    method Enqueue(job: Job)
      modifies this
      ensures jobs == old(jobs) + [job]
    {
      jobs := jobs + [job];
    }

    /** The head, without removing it; blocks while the queue is empty. */
    method PeekBlock() returns (job: Job)
      requires jobs != []
      ensures job == jobs[0]
    {
      job := jobs[0];
    }

    /** Drops the head, unless the disk fails. */
    method Dequeue(fails: bool)
      requires jobs != []
      modifies this
      ensures jobs == if fails then old(jobs) else old(jobs)[1..]
    {
      if !fails {
        jobs := jobs[1..];
      }
    }
  }
}
