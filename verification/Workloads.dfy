/** The values the provisioning engine works on: workloads, their results and deployments.
    Timestamps of results are not modelled. */
module Workloads {

  datatype Option<+T> = None | Some(value: T)

  type Name = string
  type WorkloadType = string

  datatype ResultState = Init | Ok | Error | Deleted | Paused | UnChanged
  {
    predicate IsOkay() { this == Ok || this == Paused }

    predicate IsDead() { this == Deleted || this == Error }
  }

  datatype Result = Result(state: ResultState, error: string, data: string)

  /** `spec` stands for everything the owner wrote in the workload besides its name and type. */
  datatype Workload = Workload(name: Name, typ: WorkloadType, spec: string, result: Result)
  {
    function WithResults(r: Result): Workload { this.(result := r) }
  }

  datatype DlId = DlId(twin: nat, contract: nat)

  datatype Header = Header(version: nat, signature: string, description: string, metadata: string)

  datatype Deployment = Deployment(id: DlId, header: Header, workloads: seq<Workload>)

  /** The current record of each workload name of one stored deployment. */
  type Cells = map<Name, Workload>

  /** One workload name of a stored deployment: its current record, or nothing. */
  type Cell = Option<Workload>

  /** One deployment of the store: `None` when the deployment does not exist, which is
      different from a deployment that exists and lacks a workload. */
  type Slot = Option<Cells>

  ghost predicate DistinctNames(ws: seq<Workload>)
  {
    forall i, j :: 0 <= i < j < |ws| ==> ws[i].name != ws[j].name
  }

  ghost predicate KeyedByName(cells: Cells)
  {
    forall n :: n in cells ==> cells[n].name == n
  }

  /** `ws` lists the records of `cells`, each once, in some order. */
  ghost predicate Lists(ws: seq<Workload>, cells: Cells)
  {
    && DistinctNames(ws) && KeyedByName(cells)
    && (forall i :: 0 <= i < |ws| ==> ws[i].name in cells && cells[ws[i].name] == ws[i])
    && (forall n :: n in cells ==> cells[n] in ws)
  }

  /** Any workload is paused. */
  ghost predicate LockedCells(cells: Cells)
  {
    exists n :: n in cells && cells[n].result.state == Paused
  }

  /** Any workload is ok or paused. */
  ghost predicate HasOkay(cells: Cells)
  {
    exists n :: n in cells && cells[n].result.state.IsOkay()
  }

  function CellOf(cells: Cells, name: Name): Cell
  {
    if name in cells then Some(cells[name]) else None
  }

  function SetCell(cells: Cells, name: Name, cell: Cell): Cells
  {
    match cell
    case None => cells - {name}
    case Some(w) => cells[name := w]
  }
}
