/** In which order the engine visits workloads and operations (pkg/provision/engine.go). */
module Plans {
  import opened Workloads
  import opened Sorting

  datatype UpgradeOp = Remove(wl: Workload) | Add(wl: Workload) | Change(wl: Workload)

  const ZMOUNT: WorkloadType := "zmount"
  const VOLUME: WorkloadType := "volume"

  ghost predicate NoDuplicates<T(!new)>(s: seq<T>)
  {
    forall i, j :: 0 <= i < j < |s| ==> s[i] != s[j]
  }

  /** What a startup order promises: every registered type exactly once, the requested ones first
      and in the requested order, and an index that is the position counted from one. */
  ghost predicate StartupOrder(requested: seq<WorkloadType>, registered: set<WorkloadType>,
                               order: seq<WorkloadType>, index: map<WorkloadType, int>)
  {
    && NoDuplicates(order)
    && (set t | t in order) == registered
    && requested <= order
    && Indexed(order, index)
  }

  ghost predicate Indexed(order: seq<WorkloadType>, index: map<WorkloadType, int>)
  {
    forall i :: 0 <= i < |order| ==> order[i] in index && index[order[i]] == i + 1
  }

  /** A Go map answers zero for a key it lacks. */
  function IndexOf(index: map<WorkloadType, int>, t: WorkloadType): int
  {
    if t in index then index[t] else 0
  }

  /** `Deployment.ByType`: an order-preserving filter. */
  function ByType(ws: seq<Workload>, t: WorkloadType): seq<Workload>
  {
    if ws == [] then []
    else (if ws[0].typ == t then [ws[0]] else []) + ByType(ws[1..], t)
  }

  /** Size of a mount; nothing when the workload data does not decode to a mount. */
  type Sizes = Workload -> Option<nat>

  predicate LargerMount(sizes: Sizes, x: Workload, y: Workload)
  {
    sizes(x).Some? && sizes(y).Some? && sizes(x).value > sizes(y).value
  }

  function SortMounts(sizes: Sizes, ws: seq<Workload>): seq<Workload>
  {
    Sort((x, y) => LargerMount(sizes, x, y), ws)
  }

  predicate IsMount(t: WorkloadType) { t == ZMOUNT || t == VOLUME }

  function InstallGroup(sizes: Sizes, ws: seq<Workload>, t: WorkloadType): seq<Workload>
  {
    if IsMount(t) then SortMounts(sizes, ByType(ws, t)) else ByType(ws, t)
  }

  /** The visits of an install: types in order, mounts of one type largest first. */
  function InstallPlan(sizes: Sizes, order: seq<WorkloadType>, ws: seq<Workload>): seq<Workload>
  {
    if order == [] then [] else InstallGroup(sizes, ws, order[0]) + InstallPlan(sizes, order[1..], ws)
  }

  /** The visits of a resume: types in order. */
  function UpPlan(order: seq<WorkloadType>, ws: seq<Workload>): seq<Workload>
  {
    if order == [] then [] else ByType(ws, order[0]) + UpPlan(order[1..], ws)
  }

  /** The visits of an uninstall or a pause: types in reverse order. */
  function DownPlan(order: seq<WorkloadType>, ws: seq<Workload>): seq<Workload>
  {
    if order == [] then [] else ByType(ws, order[|order| - 1]) + DownPlan(order[..|order| - 1], ws)
  }

  /** Removals are negative, so they come before everything else and in reverse order. */
  function OpKey(index: map<WorkloadType, int>, op: UpgradeOp): int
  {
    if op.Remove? then -IndexOf(index, op.wl.typ) else IndexOf(index, op.wl.typ)
  }

  function KeyOfOp(index: map<WorkloadType, int>): UpgradeOp -> int
  {
    op => OpKey(index, op)
  }

  function SortOps(index: map<WorkloadType, int>, ops: seq<UpgradeOp>): seq<UpgradeOp>
  {
    Sort(ByKey(KeyOfOp(index)), ops)
  }

  // ---------- coverage ----------

  lemma {:induction false} ByTypeCounts(ws: seq<Workload>, t: WorkloadType, w: Workload)
    ensures multiset(ByType(ws, t))[w] == if w.typ == t then multiset(ws)[w] else 0
  {
    if ws != [] {
      ByTypeCounts(ws[1..], t, w);
      assert ws == [ws[0]] + ws[1..];
    }
  }

  lemma {:induction false} ByTypeTypes(ws: seq<Workload>, t: WorkloadType)
    ensures forall i :: 0 <= i < |ByType(ws, t)| ==> ByType(ws, t)[i].typ == t
  {
    if ws != [] { ByTypeTypes(ws[1..], t); }
  }

  lemma InstallGroupIsByType(sizes: Sizes, ws: seq<Workload>, t: WorkloadType)
    ensures multiset(InstallGroup(sizes, ws, t)) == multiset(ByType(ws, t))
    ensures |InstallGroup(sizes, ws, t)| == |ByType(ws, t)|
    ensures forall i :: 0 <= i < |InstallGroup(sizes, ws, t)| ==> InstallGroup(sizes, ws, t)[i].typ == t
  {
    SortPermutes((x, y) => LargerMount(sizes, x, y), ByType(ws, t));
    ByTypeTypes(ws, t);
    forall i | 0 <= i < |InstallGroup(sizes, ws, t)| ensures InstallGroup(sizes, ws, t)[i].typ == t {
      assert InstallGroup(sizes, ws, t)[i] in multiset(InstallGroup(sizes, ws, t));
    }
  }

  lemma {:induction false} UpPlanCounts(order: seq<WorkloadType>, ws: seq<Workload>, w: Workload)
    requires NoDuplicates(order)
    ensures multiset(UpPlan(order, ws))[w] == if w.typ in order then multiset(ws)[w] else 0
  {
    if order != [] {
      ByTypeCounts(ws, order[0], w);
      UpPlanCounts(order[1..], ws, w);
      assert w.typ in order <==> w.typ == order[0] || w.typ in order[1..];
    }
  }

  lemma {:induction false} DownPlanCounts(order: seq<WorkloadType>, ws: seq<Workload>, w: Workload)
    requires NoDuplicates(order)
    ensures multiset(DownPlan(order, ws))[w] == if w.typ in order then multiset(ws)[w] else 0
  {
    if order != [] {
      var last, front := order[|order| - 1], order[..|order| - 1];
      ByTypeCounts(ws, last, w);
      DownPlanCounts(front, ws, w);
      assert w.typ in order <==> w.typ == last || w.typ in front;
    }
  }

  lemma {:induction false} InstallPlanPermutes(sizes: Sizes, order: seq<WorkloadType>, ws: seq<Workload>)
    ensures multiset(InstallPlan(sizes, order, ws)) == multiset(UpPlan(order, ws))
    ensures TypesOf(InstallPlan(sizes, order, ws)) == TypesOf(UpPlan(order, ws))
  {
    if order != [] {
      InstallPlanPermutes(sizes, order[1..], ws);
      InstallGroupIsByType(sizes, ws, order[0]);
      ByTypeTypes(ws, order[0]);
      TypesOfAppend(InstallGroup(sizes, ws, order[0]), InstallPlan(sizes, order[1..], ws));
      TypesOfAppend(ByType(ws, order[0]), UpPlan(order[1..], ws));
      assert TypesOf(InstallGroup(sizes, ws, order[0])) == TypesOf(ByType(ws, order[0]));
    }
  }

  /** `plan` visits the workloads of ordered types as often as `ws` has them, and no others. */
  ghost predicate Covers(order: seq<WorkloadType>, ws: seq<Workload>, plan: seq<Workload>)
  {
    forall w :: multiset(plan)[w] == if w.typ in order then multiset(ws)[w] else 0
  }

  lemma PlanHas(order: seq<WorkloadType>, ws: seq<Workload>, plan: seq<Workload>, w: Workload) returns (i: nat)
    requires Covers(order, ws, plan) && w in ws && w.typ in order
    ensures i < |plan| && plan[i] == w
  {
    assert w in multiset(ws);
    assert w in multiset(plan);
    i :| i < |plan| && plan[i] == w;
  }

  lemma PlanOnly(order: seq<WorkloadType>, ws: seq<Workload>, plan: seq<Workload>, i: nat)
    requires Covers(order, ws, plan) && i < |plan|
    ensures plan[i] in ws && plan[i].typ in order
  {
    assert plan[i] in multiset(plan);
    assert plan[i] in multiset(ws);
  }

  lemma CoversAll(order: seq<WorkloadType>, ws: seq<Workload>, plan: seq<Workload>)
    requires Covers(order, ws, plan)
    requires forall w :: w in ws ==> w.typ in order
    ensures multiset(plan) == multiset(ws)
  {
    forall w ensures multiset(plan)[w] == multiset(ws)[w] {
      assert w in multiset(ws) <==> w in ws;
    }
  }

  /** Exactly once: each of the three plans visits every workload of an ordered type once; when
      every type is in the order the plans are permutations of the workloads. */
  lemma Coverage(sizes: Sizes, order: seq<WorkloadType>, ws: seq<Workload>)
    requires NoDuplicates(order)
    ensures Covers(order, ws, InstallPlan(sizes, order, ws))
    ensures Covers(order, ws, UpPlan(order, ws))
    ensures Covers(order, ws, DownPlan(order, ws))
    ensures (forall w :: w in ws ==> w.typ in order) ==>
      && multiset(InstallPlan(sizes, order, ws)) == multiset(ws)
      && multiset(UpPlan(order, ws)) == multiset(ws)
      && multiset(DownPlan(order, ws)) == multiset(ws)
  {
    InstallPlanPermutes(sizes, order, ws);
    forall w { UpPlanCounts(order, ws, w); }
    forall w { DownPlanCounts(order, ws, w); }
    if forall w :: w in ws ==> w.typ in order {
      CoversAll(order, ws, UpPlan(order, ws));
      CoversAll(order, ws, DownPlan(order, ws));
    }
  }

  // ---------- order and mirror ----------

  function TypesOf(ws: seq<Workload>): seq<WorkloadType>
  {
    seq(|ws|, i requires 0 <= i < |ws| => ws[i].typ)
  }

  lemma TypesOfAppend(a: seq<Workload>, b: seq<Workload>)
    ensures TypesOf(a + b) == TypesOf(a) + TypesOf(b)
  {}

  function Reverse<T>(s: seq<T>): seq<T>
  {
    seq(|s|, i requires 0 <= i < |s| => s[|s| - 1 - i])
  }

  lemma {:induction false} UpPlanSnoc(order: seq<WorkloadType>, t: WorkloadType, ws: seq<Workload>)
    ensures UpPlan(order + [t], ws) == UpPlan(order, ws) + ByType(ws, t)
  {
    if order == [] {
      assert ([] + [t])[1..] == [];
      assert UpPlan([t][1..], ws) == [];
    } else {
      assert (order + [t])[1..] == order[1..] + [t];
      UpPlanSnoc(order[1..], t, ws);
    }
  }

  lemma ReverseAppend<T>(a: seq<T>, b: seq<T>)
    ensures Reverse(a + b) == Reverse(b) + Reverse(a)
  {}

  lemma OneTypeReverses(ws: seq<Workload>, t: WorkloadType)
    ensures Reverse(TypesOf(ByType(ws, t))) == TypesOf(ByType(ws, t))
  {
    ByTypeTypes(ws, t);
  }

  lemma {:induction false} DownIsReversedUp(order: seq<WorkloadType>, ws: seq<Workload>)
    ensures TypesOf(DownPlan(order, ws)) == Reverse(TypesOf(UpPlan(order, ws)))
  {
    if order != [] {
      var front, t := order[..|order| - 1], order[|order| - 1];
      var g := ByType(ws, t);
      DownIsReversedUp(front, ws);
      assert order == front + [t];
      UpPlanSnoc(front, t, ws);
      TypesOfAppend(g, DownPlan(front, ws));
      TypesOfAppend(UpPlan(front, ws), g);
      OneTypeReverses(ws, t);
      ReverseAppend(TypesOf(UpPlan(front, ws)), TypesOf(g));
    }
  }

  lemma {:induction false} InstallPlanSnoc(sizes: Sizes, order: seq<WorkloadType>, t: WorkloadType, ws: seq<Workload>)
    ensures InstallPlan(sizes, order + [t], ws) == InstallPlan(sizes, order, ws) + InstallGroup(sizes, ws, t)
  {
    if order == [] {
      assert ([] + [t])[1..] == [];
      assert InstallPlan(sizes, [t][1..], ws) == [];
    } else {
      assert (order + [t])[1..] == order[1..] + [t];
      InstallPlanSnoc(sizes, order[1..], t, ws);
    }
  }

  lemma {:induction false} DownPlanCons(t: WorkloadType, order: seq<WorkloadType>, ws: seq<Workload>)
    ensures DownPlan([t] + order, ws) == DownPlan(order, ws) + ByType(ws, t)
  {
    if order == [] {
      assert [t][..0] == [];
      assert DownPlan([t][..0], ws) == [];
    } else {
      assert ([t] + order)[..|order|] == [t] + order[..|order| - 1];
      DownPlanCons(t, order[..|order| - 1], ws);
    }
  }

  /** The types an uninstall or a pause visits are those of an install or a resume, in reverse. */
  lemma Mirror(sizes: Sizes, order: seq<WorkloadType>, ws: seq<Workload>)
    ensures TypesOf(DownPlan(order, ws)) == Reverse(TypesOf(InstallPlan(sizes, order, ws)))
    ensures TypesOf(DownPlan(order, ws)) == Reverse(TypesOf(UpPlan(order, ws)))
  {
    InstallPlanPermutes(sizes, order, ws);
    DownIsReversedUp(order, ws);
  }

  /** Startup indices along a sequence of types never decrease. */
  ghost predicate Rising(index: map<WorkloadType, int>, ts: seq<WorkloadType>)
  {
    forall i, j :: 0 <= i < j < |ts| ==> IndexOf(index, ts[i]) <= IndexOf(index, ts[j])
  }

  ghost predicate Falling(index: map<WorkloadType, int>, ts: seq<WorkloadType>)
  {
    forall i, j :: 0 <= i < j < |ts| ==> IndexOf(index, ts[i]) >= IndexOf(index, ts[j])
  }

  lemma {:induction false} UpPlanRises(order: seq<WorkloadType>, index: map<WorkloadType, int>, ws: seq<Workload>)
    requires Rising(index, order)
    ensures Rising(index, TypesOf(UpPlan(order, ws)))
    ensures forall i :: 0 <= i < |UpPlan(order, ws)| ==> UpPlan(order, ws)[i].typ in order
  {
    if order != [] {
      var a, b := ByType(ws, order[0]), UpPlan(order[1..], ws);
      ByTypeTypes(ws, order[0]);
      UpPlanRises(order[1..], index, ws);
      TypesOfAppend(a, b);
      forall i | 0 <= i < |b| ensures IndexOf(index, order[0]) <= IndexOf(index, b[i].typ) {
        var k :| 0 <= k < |order[1..]| && order[1..][k] == b[i].typ;
        assert order[k + 1] == b[i].typ;
      }
      var ts := TypesOf(b);
      forall i, j | 0 <= i < j < |a + b|
        ensures IndexOf(index, (a + b)[i].typ) <= IndexOf(index, (a + b)[j].typ)
      {
        if i >= |a| { assert IndexOf(index, ts[i - |a|]) <= IndexOf(index, ts[j - |a|]); }
      }
    }
  }

  lemma ReverseFalls(index: map<WorkloadType, int>, ts: seq<WorkloadType>)
    requires Rising(index, ts)
    ensures Falling(index, Reverse(ts))
  {}

  /** Installs and resumes visit types in non-decreasing startup index, uninstalls and pauses in
      non-increasing index. */
  lemma VisitOrder(sizes: Sizes, order: seq<WorkloadType>, index: map<WorkloadType, int>, ws: seq<Workload>)
    requires Indexed(order, index)
    ensures Rising(index, TypesOf(InstallPlan(sizes, order, ws)))
    ensures Rising(index, TypesOf(UpPlan(order, ws)))
    ensures Falling(index, TypesOf(DownPlan(order, ws)))
  {
    UpPlanRises(order, index, ws);
    InstallPlanPermutes(sizes, order, ws);
    Mirror(sizes, order, ws);
    ReverseFalls(index, TypesOf(UpPlan(order, ws)));
  }

  // ---------- mounts and operations ----------

  /** When every size decodes, sorting mounts is a permutation into descending size; mounts of
      equal size keep their order. */
  lemma LargestFirst(sizes: Sizes, ws: seq<Workload>)
    ensures multiset(SortMounts(sizes, ws)) == multiset(ws)
    ensures (forall w :: w in ws ==> sizes(w).Some?) ==>
      forall i, j :: 0 <= i < j < |ws| ==>
        var s := SortMounts(sizes, ws);
        |s| == |ws| && sizes(s[i]).Some? && sizes(s[j]).Some? && sizes(s[i]).value >= sizes(s[j]).value
  {
    var larger := (x, y) => LargerMount(sizes, x, y);
    var key: Workload -> int := w => if sizes(w).Some? then 0 - sizes(w).value else 0;
    SortPermutes(larger, ws);
    if forall w :: w in ws ==> sizes(w).Some? {
      SortAgrees(larger, ByKey(key), ws);
      SortIsStable(key, ws);
      var s := SortMounts(sizes, ws);
      forall i | 0 <= i < |s| ensures s[i] in ws {
        assert s[i] in multiset(s);
      }
      forall i, j | 0 <= i < j < |s| ensures sizes(s[i]).value >= sizes(s[j]).value {
        assert key(s[i]) <= key(s[j]);
      }
    }
  }

  /** Sorting the operations of an update is a stable permutation by key, and with an indexed
      order it puts every removal before everything else: removals by non-increasing index,
      the rest by non-decreasing index. */
  lemma OperationOrder(order: seq<WorkloadType>, index: map<WorkloadType, int>, ops: seq<UpgradeOp>)
    requires Indexed(order, index)
    requires forall op :: op in ops ==> op.wl.typ in order
    ensures var s := SortOps(index, ops);
      && multiset(s) == multiset(ops)
      && SameOfEachKey(KeyOfOp(index), s, ops)
      && forall i, j :: 0 <= i < j < |s| ==>
           && (s[j].Remove? ==> s[i].Remove? && IndexOf(index, s[i].wl.typ) >= IndexOf(index, s[j].wl.typ))
           && (!s[i].Remove? ==> !s[j].Remove? && IndexOf(index, s[i].wl.typ) <= IndexOf(index, s[j].wl.typ))
  {
    var key := KeyOfOp(index);
    SortIsStable(key, ops);
    SortPermutes(ByKey(key), ops);
    var s := SortOps(index, ops);
    forall i | 0 <= i < |s| ensures IndexOf(index, s[i].wl.typ) >= 1 {
      assert s[i] in multiset(s);
      var k :| 0 <= k < |order| && order[k] == s[i].wl.typ;
    }
    forall i, j | 0 <= i < j < |s| ensures OpKey(index, s[i]) <= OpKey(index, s[j]) {
      assert key(s[i]) <= key(s[j]);
    }
  }
}
