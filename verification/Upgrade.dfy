/** Upgrading the node to a new tag (pkg/upgrade/upgrade.go). */
module Upgrade {

  const ZOS: string := "zos.flist"

  /** A package of a tag: its own name, and the repository and name its target resolves to, or
      `broken` when it does not resolve. */
  datatype Package = Package(link: string, repo: string, name: string, broken: bool)

  datatype Flist = Flist(repo: string, name: string)

  function Dest(p: Package): Flist { Flist(p.repo, p.name) }

  function Dests(packages: seq<Package>): seq<Flist>
  {
    seq(|packages|, i requires 0 <= i < |packages| => Dest(packages[i]))
  }

  /** Whether installing works, in one attempt. */
  type Works = Flist -> bool

  /** Of a zos package it is not asked whether its target resolved. */
  predicate Installs(works: Works, p: Package)
  {
    works(Dest(p)) && (p.link == ZOS || !p.broken)
  }

  ghost predicate AllInstall(works: Works, packages: seq<Package>)
  {
    forall i :: 0 <= i < |packages| ==> Installs(works, packages[i])
  }

  /** One attempt at a tag: the packages and current names it saw, how installing worked, and whether
      recording the tag failed. */
  datatype Attempt = Attempt(packages: seq<Package>, current: seq<string>, works: Works, setFails: bool)
  {
    predicate IsNew(p: Package) { p.name !in current }
  }

  /** Among the first `n` packages, those whose target name the current tag does not have and that are
      not zos, in listing order. */
  function NeededTo(a: Attempt, n: nat): seq<Package>
    requires n <= |a.packages|
  {
    if n == 0 then []
    else
      var p := a.packages[n - 1];
      NeededTo(a, n - 1) + if a.IsNew(p) && p.link != ZOS then [p] else []
  }

  /** The same for zos packages. */
  function ZosTo(a: Attempt, n: nat): seq<Package>
    requires n <= |a.packages|
  {
    if n == 0 then []
    else
      var p := a.packages[n - 1];
      ZosTo(a, n - 1) + if a.IsNew(p) && p.link == ZOS then [p] else []
  }

  function Needed(a: Attempt): seq<Package> { NeededTo(a, |a.packages|) }

  /** What an attempt installs, in order: new packages that are not zos, then zos unless exempt. */
  function Plan(noZos: bool, a: Attempt): seq<Package>
  {
    Needed(a) + if noZos then [] else ZosTo(a, |a.packages|)
  }

  ghost predicate Succeeds(noZos: bool, a: Attempt)
  {
    !a.setFails && AllInstall(a.works, Plan(noZos, a))
  }

  /** Exactly the packages before the first one that does not install are done. */
  ghost predicate Stopped(works: Works, plan: seq<Package>, done: seq<Flist>)
  {
    exists k :: 0 <= k < |plan| && StopsAt(works, plan, done, k)
  }

  ghost predicate StopsAt(works: Works, plan: seq<Package>, done: seq<Flist>, k: nat)
    requires k < |plan|
  {
    done == Dests(plan[..k]) && AllInstall(works, plan[..k]) && !Installs(works, plan[k])
  }

  /** While another package fails, no zos is installed. */
  lemma NoZosBeforeOthers(noZos: bool, a: Attempt, done: seq<Flist>)
    requires Stopped(a.works, Plan(noZos, a), done) && !AllInstall(a.works, Needed(a))
    ensures done <= Dests(Needed(a)) && |done| < |Needed(a)|
  {
    var plan := Plan(noZos, a);
    var k :| 0 <= k < |plan| && StopsAt(a.works, plan, done, k);
    forall i | 0 <= i < k && i < |Needed(a)| ensures Installs(a.works, Needed(a)[i]) {
      assert plan[..k][i] == Needed(a)[i];
    }
    assert plan[..k] == Needed(a)[..k];
  }

  lemma StopsBefore(works: Works, plan: seq<Package>, done: seq<Flist>, rest: seq<Package>)
    requires Stopped(works, plan, done)
    ensures Stopped(works, plan + rest, done)
  {
    var k :| 0 <= k < |plan| && StopsAt(works, plan, done, k);
    assert (plan + rest)[..k] == plan[..k];
    assert StopsAt(works, plan + rest, done, k);
  }

  lemma StopsAfter(works: Works, first: seq<Package>, plan: seq<Package>, done: seq<Flist>)
    requires AllInstall(works, first) && Stopped(works, plan, done)
    ensures Stopped(works, first + plan, Dests(first) + done)
  {
    var k :| 0 <= k < |plan| && StopsAt(works, plan, done, k);
    assert (first + plan)[..|first| + k] == first + plan[..k];
    DestsAppend(first, plan[..k]);
    assert StopsAt(works, first + plan, Dests(first) + done, |first| + k);
  }

  lemma DestsAppend(a: seq<Package>, b: seq<Package>)
    ensures Dests(a + b) == Dests(a) + Dests(b)
  {}

  lemma AllInstallAppend(works: Works, a: seq<Package>, b: seq<Package>)
    ensures AllInstall(works, a + b) <==> AllInstall(works, a) && AllInstall(works, b)
  {
    if AllInstall(works, a + b) {
      forall i | 0 <= i < |a| ensures Installs(works, a[i]) { assert (a + b)[i] == a[i]; }
      forall i | 0 <= i < |b| ensures Installs(works, b[i]) { assert (a + b)[|a| + i] == b[i]; }
    }
  }

  /** What the first loop has done after `n` packages. */
  ghost predicate Progress(a: Attempt, n: nat, done: seq<Flist>, later: seq<Package>)
  {
    n <= |a.packages| && later == ZosTo(a, n) && done == Dests(NeededTo(a, n)) && AllInstall(a.works, NeededTo(a, n))
  }

  lemma ProgressMore(a: Attempt, n: nat, done: seq<Flist>, later: seq<Package>)
    requires n < |a.packages| && Progress(a, n, done, later)
    ensures var p := a.packages[n];
      if !a.IsNew(p) then Progress(a, n + 1, done, later)
      else if p.link == ZOS then Progress(a, n + 1, done, later + [p])
      else Installs(a.works, p) ==> Progress(a, n + 1, done + [Dest(p)], later)
  {
    var p, now, zos := a.packages[n], NeededTo(a, n), ZosTo(a, n);
    assert now + [] == now && zos + [] == zos;
    DestsAppend(now, [p]);
    AllInstallAppend(a.works, now, [p]);
  }

  /** A failure at `n` leaves exactly the packages before it installed. */
  lemma StopsEarly(a: Attempt, n: nat, done: seq<Flist>, later: seq<Package>)
    requires n < |a.packages| && Progress(a, n, done, later)
    requires a.IsNew(a.packages[n]) && a.packages[n].link != ZOS && !Installs(a.works, a.packages[n])
    ensures Stopped(a.works, Needed(a), done) && !AllInstall(a.works, Needed(a))
  {
    var before, p := NeededTo(a, n), a.packages[n];
    NeededGrows(a, n + 1, |a.packages|);
    var k := |before|;
    assert Needed(a)[..k] == before && Needed(a)[k] == p;
    assert StopsAt(a.works, Needed(a), done, k);
  }

  lemma {:induction false} NeededGrows(a: Attempt, i: nat, j: nat)
    requires i <= j <= |a.packages|
    ensures NeededTo(a, i) <= NeededTo(a, j)
    decreases j - i
  {
    if i < j { NeededGrows(a, i, j - 1); }
  }

  lemma {:induction false} ZosIsZos(a: Attempt, n: nat)
    requires n <= |a.packages|
    ensures forall i :: 0 <= i < |ZosTo(a, n)| ==> ZosTo(a, n)[i].link == ZOS
  {
    if n > 0 { ZosIsZos(a, n - 1); }
  }

  // ---------- the plan, by the listing ----------

  /** The current tag does not have it, and it is zos or it is not. */
  predicate Wanted(a: Attempt, p: Package, zos: bool)
  {
    p.name !in a.current && (p.link == "zos.flist") == zos
  }

  /** `at` are the places below `n`, in listing order, of the wanted packages. */
  ghost predicate Places(at: seq<nat>, a: Attempt, n: nat, zos: bool)
  {
    && n <= |a.packages| && Rises(at, n)
    && forall i :: 0 <= i < n ==> (i in at <==> Wanted(a, a.packages[i], zos))
  }

  ghost predicate Rises(at: seq<nat>, n: nat)
  {
    && (forall i, j :: 0 <= i < j < |at| ==> at[i] < at[j])
    && forall k :: 0 <= k < |at| ==> at[k] < n
  }

  function FlistsAt(packages: seq<Package>, at: seq<nat>): seq<Flist>
    requires Rises(at, |packages|)
  {
    seq(|at|, k requires 0 <= k < |at| => Flist(packages[at[k]].repo, packages[at[k]].name))
  }

  /** `done` are the packages the current tag does not have: in listing order those that are not zos,
      and then, unless zos is exempt, those that are. */
  ghost predicate FollowsListing(noZos: bool, a: Attempt, done: seq<Flist>)
  {
    exists others, zos ::
      && Places(others, a, |a.packages|, false) && Places(zos, a, |a.packages|, true)
      && done == FlistsAt(a.packages, others) + if noZos then [] else FlistsAt(a.packages, zos)
  }

  /** Every package that must be installed can be: its target resolves, unless it is zos, and installing
      it works. */
  ghost predicate Installable(noZos: bool, a: Attempt) { InstallableTo(noZos, a, |a.packages|) }

  /** The places below `n`, as the source scans for them. */
  function PlacesTo(a: Attempt, n: nat, zos: bool): (at: seq<nat>)
    requires n <= |a.packages|
    ensures Rises(at, n)
  {
    if n == 0 then []
    else if Wanted(a, a.packages[n - 1], zos) then PlacesTo(a, n - 1, zos) + [n - 1]
    else PlacesTo(a, n - 1, zos)
  }

  lemma {:induction false} PlacesToArePlaces(a: Attempt, n: nat, zos: bool)
    requires n <= |a.packages|
    ensures Places(PlacesTo(a, n, zos), a, n, zos)
  {
    if n > 0 { PlacesToArePlaces(a, n - 1, zos); }
  }

  lemma FlistsMore(packages: seq<Package>, at: seq<nat>, n: nat)
    requires n < |packages| && Rises(at, n)
    ensures FlistsAt(packages, at + [n]) == FlistsAt(packages, at) + [Dest(packages[n])]
  {}

  function PlannedTo(a: Attempt, n: nat, zos: bool): seq<Package>
    requires n <= |a.packages|
  {
    if zos then ZosTo(a, n) else NeededTo(a, n)
  }

  lemma PlannedMore(a: Attempt, n: nat, zos: bool)
    requires n < |a.packages|
    ensures var p, before := a.packages[n], Dests(PlannedTo(a, n, zos));
      Dests(PlannedTo(a, n + 1, zos)) == if Wanted(a, p, zos) then before + [Dest(p)] else before
  {
    var p, before := a.packages[n], PlannedTo(a, n, zos);
    assert before + [] == before;
    DestsAppend(before, [p]);
  }

  lemma {:induction false} PlannedPlaces(a: Attempt, n: nat, zos: bool)
    requires n <= |a.packages|
    ensures Dests(PlannedTo(a, n, zos)) == FlistsAt(a.packages, PlacesTo(a, n, zos))
  {
    if n > 0 {
      PlannedPlaces(a, n - 1, zos);
      PlannedMore(a, n - 1, zos);
      FlistsMore(a.packages, PlacesTo(a, n - 1, zos), n - 1);
    }
  }

  /** The plan, read off the listing. */
  lemma PlanFollowsListing(noZos: bool, a: Attempt)
    ensures FollowsListing(noZos, a, Dests(Plan(noZos, a)))
  {
    var n := |a.packages|;
    PlannedPlaces(a, n, false);
    PlannedPlaces(a, n, true);
    PlacesToArePlaces(a, n, false);
    PlacesToArePlaces(a, n, true);
    DestsAppend(Needed(a), if noZos then [] else ZosTo(a, n));
  }

  ghost predicate InstallableTo(noZos: bool, a: Attempt, n: nat)
    requires n <= |a.packages|
  {
    forall i :: 0 <= i < n && a.packages[i].name !in a.current ==>
      var p := a.packages[i];
      if p.link == "zos.flist" then noZos || a.works(Flist(p.repo, p.name))
      else !p.broken && a.works(Flist(p.repo, p.name))
  }

  lemma {:induction false} InstallableParts(noZos: bool, a: Attempt, n: nat)
    requires n <= |a.packages|
    ensures InstallableTo(noZos, a, n)
      <==> AllInstall(a.works, NeededTo(a, n)) && (noZos || AllInstall(a.works, ZosTo(a, n)))
  {
    if n > 0 {
      var p := a.packages[n - 1];
      InstallableParts(noZos, a, n - 1);
      AllInstallAppend(a.works, NeededTo(a, n - 1), [p]);
      AllInstallAppend(a.works, ZosTo(a, n - 1), [p]);
      OneInstalls(a.works, p);
      assert NeededTo(a, n - 1) + [] == NeededTo(a, n - 1) && ZosTo(a, n - 1) + [] == ZosTo(a, n - 1);
    }
  }

  lemma OneInstalls(works: Works, p: Package)
    ensures AllInstall(works, [p]) <==> Installs(works, p)
  {
    assert [p][0] == p;
  }

  lemma PlanInstalls(noZos: bool, a: Attempt)
    ensures AllInstall(a.works, Plan(noZos, a)) <==> Installable(noZos, a)
  {
    InstallableParts(noZos, a, |a.packages|);
    AllInstallAppend(a.works, Needed(a), if noZos then [] else ZosTo(a, |a.packages|));
  }

  // ---------- the disk ----------

  /** The durable state: the recorded tag and the flists installed so far, in order. */
  datatype Mark = Mark(tag: string, installed: seq<Flist>)

  /** The marks left by installing `done`, one flist after the other, under a tag. */
  function Marks(tag: string, before: seq<Flist>, done: seq<Flist>): seq<Mark>
  {
    seq(|done|, i requires 0 <= i < |done| => Mark(tag, before + done[..i + 1]))
  }

  lemma MarksMore(tag: string, before: seq<Flist>, done: seq<Flist>, f: Flist)
    ensures Marks(tag, before, done + [f]) == Marks(tag, before, done) + [Mark(tag, before + done + [f])]
  {
    assert (done + [f])[..|done| + 1] == done + [f];
    assert before + (done + [f]) == before + done + [f];
    var l, r := Marks(tag, before, done + [f]), Marks(tag, before, done) + [Mark(tag, before + done + [f])];
    forall i | 0 <= i < |done| ensures l[i] == r[i] {
      assert (done + [f])[..i + 1] == done[..i + 1];
    }
  }

  lemma {:induction false} MarksAppend(tag: string, before: seq<Flist>, a: seq<Flist>, b: seq<Flist>)
    ensures Marks(tag, before, a + b) == Marks(tag, before, a) + Marks(tag, before + a, b)
  {
    if b == [] {
      assert a + b == a;
    } else {
      var front, f := b[..|b| - 1], b[|b| - 1];
      MarksAppend(tag, before, a, front);
      MarksMore(tag, before, a + front, f);
      MarksMore(tag, before + a, front, f);
      assert a + b == a + front + [f] && b == front + [f];
      assert before + (a + front) + [f] == before + a + front + [f];
    }
  }

  /** Installing `a` and then `b` is installing both. */
  lemma GrowsOn(tag: string, before: seq<Flist>, trail: seq<Mark>, a: seq<Flist>, b: seq<Flist>)
    ensures before + a + b == before + (a + b)
    ensures trail + Marks(tag, before, a) + Marks(tag, before + a, b) == trail + Marks(tag, before, a + b)
  {
    MarksAppend(tag, before, a, b);
    assert before + a + b == before + (a + b);
    var x, y := Marks(tag, before, a), Marks(tag, before + a, b);
    assert trail + x + y == trail + (x + y);
  }

  lemma GrowsOne(tag: string, before: seq<Flist>, trail: seq<Mark>, done: seq<Flist>, f: Flist)
    ensures before + done + [f] == before + (done + [f])
    ensures trail + Marks(tag, before, done) + [Mark(tag, before + done + [f])] ==
      trail + Marks(tag, before, done + [f])
  {
    MarksMore(tag, before, done, f);
    assert before + done + [f] == before + (done + [f]);
    var x, y := Marks(tag, before, done), [Mark(tag, before + done + [f])];
    assert trail + x + y == trail + (x + y);
  }

  ghost predicate AllUnder(tag: string, trail: seq<Mark>, from: nat)
  {
    from <= |trail| && forall k :: from <= k < |trail| ==> trail[k].tag == tag
  }

  lemma MarksUnder(tag: string, trail: seq<Mark>, from: nat, before: seq<Flist>, done: seq<Flist>)
    requires AllUnder(tag, trail, from)
    ensures AllUnder(tag, trail + Marks(tag, before, done), from)
    ensures trail <= trail + Marks(tag, before, done)
  {}

  /** The node's disk. Its two operations are the only ways to change it, and each is on the trail. */
  class Disk {
    var tag: string
    ghost var installed: seq<Flist>
    ghost var trail: seq<Mark>

    constructor (tag: string)
      ensures Valid() && this.tag == tag && installed == [] && trail == [Mark(tag, [])]
    {
      this.tag, installed, trail := tag, [], [Mark(tag, [])];
    }

    /** The last mark is what the disk says now. */
    ghost predicate Valid()
      reads this
    {
      trail != [] && trail[|trail| - 1] == Mark(tag, installed)
    }

    /** `boot.Set`. */
    method Set(tag: string, fails: bool) returns (ok: bool)
      requires Valid()
      modifies this
      ensures Valid()
      ensures ok == !fails && installed == old(installed)
      ensures this.tag == if ok then tag else old(this.tag)
      ensures trail == old(trail) + if ok then [Mark(tag, installed)] else []
    {
      ok := !fails;
      if ok {
        this.tag := tag;
        trail := trail + [Mark(tag, installed)];
      }
    }

    /** `install` of one flist. */
    method Install(f: Flist, works: Works) returns (ok: bool)
      requires Valid()
      modifies this
      ensures Valid()
      ensures ok == works(f) && tag == old(tag)
      ensures installed == old(installed) + if ok then [f] else []
      ensures trail == old(trail) + if ok then [Mark(tag, installed)] else []
    {
      ok := works(f);
      if ok {
        installed := installed + [f];
        trail := trail + [Mark(tag, installed)];
      }
    }

    /** Since the state (`before`, `trail0`), `done` was installed one by one under the same tag. */
    ghost predicate Grew(tag0: string, before: seq<Flist>, trail0: seq<Mark>, done: seq<Flist>)
      reads this
    {
      Valid() && tag == tag0 && installed == before + done && trail == trail0 + Marks(tag0, before, done)
    }
  }

  class Upgrader {
    const disk: Disk
    const noZosUpgrade: bool

    constructor (disk: Disk, noZosUpgrade: bool)
      ensures this.disk == disk && this.noZosUpgrade == noZosUpgrade
    {
      this.disk, this.noZosUpgrade := disk, noZosUpgrade;
    }

    /** `updateTo`: installs the new packages in listing order, the zos packages last and only if not
        exempt, and stops at the first failure. `done` are the flists installed. */
    method UpdateTo(a: Attempt) returns (ok: bool, ghost done: seq<Flist>)
      requires disk.Valid()
      modifies disk
      ensures ok <==> Installable(noZosUpgrade, a)
      ensures ok ==> FollowsListing(noZosUpgrade, a, done)
      ensures ok <==> AllInstall(a.works, Plan(noZosUpgrade, a))
      ensures ok ==> done == Dests(Plan(noZosUpgrade, a))
      ensures !ok ==> Stopped(a.works, Plan(noZosUpgrade, a), done)
      ensures disk.Grew(old(disk.tag), old(disk.installed), old(disk.trail), done)
    {
      var later;
      PlanFollowsListing(noZosUpgrade, a);
      PlanInstalls(noZosUpgrade, a);
      ok, done, later := InstallOthers(a);
      ghost var first, rest := done, if noZosUpgrade then [] else ZosTo(a, |a.packages|);
      AllInstallAppend(a.works, Needed(a), rest);
      if !ok {
        StopsBefore(a.works, Needed(a), done, rest);
        return;
      }
      DestsAppend(Needed(a), rest);
      if noZosUpgrade {
        return;
      }
      ghost var more;
      ZosIsZos(a, |a.packages|);
      ok, more := InstallLater(later, a.works);
      GrowsOn(old(disk.tag), old(disk.installed), old(disk.trail), first, more);
      if !ok {
        StopsAfter(a.works, Needed(a), rest, more);
      }
      done := first + more;
    }

    /** The first loop: everything that is not zos, collecting zos packages for later. */
    method InstallOthers(a: Attempt) returns (ok: bool, ghost done: seq<Flist>, later: seq<Package>)
      requires disk.Valid()
      modifies disk
      ensures ok <==> AllInstall(a.works, Needed(a))
      ensures ok ==> done == Dests(Needed(a)) && later == ZosTo(a, |a.packages|)
      ensures !ok ==> Stopped(a.works, Needed(a), done)
      ensures disk.Grew(old(disk.tag), old(disk.installed), old(disk.trail), done)
    {
      done, later := [], [];
      for i := 0 to |a.packages|
        invariant Progress(a, i, done, later)
        invariant disk.Grew(old(disk.tag), old(disk.installed), old(disk.trail), done)
      {
        var pkg := a.packages[i];
        ProgressMore(a, i, done, later);
        if pkg.name in a.current {
          continue;
        }
        if pkg.link == ZOS {
          later := later + [pkg];
          continue;
        }
        ok := false;
        if !pkg.broken {
          ok := disk.Install(Dest(pkg), a.works);
        }
        if !ok {
          StopsEarly(a, i, done, later);
          return;
        }
        GrowsOne(old(disk.tag), old(disk.installed), old(disk.trail), done, Dest(pkg));
        done := done + [Dest(pkg)];
      }
      ok := true;
    }

    /** The second loop: the zos packages. */
    method InstallLater(later: seq<Package>, works: Works) returns (ok: bool, ghost done: seq<Flist>)
      requires disk.Valid() && forall i :: 0 <= i < |later| ==> later[i].link == ZOS
      modifies disk
      ensures ok <==> AllInstall(works, later)
      ensures if ok then done == Dests(later) else Stopped(works, later, done)
      ensures disk.Grew(old(disk.tag), old(disk.installed), old(disk.trail), done)
    {
      done := [];
      for i := 0 to |later|
        invariant done == Dests(later[..i]) && AllInstall(works, later[..i])
        invariant disk.Grew(old(disk.tag), old(disk.installed), old(disk.trail), done)
      {
        ok := disk.Install(Dest(later[i]), works);
        if !ok {
          assert StopsAt(works, later, done, i);
          return;
        }
        GrowsOne(old(disk.tag), old(disk.installed), old(disk.trail), done, Dest(later[i]));
        done := done + [Dest(later[i])];
        assert later[..i + 1] == later[..i] + [later[i]];
      }
      assert later[..|later|] == later;
      ok := true;
    }

    /** `update`: when the remote tag differs and its rollout has reached this node, install it, one
        flist after the other under the old tag, and only then record the new tag and ask for a
        restart. */
    method Update(remote: string, rolledOut: bool, a: Attempt) returns (restart: bool, ghost done: seq<Flist>)
      requires disk.Valid()
      modifies disk
      ensures disk.Valid()
      ensures restart <==> old(disk.tag) != remote && rolledOut && Succeeds(noZosUpgrade, a)
      ensures restart <==> old(disk.tag) != remote && rolledOut && Installable(noZosUpgrade, a) && !a.setFails
      ensures restart ==> FollowsListing(noZosUpgrade, a, done)
      ensures disk.tag == if restart then remote else old(disk.tag)
      ensures disk.installed == old(disk.installed) + done
      ensures disk.trail == old(disk.trail) + Marks(old(disk.tag), old(disk.installed), done)
        + if restart then [Mark(remote, disk.installed)] else []
      ensures if old(disk.tag) == remote || !rolledOut then done == []
              else if AllInstall(a.works, Plan(noZosUpgrade, a)) then done == Dests(Plan(noZosUpgrade, a))
              else Stopped(a.works, Plan(noZosUpgrade, a), done)
    {
      done := [];
      if remote == disk.tag || !rolledOut {
        return false, [];
      }
      var ok;
      ok, done := UpdateTo(a);
      if !ok {
        return false, done;
      }
      restart := disk.Set(remote, a.setFails);
    }
  }

  /** `installed` ends with everything that one of the attempts, a complete one, needs. */
  ghost predicate CompletedBy(noZos: bool, attempts: seq<Attempt>, installed: seq<Flist>)
  {
    exists i ::
      && 0 <= i < |attempts| && Succeeds(noZos, attempts[i])
      && EndsWith(installed, Dests(Plan(noZos, attempts[i])))
  }

  ghost predicate EndsWith(all: seq<Flist>, end: seq<Flist>)
  {
    exists before :: all == before + end
  }

  /** `update` over a list of attempts at one remote tag. The tag is recorded by the first attempt that
      installs everything it needs and by none before it; and at every moment at which the disk says
      the new tag, one single attempt has already installed everything it needs. */
  method Attempts(u: Upgrader, remote: string, attempts: seq<Attempt>) returns (at: nat)
    requires u.disk.Valid() && u.disk.tag != remote
    modifies u.disk
    ensures u.disk.Valid()
    ensures at <= |attempts|
    ensures u.disk.tag == if at < |attempts| then remote else old(u.disk.tag)
    ensures forall i :: 0 <= i < at ==> !Succeeds(u.noZosUpgrade, attempts[i])
    ensures at < |attempts| ==> Succeeds(u.noZosUpgrade, attempts[at])
    ensures old(u.disk.trail) <= u.disk.trail
    ensures at < |attempts| ==>
      && |old(u.disk.trail)| < |u.disk.trail| && u.disk.trail[|u.disk.trail| - 1] == Mark(remote, u.disk.installed)
      && EndsWith(u.disk.installed, Dests(Plan(u.noZosUpgrade, attempts[at])))
    ensures forall k :: |old(u.disk.trail)| <= k < |u.disk.trail| ==>
      if u.disk.trail[k].tag == remote then CompletedBy(u.noZosUpgrade, attempts, u.disk.trail[k].installed)
      else u.disk.trail[k].tag == old(u.disk.tag)
  {
    ghost var tag, trail := u.disk.tag, u.disk.trail;
    at := 0;
    while at < |attempts|
      invariant at <= |attempts| && u.disk.Valid() && u.disk.tag == tag
      invariant forall i :: 0 <= i < at ==> !Succeeds(u.noZosUpgrade, attempts[i])
      invariant trail <= u.disk.trail && AllUnder(tag, u.disk.trail, |trail|)
    {
      ghost var before, now := u.disk.installed, u.disk.trail;
      var restart, done := u.Update(remote, true, attempts[at]);
      MarksUnder(tag, now, |trail|, before, done);
      if restart {
        assert EndsWith(u.disk.installed, Dests(Plan(u.noZosUpgrade, attempts[at])));
        assert CompletedBy(u.noZosUpgrade, attempts, u.disk.installed);
        assert u.disk.trail == now + Marks(tag, before, done) + [Mark(remote, u.disk.installed)];
        return;
      }
      assert u.disk.trail == now + Marks(tag, before, done);
      at := at + 1;
    }
  }
}
