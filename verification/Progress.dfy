/** Drains come to an end: n leaving nodes lose their finalizers within 3n reconciles. */
module Progress {
  import opened Model
  import opened Protocol
  import opened Api
  import opened Drain
  import opened NodeSync
  import opened NodeWalk

  /** The termination measure: all stages left to the given nodes. */
  function TotalLeft(w: World, names: seq<Name>): nat {
    if names == [] then 0 else StagesLeft(w, names[0]) + TotalLeft(w, names[1..])
  }

  lemma {:induction false} TotalBound(w: World, names: seq<Name>)
    ensures TotalLeft(w, names) <= 3 * |names|
    ensures TotalLeft(w, names) == 0 ==> forall n :: n in names ==> !HasFinalizer(w, n)
  {
    if names != [] { TotalBound(w, names[1..]); }
  }

  lemma {:induction false} TotalDrops(w: World, w': World, names: seq<Name>)
    requires forall n :: n in names ==> StagesLeft(w', n) <= StagesLeft(w, n)
    ensures TotalLeft(w', names) <= TotalLeft(w, names)
    ensures (exists n :: n in names && StagesLeft(w', n) < StagesLeft(w, n)) ==>
      TotalLeft(w', names) < TotalLeft(w, names)
  {
    if names != [] {
      TotalDrops(w, w', names[1..]);
    }
  }

  /** A walk that reports an error strictly lowers the measure over any listing of the leaving nodes; a walk
      without error brings it to zero. */
  lemma WalkLowersMeasure(w: World, w': World, tracked: seq<NodeStatus>, names: seq<Name>, ok: bool)
    requires Advances(w, w', tracked, ok)
    requires forall n :: n in names <==> Leaving(w, tracked, n)
    ensures if ok then TotalLeft(w', names) == 0 else TotalLeft(w', names) < TotalLeft(w, names)
  {
    TotalDrops(w, w', names);
    if ok { NoneLeft(w', names); }
  }

  lemma {:induction false} NoneLeft(w: World, names: seq<Name>)
    requires forall n :: n in names ==> !HasFinalizer(w, n)
    ensures TotalLeft(w, names) == 0
  {
    if names != [] { NoneLeft(w, names[1..]); }
  }

  /** One reconcile of a series: the worlds at its start and its end, and whether it ended without error. */
  datatype Attempt = Attempt(before: World, after: World, ok: bool)

  /** Between two attempts only drain jobs and Nova move, and they lose nothing. */
  ghost predicate Follows(a: Attempt, b: Attempt) {
    b.before.kube == a.after.kube && b.before.cr.deleted == a.after.cr.deleted && CalmJobs(a.after.jobs, b.before.jobs)
  }

  /** Reconciles that are run again after an error. */
  ghost predicate Series(ts: seq<Attempt>, tracked: seq<NodeStatus>) {
    && (forall i :: 0 <= i < |ts| ==> Advances(ts[i].before, ts[i].after, tracked, ts[i].ok))
    && (forall i :: 0 <= i < |ts| - 1 ==> !ts[i].ok && Follows(ts[i], ts[i + 1]))
  }

  /** DRAINS END.  A series of reconciles that goes on after errors only is at most 3n long, or released all of the n
      leaving nodes on the way; and its first reconcile without error releases what is left. */
  lemma DrainedWithin3n(ts: seq<Attempt>, tracked: seq<NodeStatus>, names: seq<Name>)
    requires ts != [] && Series(ts, tracked) && AllNodesKnown(ts[0].before.kube, tracked)
    requires forall x :: x in names <==> Leaving(ts[0].before, tracked, x)
    ensures |ts| <= 3 * |names| || ts[|ts| - 1].ok
    ensures |ts| >= 3 * |names| || ts[|ts| - 1].ok ==> forall x :: x in names ==> !HasFinalizer(ts[|ts| - 1].after, x)
  {
    var k := |ts| - 1;
    SeriesBound(ts, tracked, names, k);
    TotalBound(ts[k].after, names);
  }

  lemma {:induction false} SeriesBound(ts: seq<Attempt>, tracked: seq<NodeStatus>, names: seq<Name>, k: nat)
    requires k < |ts| && Series(ts, tracked) && AllNodesKnown(ts[0].before.kube, tracked)
    requires forall x :: x in names <==> Leaving(ts[0].before, tracked, x)
    ensures SameSetting(ts[0].before, ts[k].after)
    ensures if ts[k].ok then TotalLeft(ts[k].after, names) == 0 else TotalLeft(ts[k].after, names) + k + 1 <= 3 * |names|
  {
    if k == 0 {
      TotalBound(ts[0].before, names);
    } else {
      SeriesBound(ts, tracked, names, k - 1);
      assert Follows(ts[k - 1], ts[k]);
      SameStages(ts[k - 1].after, ts[k].before, names);
      SameSettingTransitive(ts[0].before, ts[k].before, ts[k].after);
    }
    SameLeaving(ts[0].before, ts[k].before, tracked, names);
    WalkLowersMeasure(ts[k].before, ts[k].after, tracked, names, ts[k].ok);
  }

  /** Node n is on the node list, in a phase, and its machine exists and carries a deletion timestamp. */
  ghost predicate ToBeDrained(w: World, n: Name) {
    && (exists s :: s in w.cr.status.nodes && s.name == n && s.status != NoPhase)
    && n in w.kube.nodes && w.kube.nodes[n].machine in w.kube.machines
    && w.kube.machines[w.kube.nodes[n].machine].deleting
  }

  lemma ToBeDrainedIsLeaving(w: World)
    requires Inv(w)
    ensures forall n :: ToBeDrained(w, n) <==> Leaving(w, w.cr.status.nodes, n)
  {
    forall n ensures ToBeDrained(w, n) <==> Leaving(w, w.cr.status.nodes, n) {
      ListedIsTracked(w.cr.status.nodes, n);
    }
  }

  /** The controller's queue: reconciles that end in an error are run again.  `names` lists the nodes to be drained.  If
      every drain job that exists has succeeded whenever a reconcile starts (`settled`), then after at most
      3n reconciles none of the n nodes has a finalizer left. */
  method RetryUntilDrained(api: ApiServer, ghost names: seq<Name>, n: nat) returns (settled: bool)
    requires api.Valid() && api.quiet && n == |names|
    requires !api.world.cr.deleted && AllNodesKnown(api.world.kube, api.world.cr.status.nodes)
    requires forall x :: x in names <==> ToBeDrained(api.world, x)
    modifies api
    ensures api.Valid() && old(api.log) <= api.log
    ensures settled ==> forall x :: x in names ==> !HasFinalizer(api.world, x)
  {
    ghost var w0 := api.world;
    ToBeDrainedIsLeaving(w0);
    TotalBound(w0, names);
    var rounds := 0;
    while rounds < 3 * n
      invariant rounds <= 3 * n
      invariant api.Valid() && old(api.log) <= api.log
      invariant api.world.cr.status.nodes == w0.cr.status.nodes && SameSetting(w0, api.world)
      invariant TotalLeft(api.world, names) + rounds <= 3 * n
    {
      var ok;
      settled, ok := Retry(api, names, w0);
      if !settled { return; }
      if ok { break; }
      rounds := rounds + 1;
    }
    TotalBound(api.world, names);
    settled := true;
  }

  /** One more reconcile, after a while. */
  method Retry(api: ApiServer, ghost names: seq<Name>, ghost w0: World) returns (settled: bool, ok: bool)
    requires api.Valid() && api.quiet && !w0.cr.deleted && AllNodesKnown(w0.kube, w0.cr.status.nodes)
    requires forall x :: x in names <==> Leaving(w0, w0.cr.status.nodes, x)
    requires api.world.cr.status.nodes == w0.cr.status.nodes && SameSetting(w0, api.world)
    modifies api
    ensures api.Valid() && old(api.log) <= api.log
    ensures settled && ok ==> TotalLeft(api.world, names) == 0
    ensures settled && !ok ==> TotalLeft(api.world, names) < TotalLeft(old(api.world), names)
    ensures settled && !ok ==> api.world.cr.status.nodes == w0.cr.status.nodes && SameSetting(w0, api.world)
  {
    ghost var before := api.world;
    api.LetJobsRun();
    ghost var w := api.world;
    SameStages(before, w, names);
    SameLeaving(w0, w, w0.cr.status.nodes, names);
    if !AllSucceeded(api.world) { return false, false; }
    ok := WalkOnce(api);
    settled := true;
    SettledAdvances(w, api.world, w0.cr.status.nodes, ok);
    WalkLowersMeasure(w, api.world, w0.cr.status.nodes, names, ok);
    if !ok { SameSettingTransitive(w0, w, api.world); }
  }

  predicate AllSucceeded(w: World)
    ensures AllSucceeded(w) ==> JobsSucceeded(w)
  {
    (forall n <- w.jobs.pre :: w.jobs.pre[n].succeeded) && (forall n <- w.jobs.post :: w.jobs.post[n].succeeded)
  }

  lemma {:induction false} SameStages(w: World, w': World, names: seq<Name>)
    requires w'.kube == w.kube && CalmJobs(w.jobs, w'.jobs)
    ensures TotalLeft(w', names) == TotalLeft(w, names)
  {
    if names != [] {
      SameStages(w, w', names[1..]);
      assert names[0] in w'.jobs.pre.Keys <==> names[0] in w.jobs.pre.Keys;
      assert names[0] in w'.jobs.post.Keys <==> names[0] in w.jobs.post.Keys;
    }
  }

  lemma SameLeaving(w0: World, w: World, tracked: seq<NodeStatus>, names: seq<Name>)
    requires SameSetting(w0, w)
    requires forall n :: n in names <==> Leaving(w0, tracked, n)
    ensures forall n :: n in names <==> Leaving(w, tracked, n)
    ensures AllNodesKnown(w0.kube, tracked) ==> AllNodesKnown(w.kube, tracked)
  {
    forall n ensures MachineLeaving(w0.kube, n) <==> MachineLeaving(w.kube, n) {
      assert n in w.kube.nodes.Keys <==> n in w0.kube.nodes.Keys;
    }
    forall n | n in w.kube.nodes && NodeKnown(w0.kube, tracked, n) ensures NodeKnown(w.kube, tracked, n) {
      assert SameNode(w0.kube.nodes[n], w.kube.nodes[n]);
    }
  }

  lemma SameSettingTransitive(a: World, b: World, c: World)
    requires SameSetting(a, b) && SameSetting(b, c)
    ensures SameSetting(a, c)
  {
  }
}
