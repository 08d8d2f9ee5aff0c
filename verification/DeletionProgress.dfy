/** The deletion of the resource comes to an end: with n protected nodes, within 3n + 1 reconciles. */
module DeletionProgress {
  import opened Model
  import opened Protocol
  import opened Api
  import opened Drain
  import opened CrDeletion
  import opened Progress

  ghost predicate ListsAllNodes(w: World, names: seq<Name>) { forall n :: HasFinalizer(w, n) ==> n in names }

  lemma AdvancedLowersMeasure(w: World, w': World, names: seq<Name>)
    requires Advanced(w, w') && ListsAllNodes(w, names)
    ensures TotalLeft(w', names) < TotalLeft(w, names) && ListsAllNodes(w', names)
  {
    var n :| HasFinalizer(w, n) && JobsMoved(w, w', n);
    forall m | m != n ensures StagesLeft(w', m) == StagesLeft(w, m) && (HasFinalizer(w', m) <==> HasFinalizer(w, m)) {
      assert SameDrain(w, w', m);
    }
    TotalDrops(w, w', names);
  }

  /** DELETION ENDS.  Reconciles of which each brings some protected node a stage on, with only drain jobs and Nova
      moving in between, are at most 3n in number. */
  lemma AtMost3nAdvances(ts: seq<Attempt>, names: seq<Name>)
    requires forall i :: 0 <= i < |ts| ==> Advanced(ts[i].before, ts[i].after)
    requires forall i :: 0 <= i < |ts| - 1 ==> Follows(ts[i], ts[i + 1])
    requires ts != [] ==> ListsAllNodes(ts[0].before, names)
    ensures |ts| <= 3 * |names|
  {
    if ts != [] {
      LeftAfter(ts, names, |ts| - 1);
    }
  }

  lemma {:induction false} LeftAfter(ts: seq<Attempt>, names: seq<Name>, k: nat)
    requires k < |ts| && forall i :: 0 <= i < |ts| ==> Advanced(ts[i].before, ts[i].after)
    requires forall i :: 0 <= i < |ts| - 1 ==> Follows(ts[i], ts[i + 1])
    requires ListsAllNodes(ts[0].before, names)
    ensures TotalLeft(ts[k].after, names) + k + 1 <= 3 * |names| && ListsAllNodes(ts[k].after, names)
  {
    if k == 0 {
      TotalBound(ts[0].before, names);
    } else {
      LeftAfter(ts, names, k - 1);
      assert Follows(ts[k - 1], ts[k]);
      SameStages(ts[k - 1].after, ts[k].before, names);
    }
    AdvancedLowersMeasure(ts[k].before, ts[k].after, names);
  }

  /** Reconciles of a resource that is being deleted, run again after an error or the end of a drain job, on a
      platform on which calls succeed. `names` lists the nodes with a protected blocker pod, n in number. If
      every drain job that exists has succeeded whenever a reconcile starts (`settled`), the resource has lost
      its finalizer after at most 3n + 1 reconciles, and unless somebody else deletes a labelled object under the hands
      of the cleanup, nothing the cleanup selects is left. */
  method RetryUntilDeleted(api: ApiServer, ghost names: seq<Name>, n: nat) returns (settled: bool)
    requires api.Valid() && api.quiet && api.world.cr.deleted
    requires n == |names| && ListsAllNodes(api.world, names)
    modifies api
    ensures api.Valid() && old(api.log) <= api.log
    ensures settled ==> !api.world.cr.finalizer
    ensures settled && api.thief.None? && old(api.world).cr.finalizer ==> Swept(api.world, InfraOf(old(api.world).cr))
  {
    TotalBound(api.world, names);
    var rounds := 0;
    while true
      invariant rounds <= 3 * n && api.Valid() && old(api.log) <= api.log && api.world.cr == old(api.world).cr
      invariant ListsAllNodes(api.world, names) && TotalLeft(api.world, names) + rounds <= 3 * n
      decreases 3 * n - rounds
    {
      settled := RetryDeletion(api, names);
      if !settled || !api.world.cr.finalizer { return; }
      rounds := rounds + 1;
    }
  }

  function InfraOf(cr: Cr): seq<InfraDaemonSet> { cr.status.infra + cr.spec.infra }

  /** The finalizer went, and nobody interfered with the cleanup. */
  predicate Finalized(w: World, w': World, thief: Option<ObjKey>) {
    w.cr.finalizer && !w'.cr.finalizer && thief.None?
  }

  /** One more reconcile, after a while. */
  method RetryDeletion(api: ApiServer, ghost names: seq<Name>) returns (settled: bool)
    requires api.Valid() && api.quiet && api.world.cr.deleted && ListsAllNodes(api.world, names)
    modifies api
    ensures api.Valid() && old(api.log) <= api.log
    ensures settled && api.world.cr.finalizer ==>
      TotalLeft(api.world, names) < TotalLeft(old(api.world), names)
      && ListsAllNodes(api.world, names) && api.world.cr == old(api.world).cr
    ensures settled && Finalized(old(api.world), api.world, api.thief) ==> Swept(api.world, InfraOf(old(api.world).cr))
  {
    ghost var before := api.world;
    api.LetJobsRun();
    ghost var w := api.world;
    SameStages(before, w, names);
    if !AllSucceeded(api.world) { return false; }
    settled := true;
    ReconcileOnce(api);
    if api.world.cr.finalizer { AdvancedLowersMeasure(w, api.world, names); }
  }

  /** A reconcile of a resource that is being deleted. */
  method ReconcileOnce(api: ApiServer)
    requires api.Valid() && api.quiet && api.world.cr.deleted && JobsSucceeded(api.world)
    modifies api
    ensures api.Valid() && old(api.log) <= api.log
    ensures !api.world.cr.finalizer || Advanced(old(api.world), api.world)
    ensures Finalized(old(api.world), api.world, api.thief) ==> Swept(api.world, InfraOf(old(api.world).cr))
  {
    ghost var w := api.world;
    var cr;
    ghost var mid;
    cr, mid := api.GetCr();
    ghost var w1 := api.world;
    var inst := new ComputeNodeOpenStack(cr.value);
    var err;
    ghost var rest;
    err, rest := ReconcileDeletion(api, inst);
    SettledTurn(w1, api.world, api.thief, rest, err);
    AdvancedLater(w, w1, api.world);
  }
}
