/** Where the guarantees end: runs of the system in which, outside the conditions of the theorems, things go wrong. */
module Limits {
  import opened Model
  import opened Protocol
  import opened History
  import opened Evacuation
  import opened Entries
  import opened Api
  import opened Drain
  import opened NodeSync
  import opened NodeWalk
  import opened CrDeletion
  import opened Continuation

  // ----- The disable-list gap -------------------------------------------------------------------------

  /** Nodes n and m, both with their machines; m's machine is being deleted.  n has its blocker pod, m, which joined
      when its machine was going already, has none.  The resource is being deleted. */
  function TwoNodes(n: Name, m: Name): World {
    World(Kube(map[n := Node("one", true, Up, false, false), m := Node("two", true, Up, false, false)],
               map["one" := Machine(Some(n), false), "two" := Machine(Some(m), true)],
               map[n := Pod(0, true)], 1, map[n := 0]),
          Jobs(map[], map[], {}, {}), Nova(map[n := true], map[], {n}, {}, false),
          Cr(Spec([], false, [], ""), Status([], 0, [], None), 0, true, true, 0), {}, false, NO_BOOKS)
  }

  /** The operator starts a reconcile, lists the nodes and the machines, and creates the pre job of n. */
  function FirstSteps(n: Name, m: Name): seq<Action> {
    LISTING + [Op(CreatePre(n, [m], false), Deletion)]
  }

  const LISTING := [Op(StartReconcile, Deletion), Op(ListForDeletion, Deletion), Op(ListMachines, Deletion)]

  function AfterListing(w: World): World { Apply(Apply(Apply(w, StartReconcile), ListForDeletion), ListMachines) }

  /** The steps are in order in any such cluster. */
  lemma FirstStepsLawful(start: World, n: Name, m: Name)
    requires start.cr.deleted && TaggedNodes(start.kube) == {m} && HasFinalizer(start, n) && n in start.kube.nodes
    ensures Lawful(start, FirstSteps(n, m)) && Exec(start, FirstSteps(n, m)) == Apply(AfterListing(start), CreatePre(n, [m], false))
  {
    ListingLawful(start);
    CreationLawful(start, n, m);
    RunGrows(start, LISTING, Op(CreatePre(n, [m], false), Deletion));
  }

  lemma ListingLawful(start: World)
    requires start.cr.deleted
    ensures Lawful(start, LISTING) && Exec(start, LISTING) == AfterListing(start)
  {
    ThreeSteps(start, LISTING[0], LISTING[1], LISTING[2]);
  }

  lemma CreationLawful(start: World, n: Name, m: Name)
    requires start.cr.deleted && TaggedNodes(start.kube) == {m} && HasFinalizer(start, n) && n in start.kube.nodes
    ensures Legal(AfterListing(start), CreatePre(n, [m], false), Deletion)
  {
    assert (set h | h in [m]) == {m};
  }

  lemma TwoNodesTagged(n: Name, m: Name)
    requires m != n
    ensures Pristine(TwoNodes(n, m)) && TaggedNodes(TwoNodes(n, m).kube) == {m}
  {
    assert TwoNodes(n, m).kube.machines["two"].nodeRef == Some(m);
  }

  /** THE DISABLE-LIST GAP.  When the resource is deleted while the machine of another node m is tagged, the operator's
      list for n names m only.  Where placement deletes providers that still have allocations, this run of the
      deletion path, all its calls made as the operator makes them, ends with the release of n with an instance on
      it. */
  lemma ReleasedWithInstance(n: Name, m: Name)
    requires m != n
    ensures var start := TwoNodes(n, m);
      && Pristine(start) && TaggedNodes(start.kube) == {m} && DisableList([m], n) == [m]
      && exists log ::
           && EndsInRelease(start, FirstSteps(n, m), log, n, 0) && OnPath(log, 0, Deletion)
           && !Empty(Exec(start, log).nova, n)
  {
    TwoNodesTagged(n, m);
    FirstStepsLawful(TwoNodes(n, m), n, m);
    Unlisted(n, m);
    UnsafeDrainCanEndOccupied(TwoNodes(n, m), FirstSteps(n, m), AfterListing(TwoNodes(n, m)), n, [m], Deletion);
  }

  lemma Unlisted(n: Name, m: Name)
    requires m != n
    ensures var w := AfterListing(TwoNodes(n, m));
      && !Safe(w, n, [m]) && w.cr.deleted && GuardedBy(w, n, 0) && n in w.kube.nodes && n !in w.jobs.pre
  {
  }

  // ----- The late service -----------------------------------------------------------------------------

  /** Node n with its blocker pod and without compute service; its machine is being deleted, the status tracks it, and it
      is on the list of nodes to delete. */
  function OneNode(n: Name, v: Nova): World {
    World(Kube(map[n := Node("old", true, Up, false, false)], map["old" := Machine(Some(n), true)],
               map[n := Pod(0, true)], 1, map[n := 0]),
          Jobs(map[], map[], {}, {}), v,
          Cr(Spec([NodeToDelete(n, false)], false, [], ""), Status([NodeStatus(n, Ready)], 1, [], None),
             0, false, true, 0), {}, false, NO_BOOKS)
  }

  const NO_CLOUD := Nova(map[], map[], {}, {}, false)

  function Walked(w: World): World { Apply(Apply(w, StartReconcile), ListMachines) }

  /** The operator starts a reconcile, lists the machines, and creates the pre job of n, with n on its list. */
  function RegularSteps(n: Name): seq<Action> {
    [Op(StartReconcile, Regular), Op(ListMachines, Regular), Op(CreatePre(n, [n], false), Regular)]
  }

  lemma OneNodeInv(n: Name, v: Nova)
    ensures Inv(OneNode(n, v)) && TaggedNodes(OneNode(n, v).kube) == {n}
  {
    var nodes := [NodeStatus(n, Ready)];
    assert nodes[..0] == [] && CountReady(nodes) == 1;
    assert OneNode(n, v).kube.machines["old"].nodeRef == Some(n);
  }

  lemma RegularStepsLawful(n: Name, v: Nova)
    ensures var start := OneNode(n, v);
      && Lawful(start, RegularSteps(n)) && Legal(Walked(start), CreatePre(n, [n], false), Regular)
      && Exec(start, RegularSteps(n)) == Apply(Walked(start), CreatePre(n, [n], false))
      && Inv(Walked(start))
  {
    OneNodeInv(n, v);
    var start := OneNode(n, v);
    assert (set h | h in [n]) == {n};
    WalkedInv(start);
    ThreeSteps(start, Op(StartReconcile, Regular), Op(ListMachines, Regular), Op(CreatePre(n, [n], false), Regular));
  }

  lemma WalkedInv(w: World)
    requires Inv(w)
    ensures Inv(Walked(w)) && Walked(w).kube == w.kube && Walked(w).books.tagged == TaggedNodes(w.kube)
  {
    assert forall n :: Shielded(Walked(w), n) <==> Shielded(w, n);
  }

  /** THE LATE SERVICE.  On the regular path, with n on its own list: the pre job finds no service for n and passes; the
      service registers afterwards, an instance is placed, and n is released with it. */
  lemma LateServiceGap(n: Name)
    ensures var start := OneNode(n, NO_CLOUD); Pristine(start) && exists log ::
      && EndsInRelease(start, RegularSteps(n), log, n, 0) && OnPath(log, 0, Regular)
      && !Empty(Exec(start, log).nova, n)
  {
    OneNodeInv(n, NO_CLOUD);
    RegularStepsLawful(n, NO_CLOUD);
    var w0 := Walked(OneNode(n, NO_CLOUD));
    assert GuardedBy(w0, n, 0) && n in w0.kube.nodes && n !in w0.jobs.pre && !Safe(w0, n, [n]);
    UnsafeDrainCanEndOccupied(OneNode(n, NO_CLOUD), RegularSteps(n), w0, n, [n], Regular);
  }

  // ----- A release whose write of the spec is lost ----------------------------------------------------

  /** n was released by a reconcile that ended right there. */
  lemma ReleaseReached(n: Name)
    ensures var start := OneNode(n, NO_CLOUD); var d := Drive(start, [], Regular); exists w ::
      && Reaches(d, w) && w.kube == Unprotect(WithTaint(start.kube, n), n) && w.cr == start.cr
      && w.jobs.pre == map[] && w.jobs.post == map[]
  {
    OneNodeInv(n, NO_CLOUD);
    RegularStepsLawful(n, NO_CLOUD);
    var start := OneNode(n, NO_CLOUD);
    var d, w0 := Drive(start, [], Regular), Walked(start);
    assert LeadsTo(d, RegularSteps(n), Exec(start, RegularSteps(n)));
    DrainCanEnd(d, w0, n, [n], false, false);
    var w :| AboutToRelease(d, w0, w, n, false);
    OpStep(d, w, RemoveFinalizer(n));
    var w' := Apply(w, RemoveFinalizer(n));
    assert w'.kube == Unprotect(WithTaint(start.kube, n), n);
  }

  /** THE LEFT-OVER ENTRY.  A run, from a start without any drain, after which n is released, its entry is still on the
      list, and nothing is owed for it any more; so it stays there in every continuation without a user edit and
      without another release of n. */
  lemma EntryLeftBehind(n: Name)
    ensures var start := OneNode(n, NO_CLOUD); Untouched(start) && exists log ::
      && Lawful(start, log) && !HasFinalizer(Exec(start, log), n)
      && forall more :: EntryMayStay(Exec(start, log), more, n) ==>
           Exec(Exec(start, log), more).cr.spec.nodesToDelete == [NodeToDelete(n, false)]
  {
    OneNodeInv(n, NO_CLOUD);
    ReleaseReached(n);
    var start := OneNode(n, NO_CLOUD);
    var d := Drive(start, [], Regular);
    var w :| Reaches(d, w) && w.kube == Unprotect(WithTaint(start.kube, n), n) && w.cr == start.cr;
    OpStep(d, w, StartReconcile);
    var w' := Apply(w, StartReconcile);
    var log :| LeadsTo(d, log, w');
    forall more | EntryMayStay(w', more, n) ensures Exec(w', more).cr.spec.nodesToDelete == [NodeToDelete(n, false)] {
      EntryStays(w', more, n);
    }
  }

  /** A continuation without a user edit and without another release of n. */
  ghost predicate EntryMayStay(w: World, more: seq<Action>, n: Name) {
    Lawful(w, more) && NoEdit(more) && n !in Releases(more)
  }

  lemma EntryStays(w: World, more: seq<Action>, n: Name)
    requires EntryMayStay(w, more, n) && n !in w.books.owed
    requires w.cr.spec.nodesToDelete == [NodeToDelete(n, false)]
    ensures Exec(w, more).cr.spec.nodesToDelete == [NodeToDelete(n, false)]
  {
    LeftOverStays(w, more, NodeToDelete(n, false));
    ListOnlyShrinks(w, more);
    SingletonStays(Exec(w, more).cr.spec.nodesToDelete, NodeToDelete(n, false));
  }

  lemma SingletonStays(list: seq<NodeToDelete>, e: NodeToDelete)
    requires multiset(list) <= multiset{e} && multiset(list)[e] == 1
    ensures list == [e]
  {
    assert multiset(list) == multiset{e};
    assert |list| == |multiset(list)|;
    assert list[0] in multiset(list);
  }

  // ----- A node that returns under a tracked name -----------------------------------------------------

  /** n is back, ready, on another machine; the status still lists it, and it has no blocker pod. */
  ghost predicate Back(w: World, n: Name) {
    && w.kube.nodes == map[n := Node("new", true, Up, false, false)]
    && "new" in w.kube.machines && !w.kube.machines["new"].deleting
    && n !in w.kube.pods && w.cr.status.nodes == [NodeStatus(n, Ready)]
    && w.jobs.pre == map[] && w.jobs.post == map[] && !w.cr.deleted
  }

  /** The released node leaves, its blocker pod goes, and a new machine brings a node of the same name. */
  function ReturnSteps(n: Name): seq<EnvAction> {
    [OfNode(NodeLeaves(n)), OfNode(PodGone(n)), OfMachine(MachineAdded("new")), OfNode(NodeJoins(n, "new")),
     OfNode(NodeReports(n, Up))]
  }

  lemma {:induction false} EnvSteps(d: Drive, w: World, acts: seq<EnvAction>)
    requires Reaches(d, w)
    ensures Reaches(d, RunEnv(w, acts))
  {
    if acts != [] {
      EnvSteps(d, w, acts[..|acts| - 1]);
      EnvStep(d, RunEnv(w, acts[..|acts| - 1]), acts[|acts| - 1]);
    }
  }

  function Gone(n: Name): Kube {
    Kube(map[], map["old" := Machine(None, true)], map[], 1, map[n := 0])
  }

  lemma NodeGoes(n: Name)
    ensures var k := Unprotect(WithTaint(OneNode(n, NO_CLOUD).kube, n), n);
      NextNode(NextNode(k, NodeLeaves(n)), PodGone(n)) == Gone(n)
  {
    var k := Unprotect(WithTaint(OneNode(n, NO_CLOUD).kube, n), n);
    var k1 := NextNode(k, NodeLeaves(n));
    assert k1.nodes == map[] && k1.machines == map["old" := Machine(None, true)];
    assert NextNode(k1, PodGone(n)).pods == map[];
  }

  lemma NodeComes(n: Name)
    ensures var k := NextNode(NextNode(NextMachine(Gone(n), MachineAdded("new")), NodeJoins(n, "new")), NodeReports(n, Up));
      && k.nodes == map[n := Node("new", true, Up, false, false)] && k.pods == map[]
      && "new" in k.machines && !k.machines["new"].deleting
  {
    var k1 := NextMachine(Gone(n), MachineAdded("new"));
    assert k1.machines["new"] == Machine(None, false);
    var k2 := NextNode(k1, NodeJoins(n, "new"));
    assert k2.nodes == map[n := Node("new", true, Down, false, false)];
  }

  lemma Returns(w: World, n: Name)
    requires w.kube == Unprotect(WithTaint(OneNode(n, NO_CLOUD).kube, n), n) && w.cr == OneNode(n, NO_CLOUD).cr
    requires w.jobs.pre == map[] && w.jobs.post == map[]
    ensures Back(RunEnv(w, ReturnSteps(n)), n)
  {
    var s := ReturnSteps(n);
    OldNodeGone(w, n);
    NewNodeBack(w.(kube := Gone(n)), n);
    EnvMore(w, s, 2);
    EnvMore(w, s, 3);
    EnvMore(w, s, 4);
    assert s[..5] == s;
  }

  lemma NewNodeBack(w: World, n: Name)
    requires w.kube == Gone(n) && w.cr == OneNode(n, NO_CLOUD).cr && w.jobs.pre == map[] && w.jobs.post == map[]
    ensures var s := ReturnSteps(n); Back(NextEnv(NextEnv(NextEnv(w, s[2]), s[3]), s[4]), n)
  {
    NodeComes(n);
  }

  lemma OldNodeGone(w: World, n: Name)
    requires w.kube == Unprotect(WithTaint(OneNode(n, NO_CLOUD).kube, n), n)
    ensures RunEnv(w, ReturnSteps(n)[..2]) == w.(kube := Gone(n))
  {
    NodeGoes(n);
    EnvMore(w, ReturnSteps(n), 0);
    EnvMore(w, ReturnSteps(n), 1);
  }

  lemma EnvMore(w: World, acts: seq<EnvAction>, k: nat)
    requires k < |acts|
    ensures RunEnv(w, acts[..k + 1]) == NextEnv(RunEnv(w, acts[..k]), acts[k])
  {
    assert acts[..k + 1][..k] == acts[..k];
  }

  /** Such a state is reached from a start without any drain. */
  lemma BackIsReached(n: Name)
    ensures var start := OneNode(n, NO_CLOUD); Untouched(start) && exists log ::
      Lawful(start, log) && Back(Exec(start, log), n)
  {
    OneNodeInv(n, NO_CLOUD);
    ReleaseReached(n);
    var d := Drive(OneNode(n, NO_CLOUD), [], Regular);
    var w :| Reaches(d, w) && w.kube == Unprotect(WithTaint(d.start.kube, n), n) && w.cr == d.start.cr
             && w.jobs.pre == map[] && w.jobs.post == map[];
    EnvSteps(d, w, ReturnSteps(n));
    Returns(w, n);
    var log :| LeadsTo(d, log, RunEnv(w, ReturnSteps(n)));
  }

  /** THE RETURNING NAME.  From there, a walk over the nodes on a quiet platform ends without error, and persists n as a
      ready node without having given it a blocker pod. */
  method ReturningNodeIsPassedOver(api: ApiServer, n: Name)
    requires api.Valid() && api.quiet && Back(api.world, n)
    modifies api
    ensures api.Valid() && old(api.log) <= api.log
    ensures n in api.world.kube.nodes && NodeStatus(n, Ready) in api.world.cr.status.nodes
    ensures !HasFinalizer(api.world, n)
  {
    ghost var w := api.world;
    assert NodeKnown(w.kube, w.cr.status.nodes, n) && PhaseOf(w.kube, w.kube.nodes[n]) == Ready;
    assert FirstEntry(w.cr.status.nodes, n, 0);
    var _ := WalkOnce(api);
    assert !exists x :: Draining(w, w.cr.status.nodes, x);
    assert GuardedAfter(w, api.world, w.cr.status.nodes, NodeItem(n, w.kube.nodes[n]));
  }

  // ----- A cordoned node ------------------------------------------------------------------------------

  /** n is cordoned, protected and tracked, and its machine is there and not being deleted. */
  ghost predicate Cordoned(w: World, n: Name) {
    && MachineKnown(w.kube, n) && !MachineLeaving(w.kube, n) && w.kube.nodes[n].unschedulable
    && HasFinalizer(w, n) && Tracked(w.cr.status.nodes, n)
  }

  /** n is protected, but not tracked; its machine is there. */
  ghost predicate Forgotten(w: World, n: Name) {
    MachineKnown(w.kube, n) && HasFinalizer(w, n) && !Tracked(w.cr.status.nodes, n)
  }

  /** Such a node, in a cluster without any drain. */
  function CordonedNode(n: Name): World {
    World(Kube(map[n := Node("one", true, Up, true, false)], map["one" := Machine(Some(n), false)],
               map[n := Pod(0, true)], 1, map[n := 0]),
          Jobs(map[], map[], {}, {}), NO_CLOUD,
          Cr(Spec([], false, [], ""), Status([NodeStatus(n, Ready)], 1, [], None), 0, false, true, 0), {}, false, NO_BOOKS)
  }

  lemma CordonedNodeExists(n: Name)
    ensures var w := CordonedNode(n);
      Pristine(w) && Cordoned(w, n) && AllNodesKnown(w.kube, w.cr.status.nodes)
  {
    var nodes := [NodeStatus(n, Ready)];
    assert nodes[..0] == [] && CountReady(nodes) == 1 && FirstEntry(nodes, n, 0);
  }

  /** What a clean walk reports is tracked with its machine there. */
  lemma ReportedIsKnown(w: World, w': World, n: Name)
    requires SameSetting(w, w') && AllNodesKnown(w.kube, w.cr.status.nodes) && n in w'.kube.nodes
    requires ReportsAll(w, w.cr.status.nodes, w'.cr.status.nodes)
    ensures NodeKnown(w'.kube, w'.cr.status.nodes, n)
    ensures Tracked(w'.cr.status.nodes, n) ==>
      Tracked(w.cr.status.nodes, n) || PhaseOf(w.kube, w.kube.nodes[n]) in {Ready, NotReady}
    ensures Tracked(w'.cr.status.nodes, n) && PhaseOf(w.kube, w.kube.nodes[n]) == SchedulingDisabled ==>
      MachineLeaving(w.kube, n)
  {
    assert NodeKnown(w.kube, w.cr.status.nodes, n) && SameNode(w.kube.nodes[n], w'.kube.nodes[n]);
    if Tracked(w'.cr.status.nodes, n) {
      TrackedIsListed(w'.cr.status.nodes, n);
      var s :| s in w'.cr.status.nodes && s.name == n;
      assert NodeStatus(n, s.status) in w'.cr.status.nodes;
    }
  }

  /** A quiet walk over nodes that are all known leaves them known. */
  lemma StaysKnown(w: World, w': World, ok: bool)
    requires WalkedQuietly(w, w', w.cr.status.nodes, ok) && AllNodesKnown(w.kube, w.cr.status.nodes)
    ensures AllNodesKnown(w'.kube, w'.cr.status.nodes)
  {
    forall n | n in w'.kube.nodes ensures NodeKnown(w'.kube, w'.cr.status.nodes, n) {
      if ok { ReportedIsKnown(w, w', n); } else {
        assert NodeKnown(w.kube, w.cr.status.nodes, n) && SameNode(w.kube.nodes[n], w'.kube.nodes[n]);
      }
    }
  }

  /** THE CORDONED NODE.  A clean walk forgets it: it goes off the node list and stays protected. */
  method CordonedNodeIsForgotten(api: ApiServer, n: Name) returns (ok: bool)
    requires api.Valid() && api.quiet && !api.world.cr.deleted && Cordoned(api.world, n)
    requires AllNodesKnown(api.world.kube, api.world.cr.status.nodes)
    modifies api
    ensures api.Valid() && old(api.log) <= api.log
    ensures ok ==> Forgotten(api.world, n) && AllNodesKnown(api.world.kube, api.world.cr.status.nodes)
    ensures !ok ==> exists x :: Draining(old(api.world), old(api.world).cr.status.nodes, x)
    ensures api.world.cr.deleted == old(api.world).cr.deleted
  {
    ghost var w := api.world;
    ok := WalkOnce(api);
    StaysKnown(w, api.world, ok);
    if ok {
      ReportedIsKnown(w, api.world, n);
      assert SameNode(w.kube.nodes[n], api.world.kube.nodes[n]);
    }
  }

  /** n is forgotten, and its machine is being deleted. */
  ghost predicate Stranded(w: World, n: Name) {
    && Forgotten(w, n) && MachineLeaving(w.kube, n) && !w.cr.deleted && AllNodesKnown(w.kube, w.cr.status.nodes)
  }

  lemma StaysForgotten(w: World, w': World, n: Name, ok: bool)
    requires WalkedQuietly(w, w', w.cr.status.nodes, ok) && Stranded(w, n)
    ensures Stranded(w', n)
  {
    StaysKnown(w, w', ok);
    assert SameNode(w.kube.nodes[n], w'.kube.nodes[n]);
    if ok { ReportedIsKnown(w, w', n); }
  }

  lemma MachineStartsLeaving(w: World, n: Name)
    requires Forgotten(w, n) && !w.cr.deleted && AllNodesKnown(w.kube, w.cr.status.nodes)
    ensures Stranded(NextEnv(w, OfMachine(MachineDeletes(w.kube.nodes[n].machine))), n)
  {
    var w' := NextEnv(w, OfMachine(MachineDeletes(w.kube.nodes[n].machine)));
    forall x | x in w'.kube.nodes ensures NodeKnown(w'.kube, w'.cr.status.nodes, x) {
      assert NodeKnown(w.kube, w.cr.status.nodes, x);
    }
  }

  /** And it is never drained: when its machine is deleted, any number of reconciles, whether they end well or not, leave it
      protected, so that the machine cannot go. */
  method ForgottenNodeIsNeverDrained(api: ApiServer, n: Name, rounds: nat)
    requires api.Valid() && api.quiet && !api.world.cr.deleted && Forgotten(api.world, n)
    requires AllNodesKnown(api.world.kube, api.world.cr.status.nodes)
    modifies api
    ensures api.Valid() && old(api.log) <= api.log
    ensures HasFinalizer(api.world, n) && MachineLeaving(api.world.kube, n)
    ensures !Tracked(api.world.cr.status.nodes, n)
  {
    MachineStartsLeaving(api.world, n);
    api.Record(Env(OfMachine(MachineDeletes(api.world.kube.nodes[n].machine))));
    for i := 0 to rounds
      invariant api.Valid() && old(api.log) <= api.log && Stranded(api.world, n)
    {
      api.LetJobsRun();
      ghost var w := api.world;
      var ok := WalkOnce(api);
      StaysForgotten(w, api.world, n, ok);
    }
  }

  /** The whole run, from a cluster without any drain: the node is cordoned, the operator walks over it, its machine is
      deleted, and however often the operator reconciles, the node stays protected and untracked. */
  method CordonedNodeIsStuck(n: Name, rounds: nat) returns (guarded: bool, tracked: bool)
    ensures guarded && !tracked
  {
    CordonedNodeExists(n);
    var api := new ApiServer(CordonedNode(n), true, None, {});
    ghost var w := api.world;
    assert !exists x :: Draining(w, w.cr.status.nodes, x);
    var ok := CordonedNodeIsForgotten(api, n);
    ForgottenNodeIsNeverDrained(api, n, rounds);
    guarded := HasFinalizer(api.world, n);
    var phase := GetPreviousNodeStatus(api.world.cr.status.nodes, n);
    tracked := phase != NoPhase;
  }

  // ----- A cleanup that stops at a NotFound -----------------------------------------------------------

  /** Something the cleanup selects comes after the stolen object. */
  ghost predicate SomethingAfter(owned: set<ObjKey>, infra: seq<InfraDaemonSet>, stolen: ObjKey, rest: set<ObjKey>) {
    exists k :: k in owned && Selected(k, infra) && ComesAfter(stolen, rest, k)
  }

  lemma LeavesNothingExactlyWhen(w: World, w': World, infra: seq<InfraDaemonSet>, thief: Option<ObjKey>,
                                 rest: set<ObjKey>)
    requires Leaves(w.owned, w'.owned, infra, thief, rest)
    ensures Swept(w', infra) <==> !(Stolen(w.owned, thief) && SomethingAfter(w.owned, infra, thief.value, rest))
  {
  }

  /** WHEN THE CLEANUP IS COMPLETE, exactly.  A resource is being deleted, all nodes are released, and nobody else acts
      but for deleting one labelled object just before the cleanup does.  The reconcile takes the finalizer off; and
      everything the cleanup selects is gone if and only if that was no MachineSet, MachineConfigPool or MachineConfig
      it had listed, or nothing it selects came after it: no object of a kind with a later turn, and none of the same
      kind listed after it (`rest`). */
  method CleanupCompleteExactlyWhen(api: ApiServer) returns (ghost rest: set<ObjKey>)
    requires api.Valid() && api.quiet && api.world.cr.deleted && api.world.cr.finalizer
    requires forall n :: !HasFinalizer(api.world, n)
    modifies api
    ensures api.Valid() && old(api.log) <= api.log && !api.world.cr.finalizer
    ensures var w, infra := old(api.world), old(api.world).cr.status.infra + old(api.world).cr.spec.infra;
      && Leaves(w.owned, api.world.owned, infra, api.thief, rest)
      && (Swept(api.world, infra) <==>
          !(Stolen(w.owned, api.thief) && SomethingAfter(w.owned, infra, api.thief.value, rest)))
  {
    ghost var w := api.world;
    var cr;
    ghost var mid;
    cr, mid := api.GetCr();
    ghost var w1 := api.world;
    StartReleasesNone(w);
    var inst := new ComputeNodeOpenStack(cr.value);
    var err;
    err, rest := ReconcileDeletion(api, inst);
    assert !Advanced(w1, api.world) && !SomeBroke(w1) && !AwaitsJob(w1, api.world);
    LeavesNothingExactlyWhen(w, api.world, w.cr.status.infra + w.cr.spec.infra, api.thief, rest);
  }

  lemma StartReleasesNone(w: World)
    ensures forall n :: HasFinalizer(Apply(w, StartReconcile), n) <==> HasFinalizer(w, n)
  {
  }

  /** A resource that is being deleted, without nodes, with these labelled objects. */
  function OnlyObjects(owned: set<ObjKey>): World {
    World(Kube(map[], map[], map[], 0, map[]), Jobs(map[], map[], {}, {}), NO_CLOUD,
          Cr(Spec([], false, [], ""), Status([], 0, [], None), 0, true, true, 0), owned, false, NO_BOOKS)
  }

  /** THE CLEANUP CUT SHORT.  Somebody else deletes the MachineSet between its listing and its deletion: the reconcile
      counts the NotFound as success, and ends with the finalizer gone and the MachineConfig left. */
  method CleanupCutShort(machineSet: Name, config: Name) returns (finalizer: bool, left: set<ObjKey>)
    ensures !finalizer && left == {ObjKey(MachineConfig, "", config)}
  {
    var a, b := ObjKey(MachineSet, MACHINE_API, machineSet), ObjKey(MachineConfig, "", config);
    assert Selected(a, []) && Selected(b, []) && Turn(MachineSet) < Turn(MachineConfig);
    var api := new ApiServer(OnlyObjects({a, b}), true, Some(a), {});
    ghost var rest := CleanupCompleteExactlyWhen(api);
    finalizer, left := api.world.cr.finalizer, api.world.owned;
  }
}
