/** The operator's part of the drain protocol: the helpers that issue the API calls, and the routine that walks
    the nodes of a role on every reconcile. */
module Drain {
  import opened Model
  import opened Protocol
  import opened Api
  import opened NodesToDelete

  // ----- What a step of the operator leaves standing --------------------------------------------------

  /** Nothing is lost: like Calm, but new drain jobs and taints may have appeared. */
  ghost predicate Onward(w: World, w': World) {
    && (forall m :: KeptNode(w.kube, w'.kube, m))
    && (forall m :: KeptJobs(w.jobs, w'.jobs, m))
    && w'.kube.last == w.kube.last && w'.kube.nextUid == w.kube.nextUid
    && (forall m :: m in w'.kube.pods ==> m in w.kube.pods && w'.kube.pods[m] == w.kube.pods[m])
    && w.jobs.drained <= w'.jobs.drained
    && CalmCr(w.cr, w'.cr) && OwnedShrinks(w, w')
    && w'.books == w.books.(tagged := w'.books.tagged)
  }

  lemma OnwardTransitive(a: World, b: World, c: World)
    requires Onward(a, b) && Onward(b, c)
    ensures Onward(a, c)
  {
    forall n ensures KeptNode(a.kube, c.kube, n) {
      assert KeptNode(a.kube, b.kube, n) && KeptNode(b.kube, c.kube, n);
    }
    forall n ensures KeptJobs(a.jobs, c.jobs, n) {
      assert KeptJobs(a.jobs, b.jobs, n) && KeptJobs(b.jobs, c.jobs, n);
    }
  }

  lemma NewWorkIsOnward(w: World, mid: World, w': World, c: Call)
    requires Calm(w, mid) && (w' == mid || w' == Apply(mid, c))
    requires c.CreatePre? || c.CreatePost? || c.AddTaint? || c.ListMachines?
    ensures Onward(w, w')
  {
    forall m ensures KeptNode(w.kube, w'.kube, m) { assert KeptNode(w.kube, mid.kube, m); }
    forall m ensures KeptJobs(w.jobs, w'.jobs, m) { assert KeptJobs(w.jobs, mid.jobs, m); }
  }

  // ----- Stages left, and how far a quiet step reaches ------------------------------------------------

  /** The stages node n still has before it: pre job, post job, cleanup. */
  function StagesLeft(w: World, n: Name): nat {
    if !HasFinalizer(w, n) then 0
    else if n !in w.jobs.pre then 3
    else if n !in w.jobs.post then 2
    else 1
  }

  ghost predicate JobsSucceeded(w: World) {
    && (forall n :: n in w.jobs.pre ==> w.jobs.pre[n].succeeded)
    && (forall n :: n in w.jobs.post ==> w.jobs.post[n].succeeded)
  }

  /** Nothing but the drain of node n moved. */
  ghost predicate OnlyNode(w: World, w': World, n: Name) {
    && w'.kube.machines == w.kube.machines && w'.kube.nodes.Keys == w.kube.nodes.Keys
    && (forall m :: m in w.kube.nodes ==> SameNode(w.kube.nodes[m], w'.kube.nodes[m]))
    && (forall m :: m != n ==> SameDrain(w, w', m))
    && w'.cr.status == w.cr.status && w'.cr.deleted == w.cr.deleted && w'.cr.finalizer == w.cr.finalizer
  }

  /** Only the taint may differ. */
  ghost predicate SameNode(a: Node, b: Node) { b == a.(tainted := b.tainted) }

  ghost predicate SameDrain(w: World, w': World, m: Name) {
    && (m in w'.kube.pods <==> m in w.kube.pods) && (m in w.kube.pods ==> w'.kube.pods[m] == w.kube.pods[m])
    && (m in w'.jobs.pre <==> m in w.jobs.pre) && (m in w.jobs.pre ==> w'.jobs.pre[m] == w.jobs.pre[m])
    && (m in w'.jobs.post <==> m in w.jobs.post) && (m in w.jobs.post ==> w'.jobs.post[m] == w.jobs.post[m])
  }

  // ----- Reading nodes and machines -------------------------------------------------------------------

  /** What a node's phase is in a given cluster. */
  function PhaseOf(k: Kube, node: Node): Phase {
    if node.unschedulable || node.machine !in k.machines || k.machines[node.machine].deleting
    then SchedulingDisabled
    else match node.ready case Up => Ready case Down => NotReady case Unreported => NoPhase
  }

  /** The machine is gone, or is being deleted. */
  predicate MachineAway(k: Kube, m: Name) { m in k.machines ==> k.machines[m].deleting }

  /** Cordoned nodes, and nodes whose machine is away, have scheduling disabled; for the others the Ready condition
      decides: NotReady is whatever is there and not True.  A failing lookup of the machine is passed over.  Unless the
      node is cordoned, its machine annotation is split at the slash: without annotation the reconcile panics. */
  method GetNodeStatus(api: ApiServer, node: Node) returns (r: Result<Phase>)
    requires api.Valid()
    modifies api
    ensures api.Valid() && Calm(old(api.world), api.world) && old(api.log) <= api.log
    ensures r.Err? <==> !node.unschedulable && !node.annotated
    ensures r.Err? ==> r.error == Panic
    ensures node.unschedulable ==> r == Ok(SchedulingDisabled)
    ensures r == Ok(SchedulingDisabled) ==> node.unschedulable || MachineAway(api.world.kube, node.machine)
    ensures r.Ok? && r.value != SchedulingDisabled ==>
      && (r.value == Ready <==> node.ready.Up?) && (r.value == NotReady <==> node.ready.Down?)
      && (node.machine !in api.flaky || api.quiet ==> !MachineAway(api.world.kube, node.machine))
    ensures api.quiet ==> api.world == old(api.world) && (r.Ok? ==> r.value == PhaseOf(api.world.kube, node))
  {
    CalmRun(api.world, []);
    if node.unschedulable { return Ok(SchedulingDisabled); }
    if !node.annotated { return Err(Panic); }
    var machine := api.GetMachine(node.machine);
    if machine.Err? && machine.error.NotFound? { return Ok(SchedulingDisabled); }
    if machine.Ok? && machine.value.deleting { return Ok(SchedulingDisabled); }
    r := Ok(match node.ready case Up => Ready case Down => NotReady case Unreported => NoPhase);
  }

  /** Whether the machine behind node n is being deleted.  Without annotation the reconcile panics; and for a
      machine that is gone already the code dereferences the result of the failed lookup: it panics as well. */
  method IsMachineBeingDeleted(api: ApiServer, n: Name) returns (r: Result<bool>)
    requires api.Valid()
    modifies api
    ensures api.Valid() && Calm(old(api.world), api.world) && old(api.log) <= api.log
    ensures r == Ok(true) && HasFinalizer(api.world, n) ==> MachineLeaving(api.world.kube, n)
    ensures r == Ok(false) && HasFinalizer(api.world, n) ==> !MachineLeaving(api.world.kube, n)
    ensures api.quiet && n in old(api.world).kube.nodes ==>
      api.world == old(api.world) && (r.Err? ==> r.error.Panic?) && (r.Ok? <==> MachineKnown(api.world.kube, n))
      && (r.Ok? ==> r.value == api.world.kube.machines[api.world.kube.nodes[n].machine].deleting)
  {
    var node := api.GetNode(n);
    if node.Err? { return Err(node.error); }
    if !node.value.annotated { return Err(Panic); }
    ghost var w1 := api.world;
    var machine := api.GetMachine(node.value.machine);
    assert KeptNode(w1.kube, api.world.kube, n);
    CalmTransitive(old(api.world), w1, api.world);
    if machine.Err? {
      return Err(if machine.error.NotFound? then Panic else machine.error);
    }
    r := Ok(machine.value.deleting);
  }

  /** Node n is there, with its annotation, and so is its machine. */
  ghost predicate MachineKnown(k: Kube, n: Name) {
    n in k.nodes && k.nodes[n].annotated && k.nodes[n].machine in k.machines
  }

  /** Some machine with a deletion timestamp refers to node n. */
  predicate HasTaggedMachine(k: Kube, n: Name) {
    exists m <- k.machines :: k.machines[m].deleting && k.machines[m].nodeRef == Some(n)
  }

  /** The nodes whose machines carry a deletion timestamp. */
  method GetDeletedOspWorkerNodes(api: ApiServer, path: Path) returns (r: Result<seq<Name>>)
    requires api.Valid() && Under(api.world, path)
    modifies api
    ensures api.Valid() && Onward(old(api.world), api.world) && old(api.log) <= api.log
    ensures r.Ok? ==> forall n :: n in r.value <==> HasTaggedMachine(api.world.kube, n)
    ensures r.Ok? ==> forall n :: n in r.value <==> n in api.world.books.tagged
    ensures r.Ok? ==> api.world.books.tagged == TaggedNodes(api.world.kube)
    ensures r.Err? ==> r.error.Failed?
    ensures api.world.jobs.pre.Keys == old(api.world).jobs.pre.Keys
    ensures api.quiet ==> r.Ok? && api.world == Apply(old(api.world), ListMachines)
  {
    ghost var w0, mid := api.world, api.world;
    var machines;
    machines, mid := api.ListMachines(path);
    NewWorkIsOnward(w0, mid, api.world, ListMachines);
    if machines.Err? { return Err(machines.error); }
    var tagged: seq<Name> := [];
    for i := 0 to |machines.value|
      invariant forall n :: n in tagged <==>
        exists j :: 0 <= j < i && machines.value[j].deleting && machines.value[j].nodeRef == Some(n)
    {
      var machine := machines.value[i];
      if machine.nodeRef.None? { continue; }
      if machine.deleting { tagged := tagged + [machine.nodeRef.value]; }
    }
    ListedTagged(api.world.kube, machines.value);
    r := Ok(tagged);
  }

  lemma ListedTagged(k: Kube, machines: seq<Machine>)
    requires forall m :: m in machines <==> m in k.machines.Values
    ensures forall n :: n in TaggedNodes(k) <==>
      exists j :: 0 <= j < |machines| && machines[j].deleting && machines[j].nodeRef == Some(n)
  {
    forall n | n in TaggedNodes(k)
      ensures exists j :: 0 <= j < |machines| && machines[j].deleting && machines[j].nodeRef == Some(n)
    {
      var m :| m in k.machines && k.machines[m].deleting && k.machines[m].nodeRef == Some(n);
      assert k.machines[m] in machines;
    }
    forall j | 0 <= j < |machines| && machines[j].deleting && machines[j].nodeRef.Some?
      ensures machines[j].nodeRef.value in TaggedNodes(k)
    {
      assert machines[j] in machines;
    }
  }

  /** The services a pre job for node n disables. */
  function DisableList(tagged: seq<Name>, n: Name): (hosts: seq<Name>)
    ensures hosts != []
  {
    if tagged == [] then [n] else tagged
  }

  /** The list the loop builds is the disable set; a node is on the list of its own pre job exactly when its machine
      is tagged, or no machine is. */
  lemma OwnNodeListed(tagged: seq<Name>, found: set<Name>, n: Name)
    requires forall m :: m in tagged <==> m in found
    ensures (set h | h in DisableList(tagged, n)) == DisableSet(found, n)
    ensures forall h :: h in DisableList(tagged, n) <==> if found == {} then h == n else h in found
    ensures n in DisableList(tagged, n) <==> n in found || found == {}
  {
    if tagged != [] { assert tagged[0] in found; }
  }

  /** Live migration is on for a node when it is on for all, or for the node's first entry on the list. */
  predicate Migrates(spec: Spec, n: Name) {
    var i := FirstIndex(spec.nodesToDelete, n);
    spec.drain || (i < |spec.nodesToDelete| && spec.nodesToDelete[i].drain)
  }

  method EnableLiveMigration(spec: Spec, n: Name) returns (enabled: bool)
    ensures enabled <==>
      || spec.drain
      || exists i :: IsFirst(spec.nodesToDelete, n, i) && spec.nodesToDelete[i].drain
    ensures enabled == Migrates(spec, n)
  {
    enabled := false;
    if spec.drain { enabled := true; }
    for i := 0 to |spec.nodesToDelete|
      invariant forall j :: 0 <= j < i ==> spec.nodesToDelete[j].name != n
      invariant enabled == spec.drain
    {
      if spec.nodesToDelete[i].name == n {
        assert IsFirst(spec.nodesToDelete, n, i) && FirstIndex(spec.nodesToDelete, n) == i;
        if spec.nodesToDelete[i].drain { enabled := true; }
        break;
      }
    }
  }

  /** Entry i is the first one of node n. */
  predicate IsFirst(list: seq<NodeToDelete>, n: Name, i: int) {
    0 <= i < |list| && list[i].name == n && forall j :: 0 <= j < i ==> list[j].name != n
  }

  /** The completion of another node's drain switches live migration for node b on or off exactly when it lets another
      entry of b overtake the first one and live migration is not on for all. */
  lemma MigrationChangesExactlyWhen(spec: Spec, a: Name, b: Name)
    requires a != b && FirstIndex(spec.nodesToDelete, b) < |spec.nodesToDelete|
    ensures var spec' := spec.(nodesToDelete := Without(spec.nodesToDelete, a));
      Migrates(spec', b) != Migrates(spec, b) <==> !spec.drain && Overtakes(spec.nodesToDelete, a, b)
  {
    FirstEntryChangesExactlyWhen(spec.nodesToDelete, a, b);
  }

  // ----- Blocker pods ---------------------------------------------------------------------------------

  /** What handling node n leaves alone; n itself may gain a blocker pod. */
  ghost predicate Beside(w: World, w': World, n: Name) {
    && (forall m :: m != n ==> KeptNode(w.kube, w'.kube, m))
    && (forall m :: Shielded(w, m) ==> Shielded(w', m))
    && w'.cr.status == w.cr.status && w'.cr.finalizer == w.cr.finalizer && w.cr.version <= w'.cr.version
    && w'.books.path == w.books.path
  }

  method CreateBlockerPod(api: ApiServer, n: Name) returns (err: Option<Error>)
    requires api.Valid() && Under(api.world, Regular)
    modifies api
    ensures api.Valid() && old(api.log) <= api.log
    ensures err.None? ==> Shielded(api.world, n)
    ensures Beside(old(api.world), api.world, n) && CalmCr(old(api.world).cr, api.world.cr)
    ensures HasFinalizer(old(api.world), n) ==> HasFinalizer(api.world, n)
    ensures api.quiet ==> err.None? && api.world == Apply(old(api.world), CreateBlocker(n))
  {
    ghost var mid;
    err, mid := api.Create(CreateBlocker(n), Regular);
    BlockerIsBeside(old(api.world), mid, api.world, n);
    if err == Some(AlreadyExists) { err := None; }
  }

  lemma BlockerIsBeside(w: World, mid: World, w': World, n: Name)
    requires Inv(w) && Calm(w, mid) && (w' == mid || w' == Apply(mid, CreateBlocker(n)))
    ensures Beside(w, w', n) && (HasFinalizer(w, n) ==> HasFinalizer(w', n))
  {
    ShieldsStayCalm(w, mid);
    assert KeptNode(w.kube, mid.kube, n);
    forall m | m != n ensures KeptNode(w.kube, w'.kube, m) { assert KeptNode(w.kube, mid.kube, m); }
  }

  /** No node loses its shield, and nobody but the operator writes its status. */
  ghost predicate ShieldsStay(w: World, w': World) {
    (forall m :: Shielded(w, m) ==> Shielded(w', m)) && CalmCr(w.cr, w'.cr)
  }

  lemma ShieldsStayCalm(w: World, w': World)
    requires Inv(w) && Calm(w, w')
    ensures ShieldsStay(w, w')
  {
    forall m | Shielded(w, m) ensures Shielded(w', m) { ShieldedStays(w, w', m); }
  }

  lemma ShieldsStayOnward(w: World, w': World)
    requires Inv(w) && Onward(w, w')
    ensures ShieldsStay(w, w')
  {
    forall m | Shielded(w, m) ensures Shielded(w', m) { ShieldedStays(w, w', m); }
  }

  method IsBlockerPodFinalizerDeleted(api: ApiServer, n: Name) returns (r: Result<bool>)
    requires api.Valid()
    modifies api
    ensures api.Valid() && Calm(old(api.world), api.world) && old(api.log) <= api.log
    ensures if r.Ok? then r.value == !HasFinalizer(api.world, n) else r.error.Failed?
    ensures api.quiet ==> api.world == old(api.world) && r.Ok?
  {
    var pod := api.GetPod(n);
    if pod.Err? {
      return if pod.error.NotFound? then Ok(true) else Err(pod.error);
    }
    r := Ok(!pod.value.finalizer);
  }

  /** Like Onward for every node but n; protection is never gained. */
  ghost predicate OnwardExcept(w: World, w': World, n: Name) {
    && (forall m :: m != n ==> Kept(w, w', m))
    && (forall m :: HasFinalizer(w', m) ==> HasFinalizer(w, m))
    && w.jobs.drained <= w'.jobs.drained
    && CalmCr(w.cr, w'.cr) && OwnedShrinks(w, w')
    && w'.books == w.books.(owed := w'.books.owed) && w.books.owed <= w'.books.owed
  }

  lemma OneNodeMoves(w: World, mid: World, w': World, c: Call)
    requires Calm(w, mid) && (w' == mid || w' == Apply(mid, c))
    requires c.RemoveFinalizer? || c.DeletePre? || c.DeletePost? || c.CreatePre? || c.CreatePost? || c.AddTaint?
    ensures OnwardExcept(w, w', c.n)
  {
    forall m ensures KeptNode(w.kube, mid.kube, m) && KeptJobs(w.jobs, mid.jobs, m) {}
    forall m | m != c.n ensures Kept(w, w', m) {
      assert KeptNode(w.kube, mid.kube, m) && KeptJobs(w.jobs, mid.jobs, m);
    }
    forall m | HasFinalizer(w', m) ensures HasFinalizer(w, m) { assert KeptNode(w.kube, mid.kube, m); }
  }

  // ----- Drain jobs -----------------------------------------------------------------------------------

  /** Creates the pre job of node n unless it is there, for the newest blocker pod of n, at the start of its script,
      with live migration as configured and the services of the nodes found tagged just before on its list. */
  method TriggerPreDrain(api: ApiServer, spec: Spec, n: Name, path: Path) returns (err: Option<Error>)
    requires api.Valid() && Under(api.world, path) && HasFinalizer(api.world, n) && n in api.world.kube.nodes
    requires if path.Regular? then MachineLeaving(api.world.kube, n) else api.world.books.listing.Some?
    modifies api
    ensures api.Valid() && Onward(old(api.world), api.world) && old(api.log) <= api.log
    ensures err.None? ==> n in api.world.jobs.pre
    ensures err.Some? ==> err.value.Failed?
    ensures err.None? && n !in old(api.world).jobs.pre ==> FreshPre(api.world, spec, n)
    ensures api.quiet ==> err.None? && PreTriggered(old(api.world), api.world, n)
    ensures api.quiet ==> forall m :: m in api.world.books.tagged <==> HasTaggedMachine(old(api.world).kube, m)
  {
    ghost var w0 := api.world;
    var hosts := ServicesToDisable(api, n, path);
    ghost var w1 := api.world;
    assert KeptNode(w0.kube, w1.kube, n);
    if hosts.Err? { return Some(hosts.error); }
    var migrate := EnableLiveMigration(spec, n);
    err := CreatePreJob(api, n, hosts.value, migrate, path);
    OnwardTransitive(w0, w1, api.world);
  }

  /** The services to disable with the pre job of node n. */
  method ServicesToDisable(api: ApiServer, n: Name, path: Path) returns (r: Result<seq<Name>>)
    requires api.Valid() && Under(api.world, path)
    modifies api
    ensures api.Valid() && Onward(old(api.world), api.world) && old(api.log) <= api.log
    ensures r.Err? ==> r.error.Failed?
    ensures r.Ok? ==> Suited(r.value, api.world.books.tagged, n)
    ensures r.Ok? && MachineLeaving(api.world.kube, n) ==> n in r.value
    ensures api.world.jobs.pre.Keys == old(api.world).jobs.pre.Keys
    ensures api.quiet ==> r.Ok? && api.world == Apply(old(api.world), ListMachines)
    ensures api.quiet ==> forall m :: m in api.world.books.tagged <==> HasTaggedMachine(api.world.kube, m)
  {
    r := GetDeletedOspWorkerNodes(api, path);
    if r.Err? { return; }
    if MachineLeaving(api.world.kube, n) { LeavingIsTagged(api.world.kube, api.world.jobs, n); }
    OwnNodeListed(r.value, api.world.books.tagged, n);
    r := Ok(DisableList(r.value, n));
  }

  /** All tagged nodes are on the list, or if there are none, n alone. */
  ghost predicate Suited(hosts: seq<Name>, tagged: set<Name>, n: Name) {
    && hosts != [] && (set h | h in hosts) == DisableSet(tagged, n)
    && forall h :: h in hosts <==> if tagged == {} then h == n else h in tagged
  }

  /** How a pre job for n is ordered: live migration if it is on for all, or by n's first entry; and the services of all
      tagged nodes, or its own if there are none. */
  ghost predicate Ordered(spec: Spec, n: Name, tagged: set<Name>, hosts: seq<Name>, migrate: bool) {
    && (migrate <==> spec.drain || exists i :: IsFirst(spec.nodesToDelete, n, i) && spec.nodesToDelete[i].drain)
    && Suited(hosts, tagged, n)
  }

  method CreatePreJob(api: ApiServer, n: Name, hosts: seq<Name>, migrate: bool, path: Path) returns (err: Option<Error>)
    requires api.Valid() && Legal(api.world, CreatePre(n, hosts, migrate), path)
    modifies api
    ensures api.Valid() && Onward(old(api.world), api.world) && old(api.log) <= api.log
    ensures api.world.books == old(api.world).books && (err.Some? ==> err.value.Failed?)
    ensures err.None? ==> n in api.world.jobs.pre
    ensures err.None? && n !in old(api.world).jobs.pre ==>
      api.world.jobs.pre[n] == PreJob(NewestPod(api.world.kube, n), hosts, migrate, Check(hosts), NotYet, false, false)
    ensures api.quiet ==> err.None? && PreTriggered(old(api.world), api.world, n)
  {
    ghost var w0, mid := api.world, api.world;
    err, mid := api.Create(CreatePre(n, hosts, migrate), path);
    NewWorkIsOnward(w0, mid, api.world, CreatePre(n, hosts, migrate));
    assert n in mid.jobs.pre.Keys <==> n in w0.jobs.pre.Keys;
    if err == Some(AlreadyExists) { err := None; }
  }

  /** The pre job of n as it is ordered. */
  ghost predicate FreshPre(w: World, spec: Spec, n: Name) {
    n in w.jobs.pre &&
    var job := w.jobs.pre[n];
    && job == PreJob(NewestPod(w.kube, n), job.hosts, job.migrate, Check(job.hosts), NotYet, false, false)
    && Ordered(spec, n, w.books.tagged, job.hosts, job.migrate)
  }

  lemma LeavingIsTagged(k: Kube, j: Jobs, n: Name)
    requires DrainInv(k, j) && MachineLeaving(k, n)
    ensures n in TaggedNodes(k)
  {
    assert k.machines[k.nodes[n].machine].nodeRef == Some(n);
  }

  lemma CalmIsOnward(w: World, w': World)
    requires Calm(w, w')
    ensures Onward(w, w')
  {
  }

  /** All that happened is that the machines were listed and the pre job of n was created, unless it was there. */
  ghost predicate PreTriggered(w: World, w': World, n: Name) {
    && w'.kube == w.kube && w'.cr == w.cr && w'.owned == w.owned && w'.jobs.post == w.jobs.post
    && (n in w.jobs.pre ==> w'.jobs == w.jobs)
    && (n !in w.jobs.pre ==>
          n in w'.jobs.pre && !w'.jobs.pre[n].succeeded && !w'.jobs.pre[n].active
          && w'.jobs.pre == w.jobs.pre[n := w'.jobs.pre[n]])
  }

  ghost predicate PostTriggered(w: World, w': World, n: Name) {
    && w'.kube == w.kube && w'.cr == w.cr && w'.owned == w.owned && w'.jobs.pre == w.jobs.pre
    && (n in w.jobs.post ==> w'.jobs == w.jobs)
    && (n !in w.jobs.post ==>
          n in w'.jobs.post && !w'.jobs.post[n].succeeded && !w'.jobs.post[n].active
          && w'.jobs.post == w.jobs.post[n := w'.jobs.post[n]])
  }

  method TriggerPostDrain(api: ApiServer, n: Name, path: Path) returns (err: Option<Error>)
    requires api.Valid() && Legal(api.world, CreatePost(n), path)
    modifies api
    ensures api.Valid() && Onward(old(api.world), api.world) && old(api.log) <= api.log
    ensures err.None? ==> n in api.world.jobs.post
    ensures err.Some? ==> err.value.Failed?
    ensures api.quiet ==> err.None? && PostTriggered(old(api.world), api.world, n)
  {
    ghost var w0 := api.world;
    var tagged := GetDeletedOspWorkerNodes(api, path);
    ghost var w1 := api.world;
    PostStaysLegal(w0, w1, n, path);
    if tagged.Err? { return Some(tagged.error); }
    ghost var mid;
    err, mid := api.Create(CreatePost(n), path);
    NewWorkIsOnward(w1, mid, api.world, CreatePost(n));
    OnwardTransitive(w0, w1, api.world);
    if err == Some(AlreadyExists) { err := None; }
  }

  lemma PostStaysLegal(w: World, w': World, n: Name, path: Path)
    requires Inv(w) && Onward(w, w') && Legal(w, CreatePost(n), path)
    ensures Legal(w', CreatePost(n), path)
  {
    assert KeptNode(w.kube, w'.kube, n) && KeptJobs(w.jobs, w'.jobs, n) && PreInv(w.kube, w.jobs, n);
    OnwardBarrier(w, w');
  }

  /** Whether the pre job of n succeeded; a job that neither succeeded nor runs is an error. */
  method IsPreDrained(api: ApiServer, n: Name) returns (r: Result<bool>)
    requires api.Valid()
    modifies api
    ensures api.Valid() && Calm(old(api.world), api.world) && old(api.log) <= api.log
    ensures r.Ok? ==> n in api.world.jobs.pre && Tells(r.value, api.world.jobs.pre[n].succeeded, api.world.jobs.pre[n].active)
    ensures r.Err? ==> r.error.Failed? || (r.error.NotFound? && n !in api.world.jobs.pre)
    ensures api.quiet ==> api.world == old(api.world)
    ensures api.quiet && n in api.world.jobs.pre ==>
      (r.Ok? <==> api.world.jobs.pre[n].succeeded || api.world.jobs.pre[n].active)
  {
    var job := api.GetPre(n);
    r := if job.Err? then Err(job.error) else JobAnswer(job.value.succeeded, job.value.active);
  }

  /** The answer says whether the job succeeded, and a job that did not is active. */
  predicate Tells(answer: bool, succeeded: bool, active: bool) { answer == succeeded && (succeeded || active) }

  function JobAnswer(succeeded: bool, active: bool): Result<bool> {
    if succeeded then Ok(true) else if active then Ok(false) else Err(Failed)
  }

  method IsPostDrained(api: ApiServer, n: Name) returns (r: Result<bool>)
    requires api.Valid()
    modifies api
    ensures api.Valid() && Calm(old(api.world), api.world) && old(api.log) <= api.log
    ensures r.Ok? ==>
      n in api.world.jobs.post && Tells(r.value, api.world.jobs.post[n].succeeded, api.world.jobs.post[n].active)
    ensures r.Err? ==> r.error.Failed? || (r.error.NotFound? && n !in api.world.jobs.post)
    ensures api.quiet ==> api.world == old(api.world)
    ensures api.quiet && n in api.world.jobs.post ==>
      (r.Ok? <==> api.world.jobs.post[n].succeeded || api.world.jobs.post[n].active)
  {
    var job := api.GetPost(n);
    r := if job.Err? then Err(job.error) else JobAnswer(job.value.succeeded, job.value.active);
  }

  /** The error a lookup that found no drain job is turned into. */
  function Wrapped(r: Result<bool>): Result<bool> {
    if r.Err? && r.error.NotFound? then Err(Failed) else r
  }

  method EnsureNodePreDrain(api: ApiServer, spec: Spec, n: Name, path: Path) returns (r: Result<bool>)
    requires api.Valid() && Under(api.world, path) && HasFinalizer(api.world, n) && n in api.world.kube.nodes
    requires if path.Regular? then MachineLeaving(api.world.kube, n) else api.world.books.listing.Some?
    modifies api
    ensures api.Valid() && Onward(old(api.world), api.world) && old(api.log) <= api.log
    ensures r == Ok(true) ==> PreDone(api.world, n)
    ensures if r.Ok? then n in api.world.jobs.pre else r.error.Failed?
    ensures api.quiet ==> PreTriggered(old(api.world), api.world, n) && AnswersPre(old(api.world), n, r)
  {
    ghost var w0 := api.world;
    var err := TriggerPreDrain(api, spec, n, path);
    if err.Some? { return Err(err.value); }
    ghost var w1 := api.world;
    r := IsPreDrained(api, n);
    CalmIsOnward(w1, api.world);
    OnwardTransitive(w0, w1, api.world);
    r := Wrapped(r);
  }

  /** On a quiet platform: a job just created, or one that neither succeeded nor runs, is an error; otherwise the answer
      says whether it succeeded. */
  predicate AnswersPre(w: World, n: Name, r: Result<bool>) {
    && (n !in w.jobs.pre ==> r.Err?)
    && (n in w.jobs.pre ==>
          && (w.jobs.pre[n].succeeded ==> r == Ok(true))
          && (!w.jobs.pre[n].succeeded && w.jobs.pre[n].active ==> r == Ok(false))
          && (!w.jobs.pre[n].succeeded && !w.jobs.pre[n].active ==> r.Err?))
  }

  predicate AnswersPost(w: World, n: Name, r: Result<bool>) {
    && (n !in w.jobs.post ==> r.Err?)
    && (n in w.jobs.post ==>
          && (w.jobs.post[n].succeeded ==> r == Ok(true))
          && (!w.jobs.post[n].succeeded && w.jobs.post[n].active ==> r == Ok(false))
          && (!w.jobs.post[n].succeeded && !w.jobs.post[n].active ==> r.Err?))
  }

  /** Never reports AlreadyExists: the creation passes over it. */
  method EnsureNodePostDrain(api: ApiServer, n: Name, path: Path) returns (r: Result<bool>)
    requires api.Valid() && Legal(api.world, CreatePost(n), path)
    modifies api
    ensures api.Valid() && Onward(old(api.world), api.world) && old(api.log) <= api.log
    ensures r == Ok(true) ==> PostDone(api.world, n)
    ensures if r.Ok? then n in api.world.jobs.post else r.error.Failed?
    ensures api.quiet ==> PostTriggered(old(api.world), api.world, n) && AnswersPost(old(api.world), n, r)
  {
    ghost var w0 := api.world;
    var err := TriggerPostDrain(api, n, path);
    if err.Some? { return Err(err.value); }
    ghost var w1 := api.world;
    r := IsPostDrained(api, n);
    CalmIsOnward(w1, api.world);
    OnwardTransitive(w0, w1, api.world);
    r := Wrapped(r);
  }

  /** Taints the node, unless the copy read with the node list shows the taint already. The update of a node
      that is gone fails. */
  method AddToBeRemovedTaint(api: ApiServer, n: Name, copy: Node, path: Path) returns (err: Option<Error>)
    requires api.Valid() && Legal(api.world, AddTaint(n), path)
    requires copy.tainted ==> Tainted(api.world, n)
    modifies api
    ensures api.Valid() && Onward(old(api.world), api.world) && old(api.log) <= api.log
    ensures if err.None? then Tainted(api.world, n) else err.value.Failed?
    ensures api.quiet && n in old(api.world).kube.nodes ==>
      err.None? && (api.world == old(api.world) || api.world == Apply(old(api.world), AddTaint(n)))
  {
    ghost var w0 := api.world;
    CalmRun(w0, []);
    CalmIsOnward(w0, w0);
    if copy.tainted { return None; }
    var present := api.GetNode(n);
    ghost var w1 := api.world;
    CalmIsOnward(w0, w1);
    if present.Err? { return Some(Failed); }
    LegalStaysLegal(w0, w1, AddTaint(n), path);
    var ok;
    ghost var mid;
    ok, mid := api.Submit(AddTaint(n), path);
    assert KeptNode(w1.kube, mid.kube, n);
    NewWorkIsOnward(w1, mid, api.world, AddTaint(n));
    OnwardTransitive(w0, w1, api.world);
    err := if ok then None else Some(Failed);
  }

  // ----- Cleanup --------------------------------------------------------------------------------------

  /** Node n is drained and still protected, and so is every protected node of the deletion's listing. */
  ghost predicate Cleaning(w: World, n: Name, path: Path) {
    Under(w, path) && HasFinalizer(w, n) && Drained(w, n) && (path.Deletion? ==> AllDrained(w))
  }

  lemma CleaningStays(w: World, w': World, n: Name, path: Path)
    requires Cleaning(w, n, path) && Calm(w, w')
    ensures Cleaning(w', n, path)
  {
    assert KeptNode(w.kube, w'.kube, n);
    if path.Deletion? { BarriersStay(w, w'); }
  }

  lemma OnwardExceptTransitive(a: World, b: World, c: World, n: Name)
    requires OnwardExcept(a, b, n) && OnwardExcept(b, c, n)
    ensures OnwardExcept(a, c, n)
  {
    forall m | m != n ensures Kept(a, c, m) {
      assert Kept(a, b, m) && Kept(b, c, m);
    }
  }

  /** The drain jobs a deletion call is about. */
  function JobNames(j: Jobs, c: Call): set<Name> { if c.DeletePost? then j.post.Keys else j.pre.Keys }

  ghost predicate Succeeded(j: Jobs, n: Name) {
    (n in j.pre ==> j.pre[n].succeeded) && (n in j.post ==> j.post[n].succeeded)
  }

  /** The job a deletion call is about succeeded. */
  predicate JobDone(w: World, n: Name, c: Call) { if c.DeletePost? then PostDone(w, n) else PreDone(w, n) }

  method ReadSucceeded(api: ApiServer, n: Name, c: Call) returns (r: Result<bool>)
    requires api.Valid() && (c == DeletePost(n) || c == DeletePre(n))
    modifies api
    ensures api.Valid() && Calm(old(api.world), api.world) && old(api.log) <= api.log
    ensures r.Ok? ==> n in JobNames(api.world.jobs, c) && r.value == JobDone(api.world, n, c)
    ensures r.Err? ==> r.error.Failed? || (r.error.NotFound? && n !in JobNames(api.world.jobs, c))
    ensures api.quiet ==> api.world == old(api.world) && (r.Ok? || r.error.NotFound?)
  {
    if c.DeletePost? {
      var job := api.GetPost(n);
      r := if job.Ok? then Ok(job.value.succeeded) else Err(job.error);
    } else {
      var job := api.GetPre(n);
      r := if job.Ok? then Ok(job.value.succeeded) else Err(job.error);
    }
  }

  lemma SucceededStays(w: World, w': World, n: Name)
    requires Calm(w, w') && Succeeded(w.jobs, n)
    ensures Succeeded(w'.jobs, n)
  {
    assert KeptJobs(w.jobs, w'.jobs, n);
  }

  /** What deleting a drain job of a drained node leaves standing. */
  lemma JobDeletionKeeps(w: World, mid: World, w': World, n: Name, c: Call, path: Path)
    requires Inv(w) && Calm(w, mid) && (w' == mid || w' == Apply(mid, c))
    requires (c == DeletePost(n) || c == DeletePre(n)) && Cleaning(w, n, path)
    ensures Cleaning(w', n, path) && (Succeeded(w.jobs, n) ==> Succeeded(w'.jobs, n))
    ensures OnwardExcept(w, w', n) && ShieldsStay(w, w')
    ensures n !in w.jobs.post ==> n !in w'.jobs.post
  {
    CleaningStays(w, mid, n, path);
    if Succeeded(w.jobs, n) { SucceededStays(w, mid, n); }
    OneNodeMoves(w, mid, w', c);
    ShieldsStayCalm(w, mid);
    if path.Deletion? { assert AllDrained(mid) ==> AllDrained(w'); }
  }

  /** Deletes a drain job of n if it succeeded, and leaves it otherwise; the caller takes a job that is not there as
      deleted. */
  method DeleteJobWithName(api: ApiServer, n: Name, c: Call, path: Path) returns (err: Option<Error>)
    requires api.Valid() && Cleaning(api.world, n, path)
    requires c == DeletePost(n) || (c == DeletePre(n) && n !in api.world.jobs.post)
    modifies api
    ensures api.Valid() && Cleaning(api.world, n, path) && old(api.log) <= api.log
    ensures err != Some(AlreadyExists)
    ensures OnwardExcept(old(api.world), api.world, n) && ShieldsStay(old(api.world), api.world)
    ensures Succeeded(old(api.world).jobs, n) ==>
      Succeeded(api.world.jobs, n) && (err.None? || err.value.NotFound? ==> n !in JobNames(api.world.jobs, c))
    ensures n !in old(api.world).jobs.post ==> n !in api.world.jobs.post
    ensures api.quiet ==> err == if n in JobNames(old(api.world).jobs, c) then None else Some(NotFound)
    ensures api.quiet ==>
      api.world == if JobDone(old(api.world), n, c) then Apply(old(api.world), c) else old(api.world)
  {
    ghost var w0 := api.world;
    var found := ReadSucceeded(api, n, c);
    ghost var w1 := api.world;
    if Succeeded(w0.jobs, n) { SucceededStays(w0, w1, n); }
    JobDeletionKeeps(w0, w1, w1, n, c, path);
    if found.Err? { return Some(found.error); }
    err := None;
    if found.value {
      var ok;
      ghost var mid;
      ok, mid := api.Submit(c, path);
      JobDeletionKeeps(w1, mid, api.world, n, c, path);
      OnwardExceptTransitive(w0, w1, api.world, n);
      if !ok { err := Some(Failed); }
    }
  }

  method DeleteBlockerPodFinalizer(api: ApiServer, n: Name, path: Path) returns (err: Option<Error>)
    requires api.Valid() && Cleaning(api.world, n, path)
    requires n !in api.world.jobs.pre && n !in api.world.jobs.post
    modifies api
    ensures api.Valid() && old(api.log) <= api.log
    ensures err != Some(AlreadyExists)
    ensures OnwardExcept(old(api.world), api.world, n) && ShieldsStay(old(api.world), api.world)
    ensures err.None? ==> !HasFinalizer(api.world, n) && n in api.world.books.owed
    ensures path.Deletion? ==> AllDrained(api.world)
    ensures api.quiet ==> err.None? && api.world == Apply(old(api.world), RemoveFinalizer(n))
  {
    ghost var w0 := api.world;
    var pod := api.GetPod(n);
    ghost var w1 := api.world;
    CleaningStays(w0, w1, n, path);
    ReleaseKeeps(w0, w1, w1, n, path);
    if pod.Err? { return if pod.error.NotFound? then None else Some(pod.error); }
    err := TakeFinalizerOff(api, n, path);
    OnwardExceptTransitive(w0, w1, api.world, n);
  }

  /** The update of the pod. */
  method TakeFinalizerOff(api: ApiServer, n: Name, path: Path) returns (err: Option<Error>)
    requires api.Valid() && Cleaning(api.world, n, path)
    requires n !in api.world.jobs.pre && n !in api.world.jobs.post
    modifies api
    ensures api.Valid() && old(api.log) <= api.log
    ensures err != Some(AlreadyExists)
    ensures OnwardExcept(old(api.world), api.world, n) && ShieldsStay(old(api.world), api.world)
    ensures err.None? ==> !HasFinalizer(api.world, n) && n in api.world.books.owed
    ensures path.Deletion? ==> AllDrained(api.world)
    ensures api.quiet ==> err.None? && api.world == Apply(old(api.world), RemoveFinalizer(n))
  {
    var ok;
    ghost var mid;
    ok, mid := api.Submit(RemoveFinalizer(n), path);
    ReleaseKeeps(old(api.world), mid, api.world, n, path);
    err := if ok then None else Some(Failed);
  }

  lemma ReleaseKeeps(w: World, mid: World, w': World, n: Name, path: Path)
    requires Inv(w) && Calm(w, mid) && (w' == mid || w' == Apply(mid, RemoveFinalizer(n)))
    requires Cleaning(w, n, path)
    ensures OnwardExcept(w, w', n) && ShieldsStay(w, w')
    ensures path.Deletion? ==> AllDrained(w')
    ensures w'.jobs.pre.Keys == w.jobs.pre.Keys && w'.jobs.post.Keys == w.jobs.post.Keys
  {
    CleaningStays(w, mid, n, path);
    OneNodeMoves(w, mid, w', RemoveFinalizer(n));
    ShieldsStayCalm(w, mid);
    assert mid.kube.pods[n] == w.kube.pods[n] && w.kube.last[n] == w.kube.pods[n].uid;
  }

  /** Success of the post job means that the node may be cleaned up. */
  lemma ReadyToCleanUp(w: World, n: Name, path: Path)
    requires Inv(w) && Under(w, path) && HasFinalizer(w, n) && PostDone(w, n) && (path.Deletion? ==> AllDrained(w))
    ensures Cleaning(w, n, path) && Succeeded(w.jobs, n)
  {
    assert PreInv(w.kube, w.jobs, n) && PostInv(w.kube, w.jobs, n);
  }

  function Cleaned(w: World, n: Name): World {
    Apply(Apply(Apply(w, DeletePost(n)), DeletePre(n)), RemoveFinalizer(n))
  }

  /** Post job, pre job, finalizer, in this order: whatever is left when a call fails, the next attempt finds
      the node in a state the protocol knows. */
  method CleanUp(api: ApiServer, n: Name, path: Path) returns (err: Option<Error>)
    requires api.Valid() && Cleaning(api.world, n, path) && Succeeded(api.world.jobs, n)
    modifies api
    ensures api.Valid() && old(api.log) <= api.log
    ensures err != Some(AlreadyExists)
    ensures OnwardExcept(old(api.world), api.world, n) && ShieldsStay(old(api.world), api.world)
    ensures err.None? ==> !HasFinalizer(api.world, n) && n in api.world.books.owed
    ensures path.Deletion? ==> AllDrained(api.world)
    ensures api.quiet ==> err.None? && api.world == Cleaned(old(api.world), n)
  {
    ghost var w0 := api.world;
    err := DeleteDrainJobs(api, n, path);
    if err.Some? { return; }
    ghost var w2 := api.world;
    err := DeleteBlockerPodFinalizer(api, n, path);
    OnwardExceptTransitive(w0, w2, api.world, n);
  }

  method DeleteDrainJobs(api: ApiServer, n: Name, path: Path) returns (err: Option<Error>)
    requires api.Valid() && Cleaning(api.world, n, path) && Succeeded(api.world.jobs, n)
    modifies api
    ensures api.Valid() && Cleaning(api.world, n, path) && old(api.log) <= api.log
    ensures err != Some(AlreadyExists)
    ensures OnwardExcept(old(api.world), api.world, n) && ShieldsStay(old(api.world), api.world)
    ensures err.None? ==> n !in api.world.jobs.pre && n !in api.world.jobs.post
    ensures api.quiet ==>
      err.None? && api.world == Apply(Apply(old(api.world), DeletePost(n)), DeletePre(n))
  {
    ghost var w0 := api.world;
    err := DeleteJob(api, n, DeletePost(n), path);
    if err.Some? { return; }
    ghost var w1 := api.world;
    err := DeleteJob(api, n, DeletePre(n), path);
    OnwardExceptTransitive(w0, w1, api.world, n);
  }

  /** One of them; that it is not there is as good. */
  method DeleteJob(api: ApiServer, n: Name, c: Call, path: Path) returns (err: Option<Error>)
    requires api.Valid() && Cleaning(api.world, n, path) && Succeeded(api.world.jobs, n)
    requires c == DeletePost(n) || (c == DeletePre(n) && n !in api.world.jobs.post)
    modifies api
    ensures api.Valid() && Cleaning(api.world, n, path) && old(api.log) <= api.log
    ensures err != Some(AlreadyExists)
    ensures OnwardExcept(old(api.world), api.world, n) && ShieldsStay(old(api.world), api.world)
    ensures Succeeded(api.world.jobs, n)
    ensures err.None? ==> n !in JobNames(api.world.jobs, c)
    ensures n !in old(api.world).jobs.post ==> n !in api.world.jobs.post
    ensures api.quiet ==> err.None? && api.world == Apply(old(api.world), c)
  {
    err := DeleteJobWithName(api, n, c, path);
    if err.Some? && err.value.NotFound? { err := None; }
  }

  // ----- Draining one node ----------------------------------------------------------------------------

  /** The in-memory resource is no newer than the stored one, and equal to it if it is as new. */
  ghost predicate Fresh(inst: ComputeNodeOpenStack, cr: Cr)
    reads inst
  {
    inst.version <= cr.version && inst.edits <= cr.edits && inst.InStep(cr)
  }

  /** Unless a user changed the spec since it had `edits` changes, the stored list is the given one. */
  ghost predicate Persisted(edits: int, cr: Cr, list: seq<NodeToDelete>) {
    edits <= cr.edits && (cr.edits == edits ==> cr.spec.nodesToDelete == list)
  }

  /** What draining node n leaves alone. */
  ghost predicate Aside(w: World, w': World, n: Name) {
    && (forall m :: m != n ==> KeptNode(w.kube, w'.kube, m))
    && (forall m :: HasFinalizer(w', m) ==> HasFinalizer(w, m))
    && (forall m :: Shielded(w, m) ==> Shielded(w', m))
    && w'.cr.status == w.cr.status && w'.cr.finalizer == w.cr.finalizer && w.cr.version <= w'.cr.version
    && w'.books.path == w.books.path
  }

  lemma OnwardIsAside(w: World, w': World, n: Name)
    requires Inv(w) && Onward(w, w')
    ensures Aside(w, w', n)
  {
    ShieldsStayOnward(w, w');
    forall m ensures HasFinalizer(w', m) ==> HasFinalizer(w, m) { assert KeptNode(w.kube, w'.kube, m); }
  }

  lemma ClearedIsAside(w: World, w': World, n: Name)
    requires OnwardExcept(w, w', n) && ShieldsStay(w, w')
    ensures Aside(w, w', n)
  {
    forall m | m != n ensures KeptNode(w.kube, w'.kube, m) { assert Kept(w, w', m); }
  }

  lemma AsideTransitive(a: World, b: World, c: World, n: Name)
    requires Aside(a, b, n) && Aside(b, c, n)
    ensures Aside(a, c, n)
  {
    forall m | m != n ensures KeptNode(a.kube, c.kube, m) {
      assert KeptNode(a.kube, b.kube, m) && KeptNode(b.kube, c.kube, m);
    }
  }

  /** A listed node that is protected is still there, on the same machine, and its copy does not show a taint that it
      does not have. */
  ghost predicate CopyHolds(w: World, item: NodeItem) {
    HasFinalizer(w, item.name) ==>
      && item.name in w.kube.nodes && w.kube.nodes[item.name].machine == item.node.machine
      && (item.node.tainted ==> Tainted(w, item.name))
  }

  /** Taint and post job of a node whose pre job succeeded. */
  method PostPhase(api: ApiServer, n: Name, copy: Node, path: Path) returns (r: Result<bool>, ghost mid: World)
    requires api.Valid() && Under(api.world, path) && HasFinalizer(api.world, n) && PreDone(api.world, n)
    requires copy.tainted ==> Tainted(api.world, n)
    requires path.Deletion? ==> AllPreDone(api.world)
    modifies api
    ensures api.Valid() && Onward(old(api.world), api.world) && old(api.log) <= api.log
    ensures r == Ok(true) ==> PostDone(api.world, n)
    ensures if r.Ok? then n in api.world.jobs.post && Tainted(api.world, n) else r.error.Failed?
    ensures api.quiet && n in old(api.world).kube.nodes ==>
      OnlyTaint(old(api.world), mid, n) && PostTriggered(mid, api.world, n) && AnswersPost(old(api.world), n, r)
  {
    ghost var w0 := api.world;
    var err := AddToBeRemovedTaint(api, n, copy, path);
    mid := api.world;
    assert KeptNode(w0.kube, mid.kube, n) && KeptJobs(w0.jobs, mid.jobs, n);
    if path.Deletion? { OnwardBarrier(w0, mid); }
    if err.Some? { return Err(err.value), mid; }
    r := EnsureNodePostDrain(api, n, path);
    OnwardTransitive(w0, mid, api.world);
    assert KeptNode(mid.kube, api.world.kube, n);
  }

  lemma OnwardBarrier(w: World, w': World)
    requires Onward(w, w')
    ensures AllPreDone(w) ==> AllPreDone(w')
    ensures AllDrained(w) ==> AllDrained(w')
  {
    forall m | HasFinalizer(w', m)
      ensures HasFinalizer(w, m) && (PreDone(w, m) ==> PreDone(w', m)) && (Drained(w, m) ==> Drained(w', m))
    {
      assert KeptNode(w.kube, w'.kube, m) && KeptJobs(w.jobs, w'.jobs, m);
    }
  }

  /** At most the taint of n was added. */
  ghost predicate OnlyTaint(w: World, w': World, n: Name) {
    w'.jobs == w.jobs && w'.cr == w.cr && w'.owned == w.owned && (w'.kube == w.kube || w'.kube == WithTaint(w.kube, n))
  }

  /** The drain job node n has come to is there and still runs: the pre job, or after its success the post job. */
  predicate Running(w: World, n: Name) {
    if PreDone(w, n) then n in w.jobs.post && !w.jobs.post[n].succeeded && w.jobs.post[n].active
    else n in w.jobs.pre && w.jobs.pre[n].active
  }

  /** It is still to be created. */
  predicate Missing(w: World, n: Name) { n !in w.jobs.pre || (PreDone(w, n) && n !in w.jobs.post) }

  /** It neither succeeded nor runs. */
  predicate Broken(w: World, n: Name) { !Running(w, n) && !Missing(w, n) && !PostDone(w, n) }

  datatype DrainStep = Waiting | Both

  /** What a quiet platform makes of the drain of n, wherever its jobs stand: both are done, one of them is waited for, one
      is created, or one failed. */
  ghost predicate StageRun(w: World, w': World, n: Name, r: Result<DrainStep>) {
    if PostDone(w, n) then r == Ok(Both) && OnlyTaint(w, w', n)
    else if Running(w, n) then r == Ok(Waiting) && OnlyTaint(w, w', n)
    else r.Err? && if Missing(w, n) then JobsMoved(w, w', n) else OnlyTaint(w, w', n)
  }

  /** The two drain jobs of a protected node whose machine is being deleted. */
  method RunDrainJobs(api: ApiServer, spec: Spec, item: NodeItem) returns (r: Result<DrainStep>)
    requires api.Valid() && Under(api.world, Regular) && HasFinalizer(api.world, item.name) && CopyHolds(api.world, item)
    requires MachineLeaving(api.world.kube, item.name)
    modifies api
    ensures api.Valid() && Onward(old(api.world), api.world) && old(api.log) <= api.log
    ensures HasFinalizer(api.world, item.name)
    ensures r == Ok(Both) ==> PostDone(api.world, item.name)
    ensures api.quiet ==> StageRun(old(api.world), api.world, item.name, r)
  {
    var n := item.name;
    ghost var w0 := api.world;
    var pre := EnsureNodePreDrain(api, spec, n, Regular);
    ghost var w1 := api.world;
    assert KeptNode(w0.kube, w1.kube, n);
    if api.quiet { StageAfterPre(w0, w1, n, pre); }
    if pre.Err? && pre.error != AlreadyExists { return Err(pre.error); }
    if pre != Ok(true) { return Ok(Waiting); }
    var post;
    ghost var mid;
    post, mid := PostPhase(api, n, item.node, Regular);
    assert KeptNode(w1.kube, api.world.kube, n);
    OnwardTransitive(w0, w1, api.world);
    if api.quiet { StageAfterPost(w0, w1, mid, api.world, n, post); }
    if post.Err? && post.error == AlreadyExists { assert false; }
    if post.Err? { return Err(post.error); }
    r := Ok(if post.value then Both else Waiting);
  }

  lemma StageAfterPre(w: World, w1: World, n: Name, pre: Result<bool>)
    requires Inv(w) && HasFinalizer(w, n) && PreTriggered(w, w1, n) && AnswersPre(w, n, pre)
    ensures match pre
      case Err(e) => StageRun(w, w1, n, Err(e))
      case Ok(done) => if done then PreDone(w, n) && OnlyTaint(w, w1, n) else StageRun(w, w1, n, Ok(Waiting))
  {
    assert PostInv(w.kube, w.jobs, n);
    StageMoves(w, w1, n);
  }

  lemma StageAfterPost(w: World, w1: World, mid: World, w': World, n: Name, post: Result<bool>)
    requires Inv(w) && HasFinalizer(w, n) && PreDone(w, n) && OnlyTaint(w, w1, n)
    requires OnlyTaint(w1, mid, n) && PostTriggered(mid, w', n) && AnswersPost(w1, n, post)
    ensures match post
      case Err(e) => StageRun(w, w', n, Err(e))
      case Ok(done) => StageRun(w, w', n, Ok(if done then Both else Waiting))
  {
    TaintTwice(w, w1, mid, n);
    StageMoves(w, w', n);
  }

  lemma TaintTwice(w: World, w1: World, w': World, n: Name)
    requires OnlyTaint(w, w1, n) && OnlyTaint(w1, w', n)
    ensures OnlyTaint(w, w', n)
  {
    assert WithTaint(WithTaint(w.kube, n), n) == WithTaint(w.kube, n);
  }

  /** One of n's drain jobs was created, and at most the taint added. */
  ghost predicate JobsMoved(w: World, w': World, n: Name) {
    HasFinalizer(w', n) && StagesLeft(w', n) < StagesLeft(w, n) && OnlyNode(w, w', n) && w'.cr == w.cr
  }

  /** Creating a drain job takes node n one stage further. */
  lemma StageMoves(w: World, w': World, n: Name)
    requires HasFinalizer(w, n) && Inv(w)
    ensures PreTriggered(w, w', n) && n !in w.jobs.pre ==> JobsMoved(w, w', n)
    ensures n in w.jobs.pre && n !in w.jobs.post ==>
      forall mid, w2 :: OnlyTaint(w, mid, n) && PostTriggered(mid, w2, n) ==> JobsMoved(w, w2, n)
  {
    assert PreInv(w.kube, w.jobs, n) && PostInv(w.kube, w.jobs, n);
    forall mid, w2 | OnlyTaint(w, mid, n) && PostTriggered(mid, w2, n) && n in w.jobs.pre && n !in w.jobs.post
      ensures JobsMoved(w, w2, n)
    {
      assert forall m :: m != n ==> SameDrain(w, w2, m);
    }
  }

  /** Takes the drained node off the list in the spec and stores the spec.  `written` says whether that took effect
      on the stored list, which a failing write may have done or not. */
  method UpdateNodesToDelete(api: ApiServer, inst: ComputeNodeOpenStack, n: Name)
    returns (err: Option<Error>, ghost written: bool)
    requires api.Valid() && Under(api.world, Regular) && Fresh(inst, api.world.cr) && n in api.world.books.owed
    modifies api, inst
    ensures api.Valid() && old(api.log) <= api.log && OnlySpec(old(api.world), api.world)
    ensures inst.status == old(inst.status)
    ensures err.None? ==>
      inst.spec == old(inst.spec).(nodesToDelete := Without(old(inst.spec).nodesToDelete, n))
      && Fresh(inst, api.world.cr) && written
    ensures Persisted(inst.edits, api.world.cr,
                      if written then Without(old(inst.spec).nodesToDelete, n) else old(inst.spec).nodesToDelete)
    ensures api.quiet && old(inst.version == api.world.cr.version) ==>
      err.None? && inst.version == api.world.cr.version && SameButSpec(old(api.world), api.world)
  {
    CalmRun(api.world, []);
    var list := inst.spec.nodesToDelete;
    var i := 0;
    while i < |list| && list[i].name != n
      invariant 0 <= i <= |list| && forall k :: 0 <= k < i ==> list[k].name != n
    {
      i := i + 1;
    }
    assert FirstIndex(list, n) == i;
    if i == |list| {
      assert OnlySpec(api.world, api.world);
      return None, true;
    }
    assert |list| == 1 ==> RemoveNode(list, i) == [];
    var rest := if |list| == 1 then [] else RemoveNode(list, i);
    err, written := StoreSpec(api, inst, inst.spec.(nodesToDelete := rest), Some(n));
  }

  /** Writes a changed spec; a successful answer brings the new version. */
  method StoreSpec(api: ApiServer, inst: ComputeNodeOpenStack, spec: Spec, dropped: Option<Name>)
    returns (err: Option<Error>, ghost written: bool)
    requires api.Valid() && Under(api.world, Regular) && Fresh(inst, api.world.cr) && spec == Rewritten(inst.spec, spec.rest, dropped)
    requires dropped.Some? ==> dropped.value in api.world.books.owed
    modifies api, inst
    ensures api.Valid() && old(api.log) <= api.log && OnlySpec(old(api.world), api.world)
    ensures inst.status == old(inst.status)
    ensures err.None? ==> inst.spec == spec && Fresh(inst, api.world.cr) && written
    ensures Persisted(inst.edits, api.world.cr,
                      if written then spec.nodesToDelete else old(inst.spec).nodesToDelete)
    ensures api.quiet && old(inst.version == api.world.cr.version) ==>
      err.None? && inst.version == api.world.cr.version && SameButSpec(old(api.world), api.world)
  {
    ghost var w0, spec0 := api.world, inst.spec;
    inst.spec := spec;
    err, written := WriteSpec(api, spec, dropped, inst.version, inst.edits, spec0);
    if err.None? { inst.version := inst.version + 1; }
  }

  /** The write itself, of a spec that was derived from spec0. */
  method WriteSpec(api: ApiServer, spec: Spec, dropped: Option<Name>, version: int, ghost edits: int, ghost spec0: Spec)
    returns (err: Option<Error>, ghost written: bool)
    requires api.Valid() && Under(api.world, Regular) && spec == Rewritten(spec0, spec.rest, dropped)
    requires dropped.Some? ==> dropped.value in api.world.books.owed
    requires version <= api.world.cr.version && edits <= api.world.cr.edits
    requires version == api.world.cr.version ==> edits == api.world.cr.edits
    requires edits == api.world.cr.edits ==> spec0 == api.world.cr.spec
    modifies api
    ensures api.Valid() && old(api.log) <= api.log && OnlySpec(old(api.world), api.world)
    ensures err.None? ==> written && version == old(api.world).cr.version
    ensures err.None? ==> api.world.cr == old(api.world).cr.(spec := spec, version := version + 1)
    ensures Persisted(edits, api.world.cr, if written then spec.nodesToDelete else spec0.nodesToDelete)
    ensures api.quiet && version == old(api.world).cr.version ==>
      err.None? && SameButSpec(old(api.world), api.world) && api.world.cr.version == version + 1
  {
    var c := UpdateSpec(spec, dropped);
    ghost var mid;
    err, mid := api.SubmitCr(c, Regular, version);
    written := Landed(mid, api.world, c, version);
    SpecWritten(old(api.world), mid, api.world, c, version, edits, spec0);
  }

  lemma SpecWritten(w: World, mid: World, w': World, c: Call, version: int, edits: int, spec: Spec)
    requires c.UpdateSpec? && version <= w.cr.version && edits <= w.cr.edits
    requires (version == w.cr.version ==> edits == w.cr.edits) && (edits == w.cr.edits ==> spec == w.cr.spec)
    requires Calm(w, mid) && (w' == mid || Landed(mid, w', c, version))
    ensures OnlySpec(w, w')
    ensures Persisted(edits, w'.cr,
                      if Landed(mid, w', c, version) then c.spec.nodesToDelete else spec.nodesToDelete)
  {
  }

  ghost predicate SameButSpec(w: World, w': World) {
    w'.kube == w.kube && w'.jobs == w.jobs && w'.cr.status == w.cr.status && w'.cr.deleted == w.cr.deleted
    && w'.cr.finalizer == w.cr.finalizer
  }

  /** Only the environment and one write of the spec. */
  ghost predicate OnlySpec(w: World, w': World) {
    exists mid :: Calm(w, mid) && w'.kube == mid.kube && w'.jobs == mid.jobs
                  && w'.cr.status == mid.cr.status && w'.cr.finalizer == mid.cr.finalizer
                  && mid.cr.version <= w'.cr.version
                  && w'.books.path == mid.books.path
  }
}
