/** The walk over the nodes of a role: blocker pods for new nodes, drains for leaving ones, and the node list in
    the status. */
module NodeSync {
  import opened Model
  import opened Protocol
  import opened Api
  import opened NodesToDelete
  import opened Drain

  /** The i-th entry is the first one of node n. */
  ghost predicate FirstEntry(nodes: seq<NodeStatus>, n: Name, i: int) {
    0 <= i < |nodes| && nodes[i].name == n && forall j :: 0 <= j < i ==> nodes[j].name != n
  }

  /** The status of the first entry for the node; None if there is none. */
  method GetPreviousNodeStatus(nodes: seq<NodeStatus>, n: Name) returns (phase: Phase)
    ensures forall i :: FirstEntry(nodes, n, i) ==> phase == nodes[i].status
    ensures (forall s :: s in nodes ==> s.name != n) ==> phase == NoPhase
    ensures DistinctNames(nodes) ==> forall p :: NodeStatus(n, p) in nodes ==> phase == p
    ensures phase != NoPhase <==> Tracked(nodes, n)
  {
    for i := 0 to |nodes|
      invariant forall j :: 0 <= j < i ==> nodes[j].name != n
    {
      if nodes[i].name == n {
        assert FirstEntry(nodes, n, i);
        return nodes[i].status;
      }
    }
    phase := NoPhase;
  }

  /** The status has node n, in a phase. */
  ghost predicate Tracked(nodes: seq<NodeStatus>, n: Name) {
    exists i :: FirstEntry(nodes, n, i) && nodes[i].status != NoPhase
  }

  lemma TrackedIsListed(nodes: seq<NodeStatus>, n: Name)
    requires Tracked(nodes, n)
    ensures exists s :: s in nodes && s.name == n && s.status != NoPhase
  {
    var i :| FirstEntry(nodes, n, i) && nodes[i].status != NoPhase;
    assert nodes[i] in nodes;
  }

  /** In a list without doubles, which a persisted one is, to be tracked is to be on it. */
  lemma ListedIsTracked(nodes: seq<NodeStatus>, n: Name)
    requires DistinctNames(nodes)
    ensures Tracked(nodes, n) <==> exists s :: s in nodes && s.name == n && s.status != NoPhase
  {
    if Tracked(nodes, n) { TrackedIsListed(nodes, n); }
    forall s | s in nodes && s.name == n && s.status != NoPhase ensures Tracked(nodes, n) {
      var i :| 0 <= i < |nodes| && nodes[i] == s;
      assert FirstEntry(nodes, n, i);
    }
  }

  /** Node n is tracked and its machine is being deleted. */
  ghost predicate Leaving(w: World, nodes: seq<NodeStatus>, n: Name) {
    Tracked(nodes, n) && MachineLeaving(w.kube, n)
  }

  /** A leaving node that its blocker pod still protects. */
  ghost predicate Draining(w: World, nodes: seq<NodeStatus>, n: Name) { Leaving(w, nodes, n) && HasFinalizer(w, n) }

  /** Node n lost its protection. */
  ghost predicate Released(w: World, w': World, n: Name) { HasFinalizer(w, n) && !HasFinalizer(w', n) }

  /** What happens to a node's entry in the status. */
  datatype Outcome = Track(entry: NodeStatus) | Drop

  /** The entry a node gets on a quiet platform, if no error is reported: ready and not ready nodes get one; of the others
      those whose drain is waiting for a job. */
  ghost function OutcomeFor(w: World, tracked: seq<NodeStatus>, item: NodeItem): Outcome {
    var phase := PhaseOf(w.kube, item.node);
    if phase == Ready || phase == NotReady then Track(NodeStatus(item.name, phase))
    else if Waits(w, tracked, item.name) then Track(NodeStatus(item.name, SchedulingDisabled))
    else Drop
  }

  /** The drain of node n has begun, or is about to, and its jobs are not done. */
  ghost predicate Waits(w: World, tracked: seq<NodeStatus>, n: Name) { Draining(w, tracked, n) && !PostDone(w, n) }

  /** Whether a node is to be protected after a clean quiet walk.  A ready or not ready one: exactly if it was before, or
      if it is new to the status and no blocker pod carries its name.  Any other: exactly if it was before and its drain
      is not completed, which it is if it is tracked, its machine is being deleted and both its jobs have succeeded. */
  ghost predicate ToBeGuarded(w: World, tracked: seq<NodeStatus>, item: NodeItem) {
    if PhaseOf(w.kube, item.node) in {Ready, NotReady}
    then HasFinalizer(w, item.name) || (!Tracked(tracked, item.name) && item.name !in w.kube.pods)
    else HasFinalizer(w, item.name) && !(Leaving(w, tracked, item.name) && PostDone(w, item.name))
  }

  ghost predicate GuardedAfter(w: World, w': World, tracked: seq<NodeStatus>, item: NodeItem) {
    HasFinalizer(w', item.name) <==> ToBeGuarded(w, tracked, item)
  }

  /** The lookups for node n do not end in a panic: its machine is looked up through the annotation unless it is
      cordoned, and if it is tracked the machine has to be there as well. */
  ghost predicate NodeKnown(k: Kube, tracked: seq<NodeStatus>, n: Name) {
    && n in k.nodes && (k.nodes[n].annotated || k.nodes[n].unschedulable)
    && (Tracked(tracked, n) ==> MachineKnown(k, n))
  }

  /** What the drain of a protected node does on a quiet platform, wherever its jobs stand: with both jobs done the node
      is released and its jobs are gone; a running job is waited for; a job that is missing is created, and one that
      failed left alone, and both are errors. */
  ghost predicate QuietDrain(w: World, w': World, n: Name, ok: bool) {
    && OnlyNode(w, w', n)
    && (ok <==> PostDone(w, n) || Running(w, n))
    && (PostDone(w, n) ==> !HasFinalizer(w', n) && n !in w'.jobs.pre && n !in w'.jobs.post)
    && (!PostDone(w, n) && !Missing(w, n) ==> SameDrain(w, w', n))
    && (Missing(w, n) ==> HasFinalizer(w', n) && StagesLeft(w', n) < StagesLeft(w, n))
  }

  lemma CleanedIsLast(w: World, mid: World, n: Name)
    requires Inv(w) && HasFinalizer(w, n) && PostDone(w, n) && OnlyTaint(w, mid, n)
    ensures QuietDrain(w, Cleaned(mid, n), n, true)
  {
    assert PostInv(w.kube, w.jobs, n);
    var a := Apply(mid, DeletePost(n));
    var b := Apply(a, DeletePre(n));
    var w' := Apply(b, RemoveFinalizer(n));
    forall m | m != n ensures SameDrain(w, w', m) {
      assert SameDrain(w, mid, m) && SameDrain(mid, a, m) && SameDrain(a, b, m) && SameDrain(b, w', m);
    }
  }

  lemma SpecAside(w: World, w': World, n: Name)
    requires Inv(w) && OnlySpec(w, w')
    ensures Aside(w, w', n)
    ensures !HasFinalizer(w, n) ==> !HasFinalizer(w', n)
  {
    var mid :| Calm(w, mid) && w'.kube == mid.kube && w'.jobs == mid.jobs
               && w'.cr.status == mid.cr.status && w'.cr.finalizer == mid.cr.finalizer
               && mid.cr.version <= w'.cr.version
               && w'.books.path == mid.books.path;
    CalmIsOnward(w, mid);
    OnwardIsAside(w, mid, n);
  }

  lemma QuietSpec(w: World, w1: World, w': World, n: Name, ok: bool)
    requires QuietDrain(w, w1, n, ok) && SameButSpec(w1, w')
    ensures QuietDrain(w, w', n, ok)
  {
    forall m | m != n ensures SameDrain(w, w', m) { assert SameDrain(w, w1, m); }
  }

  /** Whether a node whose scheduling is disabled is to be drained: it is tracked, its machine is being deleted,
      and its blocker pod still has the finalizer. */
  method MayDrain(api: ApiServer, nodes: seq<NodeStatus>, n: Name) returns (r: Result<bool>)
    requires api.Valid()
    modifies api
    ensures api.Valid() && old(api.log) <= api.log && Calm(old(api.world), api.world)
    ensures r == Ok(true) ==>
      HasFinalizer(api.world, n) && HasFinalizer(old(api.world), n) && MachineLeaving(api.world.kube, n)
    ensures r.Ok? && Draining(old(api.world), nodes, n) ==> r.value
    ensures api.quiet && NodeKnown(old(api.world).kube, nodes, n) ==>
      api.world == old(api.world) && r.Ok? && (r.value <==> Draining(api.world, nodes, n))
  {
    ghost var w0 := api.world;
    CalmRun(w0, []);
    var previous := GetPreviousNodeStatus(nodes, n);
    if previous == NoPhase { return Ok(false); }
    var leaving := IsMachineBeingDeleted(api, n);
    ghost var w1 := api.world;
    assert KeptNode(w0.kube, w1.kube, n);
    if leaving.Err? || !leaving.value { return leaving; }
    var gone := IsBlockerPodFinalizerDeleted(api, n);
    CalmTransitive(w0, w1, api.world);
    assert KeptNode(w1.kube, api.world.kube, n) && KeptNode(w0.kube, api.world.kube, n);
    r := if gone.Err? then gone else Ok(!gone.value);
  }

  /** What the drain of node n did to the in-memory spec. */
  ghost predicate SpecAfter(spec: Spec, spec': Spec, n: Name, finished: bool) {
    spec' == spec.(nodesToDelete := if finished then Without(spec.nodesToDelete, n) else spec.nodesToDelete)
  }

  /** What handling a node does on a quiet platform. */
  ghost predicate QuietHandled(w: World, w': World, nodes: seq<NodeStatus>, n: Name, ok: bool) {
    if Draining(w, nodes, n) then QuietDrain(w, w', n, ok)
    else ok && OnlyNode(w, w', n) && w'.jobs == w.jobs && (MachineLeaving(w.kube, n) ==> w' == w)
  }

  ghost predicate DrainedOrSame(w: World, w': World, nodes: seq<NodeStatus>, n: Name, ok: bool) {
    if Draining(w, nodes, n) then QuietDrain(w, w', n, ok) else ok && w' == w
  }

  lemma DrainIsHandling(w: World, w': World, nodes: seq<NodeStatus>, n: Name, ok: bool)
    ensures DrainedOrSame(w, w', nodes, n, ok) ==> QuietHandled(w, w', nodes, n, ok)
  {
  }

  /** What a run did to the stored list, unless a user changed the spec meanwhile. */
  ghost predicate ListAfter(edits: int, cr: Cr, list: seq<NodeToDelete>, n: Name, written: bool) {
    Persisted(edits, cr, if written then Without(list, n) else list)
  }

  lemma ListStays(edits: int, spec: Spec, cr: Cr, cr': Cr, n: Name)
    requires edits <= cr.edits && (edits == cr.edits ==> spec == cr.spec) && CalmCr(cr, cr')
    ensures ListAfter(edits, cr', spec.nodesToDelete, n, false)
  {
  }

  /** The drain of a protected node whose machine is being deleted.  `written` says whether the node's entry went off
      the stored list, which happens in the run that releases the node, or never. */
  method DrainProtected(api: ApiServer, inst: ComputeNodeOpenStack, item: NodeItem)
    returns (r: Result<Outcome>, finished: bool, ghost written: bool)
    requires api.Valid() && Under(api.world, Regular) && Fresh(inst, api.world.cr) && CopyHolds(api.world, item)
    requires HasFinalizer(api.world, item.name) && MachineLeaving(api.world.kube, item.name)
    modifies api, inst
    ensures api.Valid() && old(api.log) <= api.log && Aside(old(api.world), api.world, item.name)
    ensures inst.status == old(inst.status)
    ensures r.Ok? ==> Fresh(inst, api.world.cr) && SpecAfter(old(inst.spec), inst.spec, item.name, finished)
    ensures r.Ok? ==> (finished <==> !HasFinalizer(api.world, item.name))
    ensures r.Ok? ==>
      r.value == if HasFinalizer(api.world, item.name) then Track(NodeStatus(item.name, SchedulingDisabled)) else Drop
    ensures ListAfter(inst.edits, api.world.cr, old(inst.spec).nodesToDelete, item.name, written)
    ensures (written ==> !HasFinalizer(api.world, item.name)) && (r.Ok? ==> written == finished)
    ensures QuietStart(api, old(api.world), old(inst.version)) ==>
      QuietDrain(old(api.world), api.world, item.name, r.Ok?)
      && (r.Ok? ==> inst.version == api.world.cr.version)
  {
    var n := item.name;
    ghost var w0 := api.world;
    var step := DrainStage(api, inst.spec, item);
    ghost var w1 := api.world;
    ListStays(inst.edits, inst.spec, w0.cr, w1.cr, n);
    finished, written := false, false;
    if step.Err? { return Err(step.error), false, false; }
    if step.value.Waiting? { return Ok(Track(NodeStatus(n, SchedulingDisabled))), false, false; }
    var err;
    err, written := FinishDrain(api, inst, n);
    AsideTransitive(w0, w1, api.world, n);
    if api.quiet && PostDone(w0, n) { LastStage(w0, w1, api.world, n); }
    r := if err.Some? then Err(err.value) else Ok(Drop);
    finished := err.None?;
  }

  /** The drain jobs, as far as they get. */
  method DrainStage(api: ApiServer, spec: Spec, item: NodeItem) returns (step: Result<DrainStep>)
    requires api.Valid() && Under(api.world, Regular) && CopyHolds(api.world, item)
    requires HasFinalizer(api.world, item.name) && MachineLeaving(api.world.kube, item.name)
    modifies api
    ensures api.Valid() && old(api.log) <= api.log && Aside(old(api.world), api.world, item.name)
    ensures CalmCr(old(api.world).cr, api.world.cr) && HasFinalizer(api.world, item.name)
    ensures step == Ok(Both) ==> PostDone(api.world, item.name)
    ensures api.quiet ==>
      if step == Ok(Both) then PostDone(old(api.world), item.name) && OnlyTaint(old(api.world), api.world, item.name)
      else QuietDrain(old(api.world), api.world, item.name, step.Ok?) && api.world.cr == old(api.world).cr
  {
    ghost var w0 := api.world;
    step := RunDrainJobs(api, spec, item);
    OnwardIsAside(w0, api.world, item.name);
    if api.quiet { StageIsQuiet(w0, api.world, item.name, step); }
  }

  /** A quiet platform, and an up-to-date resource. */
  ghost predicate QuietStart(api: ApiServer, w: World, version: int) { api.quiet && version == w.cr.version }

  lemma StageIsQuiet(w: World, w1: World, n: Name, step: Result<DrainStep>)
    requires Inv(w) && HasFinalizer(w, n) && StageRun(w, w1, n, step)
    ensures if step == Ok(Both) then PostDone(w, n) && OnlyTaint(w, w1, n) else QuietDrain(w, w1, n, step.Ok?) && w1.cr == w.cr
  {
    assert PostInv(w.kube, w.jobs, n);
    if OnlyTaint(w, w1, n) { assert forall m :: SameDrain(w, w1, m); }
  }

  lemma LastStage(w: World, w1: World, w': World, n: Name)
    requires Inv(w) && HasFinalizer(w, n) && PostDone(w, n) && OnlyTaint(w, w1, n)
    ensures SameButSpec(Cleaned(w1, n), w') ==> QuietDrain(w, w', n, true)
  {
    CleanedIsLast(w, w1, n);
    if SameButSpec(Cleaned(w1, n), w') { QuietSpec(w, Cleaned(w1, n), w', n, true); }
  }

  /** Cleanup and the update of the list, after both jobs of n succeeded. */
  method FinishDrain(api: ApiServer, inst: ComputeNodeOpenStack, n: Name)
    returns (err: Option<Error>, ghost written: bool)
    requires api.Valid() && Under(api.world, Regular) && Fresh(inst, api.world.cr) && HasFinalizer(api.world, n) && PostDone(api.world, n)
    modifies api, inst
    ensures api.Valid() && old(api.log) <= api.log && Aside(old(api.world), api.world, n)
    ensures inst.status == old(inst.status)
    ensures err.None? ==> Fresh(inst, api.world.cr) && SpecAfter(old(inst.spec), inst.spec, n, true)
    ensures err.None? ==> !HasFinalizer(api.world, n) && written
    ensures ListAfter(inst.edits, api.world.cr, old(inst.spec).nodesToDelete, n, written)
    ensures written ==> !HasFinalizer(api.world, n)
    ensures api.quiet && old(inst.version == api.world.cr.version) ==>
      err.None? && inst.version == api.world.cr.version && SameButSpec(Cleaned(old(api.world), n), api.world)
  {
    ghost var w0 := api.world;
    err := ReleaseNode(api, n);
    ghost var w1 := api.world;
    ListStays(inst.edits, inst.spec, w0.cr, w1.cr, n);
    written := false;
    if err.Some? { return; }
    err, written := DropEntry(api, inst, n, w0);
  }

  /** The cleanup. */
  method ReleaseNode(api: ApiServer, n: Name) returns (err: Option<Error>)
    requires api.Valid() && Under(api.world, Regular) && HasFinalizer(api.world, n) && PostDone(api.world, n)
    modifies api
    ensures api.Valid() && old(api.log) <= api.log && Aside(old(api.world), api.world, n)
    ensures CalmCr(old(api.world).cr, api.world.cr)
    ensures err.None? ==> !HasFinalizer(api.world, n) && n in api.world.books.owed
    ensures api.quiet ==> err.None? && api.world == Cleaned(old(api.world), n)
  {
    ghost var w0 := api.world;
    ReadyToCleanUp(w0, n, Regular);
    err := CleanUp(api, n, Regular);
    ClearedIsAside(w0, api.world, n);
  }

  /** The update of the list, for a node that was just released; w0 is the world before its cleanup. */
  method DropEntry(api: ApiServer, inst: ComputeNodeOpenStack, n: Name, ghost w0: World)
    returns (err: Option<Error>, ghost written: bool)
    requires api.Valid() && Under(api.world, Regular) && Fresh(inst, api.world.cr) && n in api.world.books.owed
    requires Aside(w0, api.world, n) && !HasFinalizer(api.world, n)
    modifies api, inst
    ensures api.Valid() && old(api.log) <= api.log && Aside(w0, api.world, n) && !HasFinalizer(api.world, n)
    ensures inst.status == old(inst.status)
    ensures err.None? ==> Fresh(inst, api.world.cr) && SpecAfter(old(inst.spec), inst.spec, n, true) && written
    ensures ListAfter(inst.edits, api.world.cr, old(inst.spec).nodesToDelete, n, written)
    ensures api.quiet && old(inst.version == api.world.cr.version) ==>
      err.None? && inst.version == api.world.cr.version && SameButSpec(old(api.world), api.world)
  {
    ghost var w1 := api.world;
    err, written := UpdateNodesToDelete(api, inst, n);
    ReleasedAside(w0, w1, api.world, n);
  }

  lemma ReleasedAside(w: World, w1: World, w': World, n: Name)
    requires Inv(w1) && Aside(w, w1, n) && OnlySpec(w1, w') && !HasFinalizer(w1, n)
    ensures Aside(w, w', n) && !HasFinalizer(w', n)
  {
    SpecAside(w1, w', n);
    AsideTransitive(w, w1, w', n);
  }

  /** The branch for a node whose scheduling is disabled. */
  method DrainNode(api: ApiServer, inst: ComputeNodeOpenStack, item: NodeItem)
    returns (r: Result<Outcome>, finished: bool, ghost written: bool)
    requires api.Valid() && Under(api.world, Regular) && Fresh(inst, api.world.cr) && CopyHolds(api.world, item)
    modifies api, inst
    ensures api.Valid() && old(api.log) <= api.log && Aside(old(api.world), api.world, item.name)
    ensures inst.status == old(inst.status)
    ensures r.Ok? ==> Fresh(inst, api.world.cr) && SpecAfter(old(inst.spec), inst.spec, item.name, finished)
    ensures r.Ok? ==> (finished <==> Released(old(api.world), api.world, item.name))
    ensures r.Ok? && r.value.Track? ==>
      r.value.entry == NodeStatus(item.name, SchedulingDisabled) && HasFinalizer(api.world, item.name)
    ensures ListAfter(inst.edits, api.world.cr, old(inst.spec).nodesToDelete, item.name, written)
    ensures (written ==> Released(old(api.world), api.world, item.name)) && (r.Ok? ==> written == finished)
    ensures r.Ok? && Draining(old(api.world), old(inst.status).nodes, item.name) && HasFinalizer(api.world, item.name) ==>
      r.value == Track(NodeStatus(item.name, SchedulingDisabled))
    ensures r.Ok? && !HasFinalizer(api.world, item.name) ==> r.value == Drop
    ensures QuietStart(api, old(api.world), old(inst.version)) && NodeKnown(old(api.world).kube, old(inst.status).nodes, item.name) ==>
      (r.Ok? ==> inst.version == api.world.cr.version
                 && (r.value.Track? <==> Waits(old(api.world), old(inst.status).nodes, item.name)))
      && DrainedOrSame(old(api.world), api.world, old(inst.status).nodes, item.name, r.Ok?)
  {
    ghost var w0 := api.world;
    var may := MayDrain(api, inst.status.nodes, item.name);
    ghost var w1 := api.world;
    CalmIsOnward(w0, w1);
    OnwardIsAside(w0, w1, item.name);
    assert KeptNode(w0.kube, w1.kube, item.name);
    ListStays(inst.edits, inst.spec, w0.cr, w1.cr, item.name);
    if may.Err? { return Err(may.error), false, false; }
    if !may.value { return Ok(Drop), false, false; }
    r, finished, written := DrainProtected(api, inst, item);
    AsideTransitive(w0, w1, api.world, item.name);
  }

  // ----- One node, whatever its phase -----------------------------------------------------------------

  /** The blocker pod of a node that is not tracked yet. */
  method EnsureBlockerPod(api: ApiServer, inst: ComputeNodeOpenStack, n: Name) returns (err: Option<Error>)
    requires api.Valid() && Under(api.world, Regular) && Fresh(inst, api.world.cr) && AllShielded(api.world, inst.status.nodes)
    modifies api
    ensures api.Valid() && old(api.log) <= api.log && Beside(old(api.world), api.world, n)
    ensures Fresh(inst, api.world.cr) && CalmCr(old(api.world).cr, api.world.cr)
    ensures err.None? ==> Shielded(api.world, n)
    ensures !Released(old(api.world), api.world, n)
    ensures api.quiet ==> err.None? && api.world == BlockerIfNew(old(api.world), inst.status.nodes, n)
  {
    ghost var w0 := api.world;
    CalmRun(w0, []);
    var previous := GetPreviousNodeStatus(inst.status.nodes, n);
    if previous != NoPhase {
      TrackedIsListed(inst.status.nodes, n);
      return None;
    }
    err := CreateBlockerPod(api, n);
  }

  ghost function BlockerIfNew(w: World, tracked: seq<NodeStatus>, n: Name): World {
    if !Tracked(tracked, n) then Apply(w, CreateBlocker(n)) else w
  }

  /** A quiet step that left node n protected if it was, or if it is new. */
  ghost predicate QuietlyGuarded(w: World, w': World, tracked: seq<NodeStatus>, n: Name) {
    && QuietHandled(w, w', tracked, n, true)
    && (HasFinalizer(w', n) <==> HasFinalizer(w, n) || (!Tracked(tracked, n) && n !in w.kube.pods))
  }

  lemma BlockerIsQuiet(w: World, tracked: seq<NodeStatus>, n: Name)
    requires Inv(w) && !MachineLeaving(w.kube, n)
    ensures QuietlyGuarded(w, BlockerIfNew(w, tracked, n), tracked, n)
  {
    var w' := BlockerIfNew(w, tracked, n);
    assert forall m :: m != n ==> SameDrain(w, w', m);
  }

  /** What handling node n did to the cluster, and what the walk is told. */
  ghost predicate Handled(w: World, w': World, n: Name, r: Result<Outcome>, finished: bool) {
    && Beside(w, w', n)
    && (r.Ok? ==> (finished <==> Released(w, w', n)))
    && (r.Ok? && r.value.Track? ==> r.value.entry.name == n && Shielded(w', n))
  }

  /** On every platform: a node that was to be drained and is still protected afterwards stays on the list as
      SchedulingDisabled.  Only if it is not cordoned and the lookup of its machine fails is it taken for what its Ready
      condition says. */
  ghost predicate NotForgotten(flaky: set<Name>, w: World, w': World, tracked: seq<NodeStatus>, item: NodeItem,
                               r: Result<Outcome>) {
    r.Ok? && Draining(w, tracked, item.name) && HasFinalizer(w', item.name) ==>
      || r.value == Track(NodeStatus(item.name, SchedulingDisabled))
      || (item.node.machine in flaky && !item.node.unschedulable && r.value == ByCondition(item))
  }

  /** The entry as the phase asks for it. */
  ghost predicate FromPhase(w: World, w': World, tracked: seq<NodeStatus>, n: Name, phase: Phase, entry: Outcome) {
    match phase
    case SchedulingDisabled =>
      Draining(w, tracked, n) && HasFinalizer(w', n) ==> entry == Track(NodeStatus(n, SchedulingDisabled))
    case NoPhase => entry == Drop
    case _ => entry == Track(NodeStatus(n, phase))
  }

  lemma NoneForgotten(flaky: set<Name>, w: World, w1: World, w': World, tracked: seq<NodeStatus>, item: NodeItem,
                      phase: Phase, entry: Outcome)
    requires Calm(w, w1) && CopyHolds(w1, item) && FromPhase(w1, w', tracked, item.name, phase, entry)
    requires item.node.unschedulable ==> phase == SchedulingDisabled
    requires phase != SchedulingDisabled ==>
      && (phase == Ready <==> item.node.ready.Up?) && (phase == NotReady <==> item.node.ready.Down?)
      && (item.node.machine !in flaky ==> !MachineAway(w1.kube, item.node.machine))
    ensures NotForgotten(flaky, w, w', tracked, item, Ok(entry))
  {
    assert KeptNode(w.kube, w1.kube, item.name);
  }

  function ByCondition(item: NodeItem): Outcome {
    match item.node.ready
    case Up => Track(NodeStatus(item.name, Ready))
    case Down => Track(NodeStatus(item.name, NotReady))
    case Unreported => Drop
  }

  /** What it did to the stored list: the entry goes only in the run that releases the node, and with certainty only
      if that run ends well. */
  ghost predicate ListHandled(edits: int, w: World, w': World, spec: Spec, n: Name, ok: bool, finished: bool,
                              written: bool) {
    && ListAfter(edits, w'.cr, spec.nodesToDelete, n, written)
    && (written ==> Released(w, w', n)) && (ok ==> written == finished)
  }

  ghost predicate QuietlyHandled(w: World, w': World, version: int, tracked: seq<NodeStatus>, item: NodeItem,
                                 r: Result<Outcome>) {
    && (r.Ok? ==> r.value == OutcomeFor(w, tracked, item) && version == w'.cr.version)
    && QuietHandled(w, w', tracked, item.name, r.Ok?)
    && (r.Ok? ==> GuardedAfter(w, w', tracked, item))
  }

  method HandleNode(api: ApiServer, inst: ComputeNodeOpenStack, item: NodeItem)
    returns (r: Result<Outcome>, finished: bool, ghost written: bool)
    requires api.Valid() && Under(api.world, Regular) && Fresh(inst, api.world.cr) && CopyHolds(api.world, item)
    requires AllShielded(api.world, inst.status.nodes)
    modifies api, inst
    ensures api.Valid() && old(api.log) <= api.log && inst.status == old(inst.status)
    ensures r.Ok? ==> Fresh(inst, api.world.cr) && SpecAfter(old(inst.spec), inst.spec, item.name, finished)
    ensures Handled(old(api.world), api.world, item.name, r, finished)
    ensures ListHandled(inst.edits, old(api.world), api.world, old(inst.spec), item.name, r.Ok?, finished, written)
    ensures NotForgotten(api.flaky, old(api.world), api.world, old(inst.status).nodes, item, r)
    ensures QuietStart(api, old(api.world), old(inst.version)) && CopyKnown(old(api.world), old(inst.status).nodes, item) ==>
      QuietlyHandled(old(api.world), api.world, inst.version, old(inst.status).nodes, item, r)
  {
    finished, written := false, false;
    ghost var w0 := api.world;
    var phase := GetNodeStatus(api, item.node);
    ghost var w1 := api.world;
    PhaseRead(w0, w1, item);
    ListStays(inst.edits, inst.spec, w0.cr, w1.cr, item.name);
    if phase.Err? { return Err(phase.error), false, false; }
    r, finished, written := HandlePhase(api, inst, item, phase.value);
    BesideAfterCalm(w0, w1, api.world, item.name);
    if r.Ok? { NoneForgotten(api.flaky, w0, w1, api.world, inst.status.nodes, item, phase.value, r.value); }
  }

  /** The branches for the phases. */
  method HandlePhase(api: ApiServer, inst: ComputeNodeOpenStack, item: NodeItem, phase: Phase)
    returns (r: Result<Outcome>, finished: bool, ghost written: bool)
    requires api.Valid() && Under(api.world, Regular) && Fresh(inst, api.world.cr) && CopyHolds(api.world, item)
    requires AllShielded(api.world, inst.status.nodes)
    modifies api, inst
    ensures api.Valid() && old(api.log) <= api.log && inst.status == old(inst.status)
    ensures r.Ok? ==> Fresh(inst, api.world.cr) && SpecAfter(old(inst.spec), inst.spec, item.name, finished)
    ensures Handled(old(api.world), api.world, item.name, r, finished)
    ensures ListHandled(inst.edits, old(api.world), api.world, old(inst.spec), item.name, r.Ok?, finished, written)
    ensures r.Ok? ==> FromPhase(old(api.world), api.world, old(inst.status).nodes, item.name, phase, r.value)
    ensures QuietStart(api, old(api.world), old(inst.version)) && CopyKnown(old(api.world), old(inst.status).nodes, item)
            && phase == PhaseOf(old(api.world).kube, item.node) ==>
      QuietlyHandled(old(api.world), api.world, inst.version, old(inst.status).nodes, item, r)
  {
    ghost var w0, nodes := api.world, inst.status.nodes;
    CalmRun(w0, []);
    finished, written := false, false;
    ListStays(inst.edits, inst.spec, w0.cr, w0.cr, item.name);
    match phase {
      case Ready | NotReady =>
        r := HandlePresent(api, inst, item.name, phase);
      case SchedulingDisabled =>
        r, finished, written := DrainNode(api, inst, item);
        DrainIsHandling(w0, api.world, nodes, item.name, r.Ok?);
      case NoPhase =>
        r := Ok(Drop);
    }
  }

  lemma PhaseRead(w: World, w': World, item: NodeItem)
    requires Inv(w) && Calm(w, w')
    ensures Aside(w, w', item.name) && (CopyHolds(w, item) ==> CopyHolds(w', item))
    ensures HasFinalizer(w, item.name) <==> HasFinalizer(w', item.name)
  {
    CalmIsOnward(w, w');
    OnwardIsAside(w, w', item.name);
    assert KeptNode(w.kube, w'.kube, item.name);
  }

  /** The copy of a node agrees with the node apart from the taint, and the lookups for it do not end in a panic. */
  ghost predicate CopyKnown(w: World, tracked: seq<NodeStatus>, item: NodeItem) {
    NodeKnown(w.kube, tracked, item.name) && SameNode(w.kube.nodes[item.name], item.node)
  }

  /** A node that is ready or not ready: it gets a blocker pod when it is new, and is tracked. */
  method HandlePresent(api: ApiServer, inst: ComputeNodeOpenStack, n: Name, phase: Phase) returns (r: Result<Outcome>)
    requires api.Valid() && Under(api.world, Regular) && Fresh(inst, api.world.cr) && AllShielded(api.world, inst.status.nodes)
    modifies api
    ensures api.Valid() && old(api.log) <= api.log && Beside(old(api.world), api.world, n)
    ensures Fresh(inst, api.world.cr) && !Released(old(api.world), api.world, n)
    ensures CalmCr(old(api.world).cr, api.world.cr)
    ensures r.Ok? ==> r.value == Track(NodeStatus(n, phase)) && Shielded(api.world, n)
    ensures api.quiet ==> r.Ok? && api.world == BlockerIfNew(old(api.world), inst.status.nodes, n)
    ensures api.quiet && !MachineLeaving(old(api.world).kube, n) ==>
      QuietlyGuarded(old(api.world), api.world, inst.status.nodes, n) && api.world.cr == old(api.world).cr
  {
    ghost var w0 := api.world;
    var err := EnsureBlockerPod(api, inst, n);
    if !MachineLeaving(w0.kube, n) { BlockerIsQuiet(w0, inst.status.nodes, n); }
    r := if err.Some? then Err(err.value) else Ok(Track(NodeStatus(n, phase)));
  }

  lemma BesideAfterCalm(w: World, w1: World, w': World, n: Name)
    requires Aside(w, w1, n) && Beside(w1, w', n)
    ensures Beside(w, w', n)
  {
    forall m | m != n ensures KeptNode(w.kube, w'.kube, m) {
      assert KeptNode(w.kube, w1.kube, m) && KeptNode(w1.kube, w'.kube, m);
    }
  }
}
