/** updateNodesStatus: one walk over all nodes of the role, cut off by the first error. */
module NodeWalk {
  import opened Model
  import opened Protocol
  import opened Api
  import opened NodesToDelete
  import opened Drain
  import opened NodeSync

  ghost predicate NamedBefore(items: seq<NodeItem>, k: int, n: Name) {
    exists i :: 0 <= i < k && i < |items| && items[i].name == n
  }

  /** The part of the walk that matters for safety, after k nodes. */
  ghost predicate WalkInv(w0: World, w: World, items: seq<NodeItem>, k: nat, tracked: seq<NodeStatus>,
                          nodes: seq<NodeStatus>, ready: int) {
    && AllShielded(w, tracked) && AllShielded(w, nodes) && DistinctNames(nodes) && ready == CountReady(nodes)
    && (forall s :: s in nodes ==> NamedBefore(items, k, s.name))
    && (forall i :: k <= i < |items| ==> CopyHolds(w, items[i]) && StillGuarded(w0, w, items[i].name))
    && w.cr.status == w0.cr.status && w.cr.finalizer == w0.cr.finalizer && w0.cr.version <= w.cr.version
    && w.books.path == w0.books.path
  }

  ghost predicate StillGuarded(w0: World, w: World, n: Name) { HasFinalizer(w, n) ==> HasFinalizer(w0, n) }

  /** The nodes whose drain this walk completed. */
  ghost predicate DoneInv(w0: World, w: World, items: seq<NodeItem>, k: nat, done: seq<Name>) {
    && (forall n :: n in done ==> NamedBefore(items, k, n))
    && (forall n :: n in done <==> Released(w0, w, n))
    && NoRepeats(done)
  }

  ghost predicate NoRepeats(names: seq<Name>) { forall i, j :: 0 <= i < j < |names| ==> names[i] != names[j] }

  lemma WalkStep(w0: World, w: World, w': World, items: seq<NodeItem>, k: nat, tracked: seq<NodeStatus>,
                 nodes: seq<NodeStatus>, ready: int)
    requires WalkInv(w0, w, items, k, tracked, nodes, ready)
    requires k < |items| && DistinctItems(items) && Beside(w, w', items[k].name)
    ensures WalkInv(w0, w', items, k + 1, tracked, nodes, ready)
  {
    forall i | k + 1 <= i < |items|
      ensures CopyHolds(w', items[i]) && StillGuarded(w0, w', items[i].name)
    {
      assert CopyHolds(w, items[i]) && StillGuarded(w0, w, items[i].name);
      assert KeptNode(w.kube, w'.kube, items[i].name);
    }
    forall s | s in nodes ensures NamedBefore(items, k + 1, s.name) { assert NamedBefore(items, k, s.name); }
  }

  lemma WalkAppends(w0: World, w: World, items: seq<NodeItem>, k: nat, tracked: seq<NodeStatus>,
                    nodes: seq<NodeStatus>, ready: int, entry: NodeStatus)
    requires WalkInv(w0, w, items, k + 1, tracked, nodes, ready)
    requires k < |items| && DistinctItems(items) && entry.name == items[k].name && Shielded(w, entry.name)
    requires forall s :: s in nodes ==> NamedBefore(items, k, s.name)
    ensures WalkInv(w0, w, items, k + 1, tracked, nodes + [entry],
                    ready + if entry.status == Ready then 1 else 0)
  {
    var longer := nodes + [entry];
    assert longer[..|longer| - 1] == nodes;
    forall i | 0 <= i < |nodes| ensures nodes[i].name != entry.name { assert nodes[i] in nodes; }
    assert NamedBefore(items, k + 1, entry.name);
  }

  // ----- Progress on a quiet platform -----------------------------------------------------------------

  /** The same machines, the same nodes apart from taints, and the resource deleted or not as before. */
  ghost predicate SameSetting(w0: World, w: World) {
    && w.cr.deleted == w0.cr.deleted
    && w.kube.machines == w0.kube.machines && w.kube.nodes.Keys == w0.kube.nodes.Keys
    && (forall n :: n in w0.kube.nodes ==> SameNode(w0.kube.nodes[n], w.kube.nodes[n]))
  }

  /** Of the nodes before k, those to be drained are released, or are waited for and as they were; each of them is
      protected exactly if it is to be.  The nodes from k on are as they were. */
  ghost predicate QuietInv(w0: World, w: World, tracked: seq<NodeStatus>, items: seq<NodeItem>, k: nat) {
    && SameSetting(w0, w) && (JobsSucceeded(w0) ==> JobsSucceeded(w))
    && (forall i :: k <= i < |items| ==> SameDrain(w0, w, items[i].name))
    && (forall i :: 0 <= i < k && i < |items| ==> Passed(w0, w, tracked, items[i]))
  }

  ghost predicate Passed(w0: World, w: World, tracked: seq<NodeStatus>, item: NodeItem) {
    && GuardedAfter(w0, w, tracked, item)
    && (Waits(w0, tracked, item.name) ==> Running(w0, item.name) && SameDrain(w0, w, item.name))
  }

  /** Every node is protected exactly if it is to be. */
  ghost predicate GuardsAll(w0: World, w': World, tracked: seq<NodeStatus>) {
    forall n :: n in w0.kube.nodes ==> GuardedAfter(w0, w', tracked, NodeItem(n, w0.kube.nodes[n]))
  }

  /** No leaving node falls back, and no other node loses its protection. */
  ghost predicate NoStepBack(w0: World, w': World, tracked: seq<NodeStatus>) {
    && SameSetting(w0, w')
    && (forall n :: Leaving(w0, tracked, n) ==> StagesLeft(w', n) <= StagesLeft(w0, n))
    && (forall n :: n in w0.kube.nodes && HasFinalizer(w0, n) && !Leaving(w0, tracked, n) ==> HasFinalizer(w', n))
  }

  /** Why a quiet walk reports an error: a drain job was missing, and was created, or one failed. */
  ghost predicate Halts(w0: World, w': World, tracked: seq<NodeStatus>, n: Name) {
    Draining(w0, tracked, n) && ((Missing(w0, n) && StagesLeft(w', n) < StagesLeft(w0, n)) || Broken(w0, n))
  }

  /** WHAT A WALK ON A QUIET PLATFORM IS FOR, wherever the drain jobs stand.  An error means that a job of a draining node
      was missing, and was created, or had failed.  Without error every draining node was released, or its job runs and is
      waited for; the status reports all nodes, those waited for as SchedulingDisabled; every node is protected
      exactly if it is to be; and if no job was left unfinished before, none is. */
  ghost predicate WalkedQuietly(w0: World, w': World, tracked: seq<NodeStatus>, ok: bool) {
    && NoStepBack(w0, w', tracked)
    && if ok then
         && (forall n :: Waits(w0, tracked, n) ==> Running(w0, n))
         && ReportsAll(w0, tracked, w'.cr.status.nodes) && GuardsAll(w0, w', tracked)
         && (JobsSucceeded(w0) ==> JobsSucceeded(w'))
       else w'.cr.status == w0.cr.status && exists n :: Halts(w0, w', tracked, n)
  }

  /** Where the present drain jobs have succeeded: a walk that reports an error has brought one of the draining nodes a
      stage forward; and after a walk without error all of them are through. */
  ghost predicate Advances(w0: World, w': World, tracked: seq<NodeStatus>, ok: bool) {
    && NoStepBack(w0, w', tracked)
    && (!ok ==> exists n :: Draining(w0, tracked, n) && StagesLeft(w', n) < StagesLeft(w0, n))
    && (ok ==> forall n :: Leaving(w0, tracked, n) ==> !HasFinalizer(w', n))
  }

  lemma SettledAdvances(w0: World, w': World, tracked: seq<NodeStatus>, ok: bool)
    requires WalkedQuietly(w0, w', tracked, ok) && JobsSucceeded(w0)
    ensures Advances(w0, w', tracked, ok)
  {
    if ok {
      forall n | Leaving(w0, tracked, n) ensures !HasFinalizer(w', n) {
        assert GuardedAfter(w0, w', tracked, NodeItem(n, w0.kube.nodes[n]));
        assert PhaseOf(w0.kube, w0.kube.nodes[n]) == SchedulingDisabled && !Running(w0, n);
      }
    }
  }

  lemma StaysSettled(w: World, w': World, tracked: seq<NodeStatus>, n: Name)
    requires QuietHandled(w, w', tracked, n, true) && JobsSucceeded(w)
    ensures JobsSucceeded(w')
  {
    forall m | m in w'.jobs.pre ensures w'.jobs.pre[m].succeeded { assert m != n ==> SameDrain(w, w', m); }
    forall m | m in w'.jobs.post ensures w'.jobs.post[m].succeeded { assert m != n ==> SameDrain(w, w', m); }
  }

  lemma QuietStep(w0: World, w: World, w': World, tracked: seq<NodeStatus>, items: seq<NodeItem>, k: nat)
    requires QuietInv(w0, w, tracked, items, k) && k < |items| && DistinctItems(items)
    requires QuietHandled(w, w', tracked, items[k].name, true)
    requires GuardedAfter(w, w', tracked, items[k])
    ensures QuietInv(w0, w', tracked, items, k + 1)
  {
    if JobsSucceeded(w) { StaysSettled(w, w', tracked, items[k].name); }
    forall i | 0 <= i < k + 1 ensures Passed(w0, w', tracked, items[i]) {
      if i < k {
        assert Passed(w0, w, tracked, items[i]) && SameDrain(w, w', items[i].name);
      } else {
        assert SameDrain(w0, w, items[k].name);
        SameGuards(w0, w, tracked, items[k]);
      }
    }
    forall i | k + 1 <= i < |items| ensures SameDrain(w0, w', items[i].name) {
      assert SameDrain(w0, w, items[i].name) && SameDrain(w, w', items[i].name);
    }
  }

  lemma SameGuards(w0: World, w: World, tracked: seq<NodeStatus>, item: NodeItem)
    requires SameSetting(w0, w) && SameDrain(w0, w, item.name)
    ensures ToBeGuarded(w, tracked, item) == ToBeGuarded(w0, tracked, item)
    ensures Waits(w, tracked, item.name) == Waits(w0, tracked, item.name)
    ensures Draining(w, tracked, item.name) == Draining(w0, tracked, item.name)
    ensures OutcomeFor(w, tracked, item) == OutcomeFor(w0, tracked, item)
  {
    assert item.name in w.kube.nodes.Keys <==> item.name in w0.kube.nodes.Keys;
  }

  lemma QuietStops(w0: World, w: World, w': World, tracked: seq<NodeStatus>, items: seq<NodeItem>, k: nat)
    requires QuietInv(w0, w, tracked, items, k) && k < |items| && ListsNodes(items, w0.kube.nodes)
    requires QuietHandled(w, w', tracked, items[k].name, false)
    ensures NoStepBack(w0, w', tracked) && exists n :: Halts(w0, w', tracked, n)
  {
    var stuck := items[k].name;
    assert SameDrain(w0, w, stuck);
    SameGuards(w0, w, tracked, items[k]);
    assert Halts(w0, w', tracked, stuck);
    forall n | Leaving(w0, tracked, n) ensures StagesLeft(w', n) <= StagesLeft(w0, n) {
      NoneFallsBack(w0, w, w', tracked, items, k, n);
    }
    forall n | n in w0.kube.nodes && HasFinalizer(w0, n) && !Leaving(w0, tracked, n) ensures HasFinalizer(w', n) {
      OthersStayGuarded(w0, w, w', tracked, items, k, n);
    }
  }

  lemma NoneFallsBack(w0: World, w: World, w': World, tracked: seq<NodeStatus>, items: seq<NodeItem>, k: nat, n: Name)
    requires QuietInv(w0, w, tracked, items, k) && k < |items| && ListsNodes(items, w0.kube.nodes)
    requires QuietHandled(w, w', tracked, items[k].name, false) && Leaving(w0, tracked, n)
    ensures StagesLeft(w', n) <= StagesLeft(w0, n)
  {
    assert Lists(items, n);
    var i :| 0 <= i < |items| && items[i].name == n;
    assert i >= k ==> SameDrain(w0, w, n);
    if i != k { assert SameDrain(w, w', n); }
    if i < k { assert Passed(w0, w, tracked, items[i]); }
  }

  lemma OthersStayGuarded(w0: World, w: World, w': World, tracked: seq<NodeStatus>, items: seq<NodeItem>, k: nat, n: Name)
    requires QuietInv(w0, w, tracked, items, k) && k < |items| && ListsNodes(items, w0.kube.nodes)
    requires QuietHandled(w, w', tracked, items[k].name, false) && n != items[k].name
    requires n in w0.kube.nodes && HasFinalizer(w0, n) && !Leaving(w0, tracked, n)
    ensures HasFinalizer(w', n)
  {
    assert Lists(items, n);
    var i :| 0 <= i < |items| && items[i].name == n;
    assert SameDrain(w, w', n);
    if i < k { assert Passed(w0, w, tracked, items[i]); } else { assert SameDrain(w0, w, n); }
  }

  lemma QuietEnds(w0: World, w: World, w': World, tracked: seq<NodeStatus>, items: seq<NodeItem>)
    requires QuietInv(w0, w, tracked, items, |items|) && ListsNodes(items, w0.kube.nodes)
    requires w'.kube == w.kube && w'.jobs == w.jobs && w'.cr.deleted == w.cr.deleted
    ensures NoStepBack(w0, w', tracked) && GuardsAll(w0, w', tracked) && (JobsSucceeded(w0) ==> JobsSucceeded(w'))
    ensures forall n :: Waits(w0, tracked, n) ==> Running(w0, n)
  {
    forall n | n in w0.kube.nodes
      ensures Passed(w0, w', tracked, NodeItem(n, w0.kube.nodes[n]))
      ensures Leaving(w0, tracked, n) ==> StagesLeft(w', n) <= StagesLeft(w0, n)
    {
      assert Lists(items, n);
      var i :| 0 <= i < |items| && items[i].name == n;
      assert Passed(w0, w, tracked, items[i]);
    }
    forall n | n in w0.kube.nodes && HasFinalizer(w0, n) && !Leaving(w0, tracked, n) ensures HasFinalizer(w', n) {
      assert Passed(w0, w', tracked, NodeItem(n, w0.kube.nodes[n]));
    }
    forall n | Waits(w0, tracked, n) ensures Running(w0, n) {
      assert Passed(w0, w', tracked, NodeItem(n, w0.kube.nodes[n]));
    }
  }

  // ----- On every platform ----------------------------------------------------------------------------

  /** The item's node is on the list as SchedulingDisabled; or it is not cordoned, the lookup of its machine may have
      failed, and it is on the list as its Ready condition says, if it has one. */
  ghost predicate StillListed(flaky: set<Name>, item: NodeItem, nodes: seq<NodeStatus>) {
    || NodeStatus(item.name, SchedulingDisabled) in nodes
    || (item.node.machine in flaky && !item.node.unschedulable
        && (ByCondition(item).Track? ==> ByCondition(item).entry in nodes))
  }

  /** Of the nodes that were to be drained, those before k are released or still on the list, and those from k on are to
      be drained yet. */
  ghost predicate DrainInv(flaky: set<Name>, w0: World, w: World, items: seq<NodeItem>, k: nat,
                           tracked: seq<NodeStatus>, nodes: seq<NodeStatus>) {
    && (forall n :: Draining(w0, tracked, n) ==> Lists(items, n))
    && (forall i :: 0 <= i < |items| && Draining(w0, tracked, items[i].name) ==>
          if i < k then HasFinalizer(w, items[i].name) ==> StillListed(flaky, items[i], nodes)
          else Draining(w, tracked, items[i].name)
               && items[i].node.machine == w0.kube.nodes[items[i].name].machine)
    && (forall i :: 0 <= i < |items| && Draining(w0, tracked, items[i].name) ==>
          items[i].node.machine == w0.kube.nodes[items[i].name].machine)
  }

  lemma DrainStarts(flaky: set<Name>, w0: World, w: World, items: seq<NodeItem>, tracked: seq<NodeStatus>)
    requires Calm(w0, w) && ListsNodes(items, w.kube.nodes)
    ensures DrainInv(flaky, w0, w, items, 0, tracked, [])
  {
    forall n | Draining(w0, tracked, n)
      ensures Lists(items, n) && Draining(w, tracked, n) && w.kube.nodes[n].machine == w0.kube.nodes[n].machine
    {
      assert KeptNode(w0.kube, w.kube, n);
    }
  }

  lemma DrainGoesOn(flaky: set<Name>, w0: World, w: World, w': World, items: seq<NodeItem>, k: nat,
                    tracked: seq<NodeStatus>, nodes: seq<NodeStatus>, entry: Outcome)
    requires DrainInv(flaky, w0, w, items, k, tracked, nodes) && k < |items| && DistinctItems(items)
    requires Beside(w, w', items[k].name) && NotForgotten(flaky, w, w', tracked, items[k], Ok(entry))
    ensures DrainInv(flaky, w0, w', items, k + 1, tracked, if entry.Track? then nodes + [entry.entry] else nodes)
  {
    var nodes' := if entry.Track? then nodes + [entry.entry] else nodes;
    forall i | 0 <= i < |items| && Draining(w0, tracked, items[i].name)
      ensures if i < k + 1 then HasFinalizer(w', items[i].name) ==> StillListed(flaky, items[i], nodes')
              else Draining(w', tracked, items[i].name)
    {
      if i != k { assert KeptNode(w.kube, w'.kube, items[i].name); }
      if i < k && HasFinalizer(w', items[i].name) { assert StillListed(flaky, items[i], nodes); }
    }
  }

  /** NO DRAIN IS FORGOTTEN.  Every node that was tracked and protected with its machine being deleted, and is still
      protected after a walk without error, is on the new node list as SchedulingDisabled, unless the lookup of
      its machine may have failed. */
  ghost predicate KeepsDraining(flaky: set<Name>, w0: World, w': World, tracked: seq<NodeStatus>,
                                nodes: seq<NodeStatus>) {
    forall n :: Draining(w0, tracked, n) && HasFinalizer(w', n) && w0.kube.nodes[n].machine !in flaky ==>
      NodeStatus(n, SchedulingDisabled) in nodes
  }

  lemma DrainEnds(flaky: set<Name>, w0: World, w: World, w': World, items: seq<NodeItem>, tracked: seq<NodeStatus>,
                  nodes: seq<NodeStatus>)
    requires DrainInv(flaky, w0, w, items, |items|, tracked, nodes)
    requires forall n :: HasFinalizer(w, n) <==> HasFinalizer(w', n)
    ensures KeepsDraining(flaky, w0, w', tracked, nodes)
  {
    forall n | Draining(w0, tracked, n) && HasFinalizer(w', n) && w0.kube.nodes[n].machine !in flaky
      ensures NodeStatus(n, SchedulingDisabled) in nodes
    {
      assert Lists(items, n);
      var i :| 0 <= i < |items| && items[i].name == n;
    }
  }

  // ----- The walk -------------------------------------------------------------------------------------

  /** No lookup of the walk ends in a panic. */
  ghost predicate AllNodesKnown(k: Kube, tracked: seq<NodeStatus>) {
    forall n :: n in k.nodes ==> NodeKnown(k, tracked, n)
  }

  /** Stores a new node list, and the number of ready workers with it. */
  method StoreNodes(api: ApiServer, inst: ComputeNodeOpenStack, nodes: seq<NodeStatus>, ready: int)
    returns (err: Option<Error>)
    requires api.Valid() && Under(api.world, Regular) && Fresh(inst, api.world.cr)
    requires DistinctNames(nodes) && AllShielded(api.world, nodes) && ready == CountReady(nodes)
    modifies api, inst
    ensures inst.status == old(inst.status).(nodes := inst.status.nodes, readyWorkers := inst.status.readyWorkers)
    ensures api.Valid() && old(api.log) <= api.log && inst.spec == old(inst.spec)
    ensures err.None? ==> Fresh(inst, api.world.cr) && Under(api.world, Regular) && inst.status.nodes == nodes
    ensures Persisted(inst.edits, api.world.cr, inst.spec.nodesToDelete)
    ensures api.world.cr.finalizer == old(api.world).cr.finalizer
    ensures forall n :: HasFinalizer(old(api.world), n) <==> HasFinalizer(api.world, n)
    ensures err.None? && inst.version == api.world.cr.version ==>
      api.world.cr.status.nodes == nodes && api.world.cr.status.readyWorkers == ready
    ensures err.None? && old(inst.status.nodes == api.world.cr.status.nodes) ==> api.world.cr.status.nodes == nodes
    ensures api.quiet && old(inst.version == api.world.cr.version) ==>
      err.None? && api.world.kube == old(api.world).kube && api.world.jobs == old(api.world).jobs
      && api.world.cr.deleted == old(api.world).cr.deleted && inst.version == api.world.cr.version
  {
    err := None;
    if inst.status.nodes != nodes {
      inst.status := inst.status.(readyWorkers := ready, nodes := nodes);
      err := WriteNodes(api, inst.status, inst.version, inst.edits, inst.spec.nodesToDelete);
      if err.None? { inst.version := inst.version + 1; }
    }
  }

  /** The write of the status; `edits` and `list` are those of the copy at hand. */
  method WriteNodes(api: ApiServer, status: Status, version: int, ghost edits: int, ghost list: seq<NodeToDelete>)
    returns (err: Option<Error>)
    requires api.Valid() && Under(api.world, Regular) && version <= api.world.cr.version
    requires GoodStatus(api.world, status) && Persisted(edits, api.world.cr, list)
    modifies api
    ensures api.Valid() && old(api.log) <= api.log && Persisted(edits, api.world.cr, list)
    ensures api.world.cr.finalizer == old(api.world).cr.finalizer
    ensures err.None? ==> Under(api.world, Regular) && version == old(api.world).cr.version
    ensures err.None? ==> api.world.cr == old(api.world).cr.(status := status, version := version + 1)
    ensures forall n :: HasFinalizer(old(api.world), n) <==> HasFinalizer(api.world, n)
    ensures api.quiet && version == old(api.world).cr.version ==>
      err.None? && api.world.kube == old(api.world).kube && api.world.jobs == old(api.world).jobs
  {
    ghost var mid;
    err, mid := api.SubmitCr(UpdateStatus(status), Regular, version);
    CrWriteKeepsPods(old(api.world), mid, api.world);
  }

  lemma CrWriteKeepsPods(w: World, mid: World, w': World)
    requires Calm(w, mid) && w'.kube == mid.kube
    ensures forall n :: HasFinalizer(w, n) <==> HasFinalizer(w', n)
  {
    forall n ensures HasFinalizer(w, n) <==> HasFinalizer(w', n) { assert KeptNode(w.kube, w'.kube, n); }
  }

  /** What a walk has in hand before it comes to node k. */
  datatype Walk = Walk(items: seq<NodeItem>, k: nat, nodes: seq<NodeStatus>, ready: int, done: seq<Name>)

  /** Where the walk started: the world, the resource, whether the platform was quiet, and which lookups may fail. */
  datatype Origin = Origin(world: World, spec: Spec, tracked: seq<NodeStatus>, quiet: bool, flaky: set<Name>)

  /** The entries for the first i nodes of a listing. */
  ghost function Reports(w0: World, tracked: seq<NodeStatus>, items: seq<NodeItem>, i: nat): seq<NodeStatus>
    requires i <= |items|
  {
    if i == 0 then []
    else
      var outcome := OutcomeFor(w0, tracked, items[i - 1]);
      var front := Reports(w0, tracked, items, i - 1);
      if outcome.Track? then front + [outcome.entry] else front
  }

  /** The node list names exactly the nodes that are Ready or NotReady, with their phase, and those whose drain waits for a
      job, as SchedulingDisabled. */
  ghost predicate ReportsAll(w0: World, tracked: seq<NodeStatus>, nodes: seq<NodeStatus>) {
    forall n, p :: NodeStatus(n, p) in nodes <==> n in w0.kube.nodes && Reported(w0, tracked, n, p)
  }

  ghost predicate Reported(w0: World, tracked: seq<NodeStatus>, n: Name, p: Phase)
    requires n in w0.kube.nodes
  {
    match p
    case SchedulingDisabled => Waits(w0, tracked, n)
    case NoPhase => false
    case _ => PhaseOf(w0.kube, w0.kube.nodes[n]) == p
  }

  lemma {:induction false} ReportsUpTo(w0: World, tracked: seq<NodeStatus>, items: seq<NodeItem>, i: nat, s: NodeStatus)
    requires i <= |items|
    ensures s in Reports(w0, tracked, items, i) <==> exists j :: 0 <= j < i && OutcomeFor(w0, tracked, items[j]) == Track(s)
  {
    if i > 0 { ReportsUpTo(w0, tracked, items, i - 1, s); }
  }

  lemma ReportsListing(w0: World, tracked: seq<NodeStatus>, items: seq<NodeItem>)
    requires ListsNodes(items, w0.kube.nodes)
    ensures ReportsAll(w0, tracked, Reports(w0, tracked, items, |items|))
  {
    forall n, p ensures NodeStatus(n, p) in Reports(w0, tracked, items, |items|) <==>
      n in w0.kube.nodes && Reported(w0, tracked, n, p)
    {
      ReportsUpTo(w0, tracked, items, |items|, NodeStatus(n, p));
      if n in w0.kube.nodes {
        assert Lists(items, n);
        var j :| 0 <= j < |items| && items[j].name == n;
        assert items[j].node == w0.kube.nodes[n];
      }
    }
  }

  ghost predicate AtNode(o: Origin, w: World, spec: Spec, version: int, a: Walk) {
    && DistinctItems(a.items)
    && WalkInv(o.world, w, a.items, a.k, o.tracked, a.nodes, a.ready)
    && DoneInv(o.world, w, a.items, a.k, a.done)
    && spec == o.spec.(nodesToDelete := WithoutAll(o.spec.nodesToDelete, a.done))
    && DrainInv(o.flaky, o.world, w, a.items, a.k, o.tracked, a.nodes)
    && (o.quiet ==> QuietAt(o, w, version, a))
  }

  ghost predicate QuietAt(o: Origin, w: World, version: int, a: Walk) {
    && AllNodesKnown(o.world.kube, o.tracked) && ListsNodes(a.items, o.world.kube.nodes)
    && QuietInv(o.world, w, o.tracked, a.items, a.k) && version == w.cr.version
    && InStep(o, a)
  }

  ghost predicate InStep(o: Origin, a: Walk) {
    a.k <= |a.items| && a.nodes == Reports(o.world, o.tracked, a.items, a.k)
  }

  /** The walk after handling its next node. */
  function After(a: Walk, outcome: Outcome, finished: bool): Walk
    requires a.k < |a.items|
  {
    Walk(a.items, a.k + 1,
         if outcome.Track? then a.nodes + [outcome.entry] else a.nodes,
         if outcome.Track? && outcome.entry.status == Ready then a.ready + 1 else a.ready,
         DoneAfter(a, finished))
  }

  lemma NodeDone(o: Origin, w: World, w': World, spec: Spec, spec': Spec, version: int, version': int, a: Walk,
                 outcome: Outcome, finished: bool)
    requires a.k < |a.items| && AtNode(o, w, spec, version, a)
    requires Handled(w, w', a.items[a.k].name, Ok(outcome), finished)
    requires SpecAfter(spec, spec', a.items[a.k].name, finished)
    requires NotForgotten(o.flaky, w, w', o.tracked, a.items[a.k], Ok(outcome))
    requires o.quiet ==> QuietlyHandled(w, w', version', o.tracked, a.items[a.k], Ok(outcome))
    ensures AtNode(o, w', spec', version', After(a, outcome, finished))
  {
    NextWalk(o, w, w', a, outcome, finished);
    NextDone(o, w, w', a, finished);
    NextSpec(o, spec, spec', a, finished);
    DrainGoesOn(o.flaky, o.world, w, w', a.items, a.k, o.tracked, a.nodes, outcome);
    if o.quiet { NextQuiet(o, w, w', version, version', a, outcome, finished); }
  }

  lemma NextWalk(o: Origin, w: World, w': World, a: Walk, outcome: Outcome, finished: bool)
    requires a.k < |a.items| && DistinctItems(a.items)
    requires WalkInv(o.world, w, a.items, a.k, o.tracked, a.nodes, a.ready)
    requires Handled(w, w', a.items[a.k].name, Ok(outcome), finished)
    ensures var b := After(a, outcome, finished); WalkInv(o.world, w', b.items, b.k, o.tracked, b.nodes, b.ready)
  {
    WalkStep(o.world, w, w', a.items, a.k, o.tracked, a.nodes, a.ready);
    if outcome.Track? {
      WalkAppends(o.world, w', a.items, a.k, o.tracked, a.nodes, a.ready, outcome.entry);
    }
  }

  lemma NextQuiet(o: Origin, w: World, w': World, version: int, version': int, a: Walk, outcome: Outcome,
                  finished: bool)
    requires a.k < |a.items| && DistinctItems(a.items) && QuietAt(o, w, version, a)
    requires QuietlyHandled(w, w', version', o.tracked, a.items[a.k], Ok(outcome))
    ensures QuietAt(o, w', version', After(a, outcome, finished))
  {
    assert SameDrain(o.world, w, a.items[a.k].name);
    SameGuards(o.world, w, o.tracked, a.items[a.k]);
    QuietStep(o.world, w, w', o.tracked, a.items, a.k);
    NextReport(o, a, outcome, finished);
  }

  lemma NextReport(o: Origin, a: Walk, outcome: Outcome, finished: bool)
    requires a.k < |a.items| && InStep(o, a) && outcome == OutcomeFor(o.world, o.tracked, a.items[a.k])
    ensures InStep(o, After(a, outcome, finished))
  {
  }

  function DoneAfter(a: Walk, finished: bool): seq<Name>
    requires a.k < |a.items|
  {
    if finished then a.done + [a.items[a.k].name] else a.done
  }

  lemma NextDone(o: Origin, w: World, w': World, a: Walk, finished: bool)
    requires a.k < |a.items| && DistinctItems(a.items) && DoneInv(o.world, w, a.items, a.k, a.done)
    requires Beside(w, w', a.items[a.k].name) && StillGuarded(o.world, w, a.items[a.k].name)
    requires finished <==> Released(w, w', a.items[a.k].name)
    ensures DoneInv(o.world, w', a.items, a.k + 1, DoneAfter(a, finished))
  {
    var n := a.items[a.k].name;
    assert NamedBefore(a.items, a.k + 1, n);
    forall m | m in a.done ensures NamedBefore(a.items, a.k + 1, m) { assert NamedBefore(a.items, a.k, m); }
    assert n !in a.done;
    forall m ensures m in DoneAfter(a, finished) <==> Released(o.world, w', m) {
      if m != n { assert KeptNode(w.kube, w'.kube, m); }
    }
  }

  lemma NextSpec(o: Origin, spec: Spec, spec': Spec, a: Walk, finished: bool)
    requires a.k < |a.items| && spec == o.spec.(nodesToDelete := WithoutAll(o.spec.nodesToDelete, a.done))
    requires SpecAfter(spec, spec', a.items[a.k].name, finished)
    ensures spec' == o.spec.(nodesToDelete := WithoutAll(o.spec.nodesToDelete, DoneAfter(a, finished)))
  {
    if finished { WithoutOneMore(o.spec.nodesToDelete, a.done, a.items[a.k].name); }
  }

  /** The names whose entries a walk took off the stored list. */
  function WrittenAfter(a: Walk, written: bool): seq<Name>
    requires a.k < |a.items|
  {
    DoneAfter(a, written)
  }

  /** What the stored list is, on every path: the list at the start less one entry for each of the written nodes,
      all of them different and released in this walk. */
  ghost predicate Accounted(o: Origin, w: World, edits: int, written: seq<Name>) {
    && Persisted(edits, w.cr, WithoutAll(o.spec.nodesToDelete, written))
    && NoRepeats(written) && forall n :: n in written ==> Released(o.world, w, n)
  }

  lemma NextAccounted(o: Origin, w: World, w': World, spec: Spec, version: int, edits: int, a: Walk, ok: bool,
                      finished: bool, written: bool)
    requires a.k < |a.items| && AtNode(o, w, spec, version, a) && Beside(w, w', a.items[a.k].name)
    requires ListHandled(edits, w, w', spec, a.items[a.k].name, ok, finished, written)
    ensures Accounted(o, w', edits, WrittenAfter(a, written))
  {
    var n := a.items[a.k].name;
    if written { WithoutOneMore(o.spec.nodesToDelete, a.done, n); }
    assert !NamedBefore(a.items, a.k, n) && StillGuarded(o.world, w, n);
    forall m | m in WrittenAfter(a, written) ensures Released(o.world, w', m) {
      if m != n { assert KeptNode(w.kube, w'.kube, m); }
    }
  }

  /** Handles the next node of a walk. */
  method WalkOne(api: ApiServer, inst: ComputeNodeOpenStack, ghost o: Origin, a: Walk)
    returns (r: Result<Outcome>, finished: bool, ghost written: bool)
    requires api.Valid() && Under(api.world, Regular) && Fresh(inst, api.world.cr) && inst.status.nodes == o.tracked
    requires a.k < |a.items| && AtNode(o, api.world, inst.spec, inst.version, a)
    requires (o.quiet ==> api.quiet) && o.flaky == api.flaky
    modifies api, inst
    ensures api.Valid() && old(api.log) <= api.log && inst.status == old(inst.status)
    ensures r.Ok? ==> Fresh(inst, api.world.cr) && written == finished && Under(api.world, Regular)
                      && AtNode(o, api.world, inst.spec, inst.version, After(a, r.value, finished))
    ensures Accounted(o, api.world, inst.edits, WrittenAfter(a, written))
    ensures o.quiet && r.Err? ==> WalkedQuietly(o.world, api.world, o.tracked, false)
  {
    ghost var w := api.world;
    ghost var spec, version := inst.spec, inst.version;
    ReadyForNode(o, w, spec, version, a);
    r, finished, written := HandleNode(api, inst, a.items[a.k]);
    NextAccounted(o, w, api.world, spec, version, inst.edits, a, r.Ok?, finished, written);
    WalkedOne(o, w, api.world, spec, inst.spec, version, inst.version, a, r, finished);
  }

  lemma WalkedOne(o: Origin, w: World, w': World, spec: Spec, spec': Spec, version: int, version': int, a: Walk,
                  r: Result<Outcome>, finished: bool)
    requires a.k < |a.items| && AtNode(o, w, spec, version, a)
    requires Handled(w, w', a.items[a.k].name, r, finished)
    requires r.Ok? ==> SpecAfter(spec, spec', a.items[a.k].name, finished)
    requires NotForgotten(o.flaky, w, w', o.tracked, a.items[a.k], r)
    requires o.quiet ==> QuietlyHandled(w, w', version', o.tracked, a.items[a.k], r)
    ensures r.Ok? ==> AtNode(o, w', spec', version', After(a, r.value, finished))
    ensures o.quiet && r.Err? ==> WalkedQuietly(o.world, w', o.tracked, false)
  {
    if r.Ok? {
      NodeDone(o, w, w', spec, spec', version, version', a, r.value, finished);
    } else if o.quiet {
      QuietStops(o.world, w, w', o.tracked, a.items, a.k);
    }
  }

  /** The state in which a walk starts, right after the listing. */
  lemma WalkStarts(w0: World, w: World, spec: Spec, version: int, tracked: seq<NodeStatus>, items: seq<NodeItem>,
                   quiet: bool, flaky: set<Name>)
    requires Inv(w0) && Calm(w0, w) && AllShielded(w0, tracked) && ListsNodes(items, w.kube.nodes)
    requires quiet ==> w == w0 && AllNodesKnown(w0.kube, tracked) && version == w0.cr.version
    ensures AtNode(Origin(w0, spec, tracked, quiet, flaky), w, spec, version, Walk(items, 0, [], 0, []))
  {
    ShieldsStayCalm(w0, w);
    DrainStarts(flaky, w0, w, items, tracked);
    forall i | 0 <= i < |items| ensures StillGuarded(w0, w, items[i].name) {
      assert KeptNode(w0.kube, w.kube, items[i].name);
    }
    forall n ensures !Released(w0, w, n) { assert KeptNode(w0.kube, w.kube, n); }
  }

  /** `done` are the nodes whose drain this walk completed, and `written` those whose entry went off the stored list.
      They are the same unless the walk ends in an error, when the last write may have taken effect all the same.
      On every path the stored list is the list at the start less exactly one entry for each written node; the
      persisted status stays consistent whatever happens; no drain is forgotten; and what the walk does on a quiet
      platform is exact. */
  method UpdateNodesStatus(api: ApiServer, inst: ComputeNodeOpenStack)
    returns (err: Option<Error>, done: seq<Name>, ghost written: seq<Name>)
    requires api.Valid() && Under(api.world, Regular) && Fresh(inst, api.world.cr) && AllShielded(api.world, inst.status.nodes)
    modifies api, inst
    ensures inst.status == old(inst.status).(nodes := inst.status.nodes, readyWorkers := inst.status.readyWorkers)
    ensures api.Valid() && old(api.log) <= api.log
    ensures err.None? ==> Fresh(inst, api.world.cr) && Under(api.world, Regular)
    ensures err.None? ==> inst.spec == old(inst.spec).(nodesToDelete := WithoutAll(old(inst.spec).nodesToDelete, done))
    ensures err.None? ==> forall n :: n in done <==> Released(old(api.world), api.world, n)
    ensures Persisted(inst.edits, api.world.cr, WithoutAll(old(inst.spec).nodesToDelete, written))
    ensures NoRepeats(written) && forall n :: n in written ==> Released(old(api.world), api.world, n)
    ensures done <= written && |written| <= |done| + 1 && (err.None? ==> written == done)
    ensures err.None? ==>
      KeepsDraining(api.flaky, old(api.world), api.world, old(inst.status).nodes, inst.status.nodes)
    ensures err.None? && old(inst.status.nodes == api.world.cr.status.nodes) ==>
      api.world.cr.status.nodes == inst.status.nodes
    ensures err.None? ==> api.world.cr.finalizer == old(api.world).cr.finalizer
    ensures QuietStart(api, old(api.world), old(inst.version)) && AllNodesKnown(old(api.world).kube, old(inst.status).nodes) ==>
      WalkedQuietly(old(api.world), api.world, old(inst.status).nodes, err.None?)
      && (err.None? ==> inst.version == api.world.cr.version)
  {
    ghost var w0 := api.world;
    ghost var quiet := QuietStart(api, w0, inst.version) && AllNodesKnown(w0.kube, inst.status.nodes);
    ghost var o := Origin(w0, inst.spec, inst.status.nodes, quiet, api.flaky);
    var listing := api.ListNodes();
    if listing.Err? { return Some(listing.error), [], []; }
    WalkStarts(w0, api.world, inst.spec, inst.version, inst.status.nodes, listing.value, quiet, api.flaky);
    err, done, written := WalkAll(api, inst, o, listing.value);
  }

  /** What a walk guarantees on every platform; see UpdateNodesStatus. */
  ghost predicate WalkedSafely(o: Origin, w: World, edits: int, spec: Spec, ok: bool, done: seq<Name>,
                               written: seq<Name>) {
    && (ok ==> spec == o.spec.(nodesToDelete := WithoutAll(o.spec.nodesToDelete, done)))
    && (ok ==> forall n :: n in done <==> Released(o.world, w, n))
    && Accounted(o, w, edits, written)
    && done <= written && |written| <= |done| + 1 && (ok ==> written == done)
  }

  /** The loop over the listed nodes. */
  method WalkAll(api: ApiServer, inst: ComputeNodeOpenStack, ghost o: Origin, items: seq<NodeItem>)
    returns (err: Option<Error>, done: seq<Name>, ghost written: seq<Name>)
    requires api.Valid() && Under(api.world, Regular) && Fresh(inst, api.world.cr) && inst.status.nodes == o.tracked
    requires AtNode(o, api.world, inst.spec, inst.version, Walk(items, 0, [], 0, []))
    requires (o.quiet ==> api.quiet) && o.flaky == api.flaky
    modifies api, inst
    ensures inst.status == old(inst.status).(nodes := inst.status.nodes, readyWorkers := inst.status.readyWorkers)
    ensures api.Valid() && old(api.log) <= api.log
    ensures err.None? ==> Fresh(inst, api.world.cr) && Under(api.world, Regular)
    ensures WalkedSafely(o, api.world, inst.edits, inst.spec, err.None?, done, written)
    ensures err.None? ==> ListStored(o, api.world, inst.status.nodes)
    ensures o.quiet ==> WalkedQuietly(o.world, api.world, o.tracked, err.None?)
                        && (err.None? ==> inst.version == api.world.cr.version)
  {
    var a := Walk(items, 0, [], 0, []);
    while a.k < |a.items|
      invariant a.k <= |a.items|
      invariant api.Valid() && old(api.log) <= api.log && Fresh(inst, api.world.cr)
      invariant inst.status == old(inst.status) && Under(api.world, Regular)
      invariant AtNode(o, api.world, inst.spec, inst.version, a)
      decreases |a.items| - a.k
    {
      var r, finished;
      ghost var wrote;
      r, finished, wrote := WalkOne(api, inst, o, a);
      if r.Err? { return Some(r.error), a.done, WrittenAfter(a, wrote); }
      a := After(a, r.value, finished);
    }
    done, written := a.done, a.done;
    err := EndWalk(api, inst, o, a);
  }

  /** The end of the walk: the node list is stored. */
  method EndWalk(api: ApiServer, inst: ComputeNodeOpenStack, ghost o: Origin, a: Walk) returns (err: Option<Error>)
    requires api.Valid() && Under(api.world, Regular) && Fresh(inst, api.world.cr) && inst.status.nodes == o.tracked
    requires a.k == |a.items| && AtNode(o, api.world, inst.spec, inst.version, a)
    requires (o.quiet ==> api.quiet) && o.flaky == api.flaky
    modifies api, inst
    ensures inst.status == old(inst.status).(nodes := inst.status.nodes, readyWorkers := inst.status.readyWorkers)
    ensures api.Valid() && old(api.log) <= api.log && inst.spec == old(inst.spec)
    ensures err.None? ==> Fresh(inst, api.world.cr) && Under(api.world, Regular)
    ensures err.None? ==> ListStored(o, api.world, inst.status.nodes)
    ensures Accounted(o, api.world, inst.edits, a.done) && forall n :: n in a.done <==> Released(o.world, api.world, n)
    ensures o.quiet ==> err.None? && WalkedQuietly(o.world, api.world, o.tracked, true)
                        && inst.version == api.world.cr.version
  {
    ghost var w := api.world;
    err := StoreNodes(api, inst, a.nodes, a.ready);
    if o.quiet {
      QuietEnds(o.world, w, api.world, o.tracked, a.items);
      ReportsListing(o.world, o.tracked, a.items);
    }
    DrainEnds(o.flaky, o.world, w, api.world, a.items, o.tracked, a.nodes);
  }

  /** The new list keeps the drains, and is stored if the old one was. */
  ghost predicate ListStored(o: Origin, w: World, nodes: seq<NodeStatus>) {
    && KeepsDraining(o.flaky, o.world, w, o.tracked, nodes) && w.cr.finalizer == o.world.cr.finalizer
    && (o.tracked == o.world.cr.status.nodes ==> w.cr.status.nodes == nodes)
  }

  /** What the handling of the next node relies on. */
  lemma ReadyForNode(o: Origin, w: World, spec: Spec, version: int, a: Walk)
    requires a.k < |a.items| && AtNode(o, w, spec, version, a)
    ensures CopyHolds(w, a.items[a.k]) && AllShielded(w, o.tracked)
    ensures o.quiet ==> version == w.cr.version && CopyKnown(w, o.tracked, a.items[a.k])
  {
    if o.quiet { assert NodeKnown(o.world.kube, o.tracked, a.items[a.k].name); }
  }

  /** A reconcile of a living resource on a quiet platform, as far as the walk over the nodes is concerned. */
  method WalkOnce(api: ApiServer) returns (ok: bool)
    requires api.Valid() && api.quiet && !api.world.cr.deleted
    requires AllNodesKnown(api.world.kube, api.world.cr.status.nodes)
    modifies api
    ensures api.Valid() && old(api.log) <= api.log
    ensures WalkedQuietly(old(api.world), api.world, old(api.world).cr.status.nodes, ok)
  {
    ghost var w := api.world;
    var cr;
    ghost var mid;
    cr, mid := api.GetCr();
    ghost var w1 := api.world;
    var inst := new ComputeNodeOpenStack(cr.value);
    StartKeepsShields(w);
    var err, done;
    ghost var written;
    err, done, written := UpdateNodesStatus(api, inst);
    WalkedBetween(w, w1, api.world, api.world, w.cr.status.nodes, err.None?);
    ok := err.None?;
  }

  lemma StartKeepsShields(w: World)
    requires Inv(w)
    ensures var w' := Apply(w, StartReconcile); AllShielded(w', w'.cr.status.nodes)
  {
    assert forall n :: Shielded(w, n) ==> Shielded(Apply(w, StartReconcile), n);
  }

  /** Before and after a walk, the resource and the books do not matter, the stored node list apart. */
  lemma WalkedBetween(w: World, w1: World, w2: World, w': World, tracked: seq<NodeStatus>, ok: bool)
    requires WalkedQuietly(w1, w2, tracked, ok)
    requires w1.kube == w.kube && w1.jobs == w.jobs && w1.cr.deleted == w.cr.deleted && w1.cr.status == w.cr.status
    requires w'.kube == w2.kube && w'.jobs == w2.jobs && w'.cr.deleted == w2.cr.deleted
    requires if ok then w'.cr.status.nodes == w2.cr.status.nodes else w'.cr.status == w2.cr.status
    ensures WalkedQuietly(w, w', tracked, ok)
  {
    forall n ensures StagesLeft(w1, n) == StagesLeft(w, n) && StagesLeft(w2, n) == StagesLeft(w', n) {}
    forall n ensures Leaving(w1, tracked, n) == Leaving(w, tracked, n) && Waits(w1, tracked, n) == Waits(w, tracked, n) {}
    if ok { GuardsBetweenWalks(w, w1, w2, w', tracked); } else {
      var n :| Halts(w1, w2, tracked, n);
      assert Halts(w, w', tracked, n);
    }
  }

  lemma GuardsBetweenWalks(w: World, w1: World, w2: World, w': World, tracked: seq<NodeStatus>)
    requires GuardsAll(w1, w2, tracked) && w1.kube == w.kube && w1.jobs == w.jobs && w'.kube == w2.kube
    requires w1.cr.deleted == w.cr.deleted
    ensures GuardsAll(w, w', tracked)
  {
    forall n | n in w.kube.nodes ensures GuardedAfter(w, w', tracked, NodeItem(n, w.kube.nodes[n])) {
      SameGuards(w, w1, tracked, NodeItem(n, w.kube.nodes[n]));
      assert GuardedAfter(w1, w2, tracked, NodeItem(n, w1.kube.nodes[n]));
    }
  }
}
