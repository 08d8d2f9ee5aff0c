/** The drain protocol: when each operator call is permitted, what the environment cannot undo, and the
    invariant every permitted run keeps. */
module Protocol {
  import opened Model
  import opened NodesToDelete

  // ----- What is permitted ----------------------------------------------------------------------------

  /** Node n still has, or its newest blocker pod was drained before losing, its protection. */
  predicate Shielded(w: World, n: Name) {
    HasFinalizer(w, n) || (n in w.kube.last && w.kube.last[n] in w.jobs.drained)
  }

  function CountReady(nodes: seq<NodeStatus>): nat {
    if nodes == [] then 0
    else CountReady(nodes[..|nodes| - 1]) + (if nodes[|nodes| - 1].status == Ready then 1 else 0)
  }

  predicate DistinctNames(nodes: seq<NodeStatus>) {
    forall i, j :: 0 <= i < j < |nodes| ==> nodes[i].name != nodes[j].name
  }

  predicate AllShielded(w: World, nodes: seq<NodeStatus>) {
    forall s :: s in nodes ==> Shielded(w, s.name)
  }

  /** A status the operator may persist. */
  predicate GoodStatus(w: World, st: Status) {
    st.readyWorkers == CountReady(st.nodes) && DistinctNames(st.nodes) && AllShielded(w, st.nodes)
  }

  /** Deletion barriers: this reconcile has listed the nodes, and every listed node that is still protected has
      reached the given stage. */
  predicate AllPreDone(w: World) {
    w.books.listing.Some? && forall m <- w.books.listing.value :: HasFinalizer(w, m) ==> PreDone(w, m)
  }

  predicate AllDrained(w: World) {
    w.books.listing.Some? && forall m <- w.books.listing.value :: HasFinalizer(w, m) ==> Drained(w, m)
  }

  predicate NoneProtected(w: World) {
    w.books.listing.Some? && forall m <- w.books.listing.value :: !HasFinalizer(w, m)
  }

  /** The kinds and namespaces the label cleanup selects. */
  predicate Selected(k: ObjKey, infra: seq<InfraDaemonSet>) {
    match k.kind
    case DaemonSet => exists d <- infra :: d.namespace == k.namespace
    case MachineSet => k.namespace == MACHINE_API
    case Secret => k.namespace == MACHINE_API
    case MachineConfigPool => true
    case MachineConfig => true
    case OtherKind => false
  }

  /** The kinds the cleanup lists, to delete the objects one by one. */
  predicate DeletedSingly(kind: ObjKind) { kind.MachineSet? || kind.MachineConfigPool? || kind.MachineConfig? }

  predicate Swept(w: World, infra: seq<InfraDaemonSet>) {
    forall k <- w.owned :: !Selected(k, infra)
  }

  /** The services a pre job for node n is to disable: those of the tagged nodes, or its own if there are none. */
  function DisableSet(tagged: set<Name>, n: Name): set<Name> { if tagged == {} then {n} else tagged }

  /** The spec as the operator may write it: the number of workers aside, the stored one, less the entry of a node
      it just released. */
  function Rewritten(spec: Spec, rest: string, dropped: Option<Name>): Spec {
    if dropped.None? then spec.(rest := rest)
    else spec.(rest := rest, nodesToDelete := Without(spec.nodesToDelete, dropped.value))
  }

  /** A reconcile on the given path is running. */
  predicate Under(w: World, path: Path) { w.books.path == Some(path) }

  /** When an operator call is in order. */
  predicate Legal(w: World, c: Call, path: Path) {
    if c.StartReconcile? then path == PathFor(w.cr) else Under(w, path) && Permitted(w, c, path)
  }

  /** When a call may be made from a reconcile on the given path. */
  predicate Permitted(w: World, c: Call, path: Path) {
    match c
    case StartReconcile => true
    case ListMachines => true
    case CreateBlocker(n) => path.Regular?
    case CreatePre(n, hosts, migrate) =>
      && HasFinalizer(w, n) && n in w.kube.nodes
      && hosts != [] && (set h | h in hosts) == DisableSet(w.books.tagged, n)
      && (if path.Regular? then n in hosts else w.books.listing.Some?)
    case AddTaint(n) => HasFinalizer(w, n) && PreDone(w, n) && (path.Deletion? ==> AllPreDone(w))
    case CreatePost(n) =>
      HasFinalizer(w, n) && PreDone(w, n) && Tainted(w, n) && (path.Deletion? ==> AllPreDone(w))
    case DeletePost(n) => PostDone(w, n) && (path.Deletion? ==> AllDrained(w))
    case DeletePre(n) =>
      PreDone(w, n) && n !in w.jobs.post && Drained(w, n) && (path.Deletion? ==> AllDrained(w))
    case RemoveFinalizer(n) =>
      && n !in w.jobs.pre && n !in w.jobs.post && HasFinalizer(w, n) && Drained(w, n)
      && (path.Deletion? ==> AllDrained(w))
    case UpdateSpec(spec, dropped) =>
      && path.Regular? && spec == Rewritten(w.cr.spec, spec.rest, dropped)
      && (dropped.Some? ==> dropped.value in w.books.owed)
    case UpdateStatus(st) => path.Regular? && GoodStatus(w, st)
    case AddCrFinalizer => path.Regular?
    case RemoveCrFinalizer =>
      path.Deletion? && w.cr.deleted && NoneProtected(w)
      && (!w.contested ==> Swept(w, w.cr.status.infra + w.cr.spec.infra))
    case ListForDeletion => path.Deletion? && w.cr.deleted
    case ApplyOwned(_) => path.Regular?
    case ListOwned(kind, _) => path.Deletion? && w.cr.deleted && NoneProtected(w) && DeletedSingly(kind)
    case DeleteOwned(keys) =>
      if path.Regular? then forall k <- keys :: k.kind.DaemonSet? else w.cr.deleted && NoneProtected(w)
  }

  predicate LegalAction(w: World, a: Action) { a.Op? ==> Legal(w, a.call, a.path) }

  ghost predicate Lawful(start: World, log: seq<Action>) {
    log == [] ||
    (Lawful(start, log[..|log| - 1]) && LegalAction(Exec(start, log[..|log| - 1]), log[|log| - 1]))
  }

  // ----- What the environment keeps -------------------------------------------------------------------

  /** The protection and the node of n survive from k to k'. */
  ghost predicate KeptNode(k: Kube, k': Kube, n: Name) {
    && (Protected(k', n) ==> Protected(k, n))
    && (Protected(k, n) ==> n in k'.pods && k'.pods[n] == k.pods[n])
    && (Protected(k, n) && n in k.nodes ==>
          n in k'.nodes && k'.nodes[n].machine == k.nodes[n].machine
          && (k.nodes[n].tainted ==> k'.nodes[n].tainted)
          && (MachineLeaving(k, n) ==> MachineLeaving(k', n)))
  }

  ghost predicate SamePre(j: PreJob, j': PreJob) {
    j'.pod == j.pod && j'.hosts == j.hosts && j'.migrate == j.migrate && (j.succeeded ==> j'.succeeded)
  }

  ghost predicate SamePost(j: PostJob, j': PostJob) { j'.pod == j.pod && (j.succeeded ==> j'.succeeded) }

  /** Progress of the drain jobs of n survives from j to j'. */
  ghost predicate KeptJobs(j: Jobs, j': Jobs, n: Name) {
    && (n in j.pre ==> n in j'.pre && SamePre(j.pre[n], j'.pre[n]))
    && (n in j.post ==> n in j'.post && SamePost(j.post[n], j'.post[n]))
  }

  ghost predicate Kept(w: World, w': World, n: Name) {
    KeptNode(w.kube, w'.kube, n) && KeptJobs(w.jobs, w'.jobs, n)
  }

  ghost predicate CalmKube(k: Kube, k': Kube) {
    && (forall n :: KeptNode(k, k', n))
    && k'.last == k.last && k'.nextUid == k.nextUid
    && (forall n :: n in k'.pods ==> n in k.pods && k'.pods[n] == k.pods[n])
  }

  ghost predicate CalmJobs(j: Jobs, j': Jobs) {
    && (forall n :: KeptJobs(j, j', n))
    && j'.pre.Keys == j.pre.Keys && j'.post.Keys == j.post.Keys
    && j.drained <= j'.drained
  }

  ghost predicate CalmCr(cr: Cr, cr': Cr) {
    && cr'.status == cr.status
    && cr'.finalizer == cr.finalizer
    && cr.version <= cr'.version && cr.edits <= cr'.edits
    && (cr.deleted ==> cr'.deleted)
    && (cr.edits == cr'.edits ==> cr'.spec == cr.spec)
    && (cr.version == cr'.version ==> cr == cr')
  }

  /** Labelled objects only disappear, and if they are pending, not unnoticed. */
  ghost predicate OwnedShrinks(w: World, w': World) {
    && w'.owned <= w.owned && (w.contested ==> w'.contested)
    && (!w'.contested ==> w.owned * w.books.pending <= w'.owned)
  }

  ghost predicate CalmOwned(w: World, w': World) { OwnedShrinks(w, w') && w'.books == w.books }

  /** Everything a client may still rely on after the environment has acted. */
  ghost predicate Calm(w: World, w': World) {
    CalmKube(w.kube, w'.kube) && CalmJobs(w.jobs, w'.jobs) && CalmCr(w.cr, w'.cr) && CalmOwned(w, w')
  }

  lemma NodeStepCalm(k: Kube, a: NodeAction)
    ensures CalmKube(k, NextNode(k, a))
  {
    forall n ensures KeptNode(k, NextNode(k, a), n) {}
  }

  lemma MachineStepCalm(k: Kube, a: MachineAction)
    ensures CalmKube(k, NextMachine(k, a))
  {
    forall n ensures KeptNode(k, NextMachine(k, a), n) {}
  }

  lemma PreStepCalm(j: Jobs, v: Nova, a: PreAction)
    ensures CalmJobs(j, NextPre(j, v, a))
  {
    forall n ensures KeptJobs(j, NextPre(j, v, a), n) {}
  }

  lemma PostStepCalm(j: Jobs, v: Nova, a: PostAction)
    ensures CalmJobs(j, NextPost(j, v, a))
  {
    forall n ensures KeptJobs(j, NextPost(j, v, a), n) {}
  }

  lemma CalmStep(w: World, a: EnvAction)
    ensures Calm(w, NextEnv(w, a))
  {
    match a
    case OfNode(b) => NodeStepCalm(w.kube, b);
    case OfMachine(b) => MachineStepCalm(w.kube, b);
    case OfPre(b) => PreStepCalm(w.jobs, w.nova, b);
    case OfPost(b) => PostStepCalm(w.jobs, w.nova, b);
    case OfNova(b) =>
    case OfUser(b) =>
    case ObjectGone(_) =>
  }

  lemma CalmTransitive(a: World, b: World, c: World)
    requires Calm(a, b) && Calm(b, c)
    ensures Calm(a, c)
  {
    forall n ensures KeptNode(a.kube, c.kube, n) {
      assert KeptNode(a.kube, b.kube, n) && KeptNode(b.kube, c.kube, n);
    }
    forall n ensures KeptJobs(a.jobs, c.jobs, n) {
      assert KeptJobs(a.jobs, b.jobs, n) && KeptJobs(b.jobs, c.jobs, n);
    }
  }

  lemma {:induction false} CalmRun(w: World, acts: seq<EnvAction>)
    ensures Calm(w, RunEnv(w, acts))
  {
    if acts != [] {
      var front := acts[..|acts| - 1];
      CalmRun(w, front);
      CalmStep(RunEnv(w, front), acts[|acts| - 1]);
      CalmTransitive(w, RunEnv(w, front), RunEnv(w, acts));
    }
  }

  // ----- The invariant --------------------------------------------------------------------------------

  /** The newest blocker pod of a node has its finalizer or was drained; uids are never used twice. */
  ghost predicate PodsInv(k: Kube, j: Jobs) {
    && (forall n :: n in k.pods ==> n in k.last && k.last[n] == k.pods[n].uid)
    && (forall n :: n in k.last ==> k.last[n] < k.nextUid)
    && (forall n, m :: n in k.last && m in k.last && k.last[n] == k.last[m] ==> n == m)
    && (forall u :: u in j.drained ==> u < k.nextUid)
    && (forall n :: n in k.last ==> Protected(k, n) || k.last[n] in j.drained)
  }

  ghost predicate PreInv(k: Kube, j: Jobs, n: Name) {
    n in j.pre ==> Protected(k, n) && j.pre[n].pod == k.pods[n].uid && j.pre[n].hosts != []
                   && (j.pre[n].succeeded ==> j.pre[n].pc.PreExit?)
  }

  ghost predicate PostInv(k: Kube, j: Jobs, n: Name) {
    n in j.post ==>
      && n in j.pre && j.pre[n].succeeded && IsTainted(k, n) && Protected(k, n)
      && j.post[n].pod == k.pods[n].uid
      && (j.post[n].succeeded ==> j.post[n].pc.PostExit? && j.post[n].pod in j.drained)
  }

  /** A node's machine points back at the node. */
  ghost predicate LinksInv(k: Kube) {
    forall n :: n in k.nodes && k.nodes[n].machine in k.machines ==>
      k.machines[k.nodes[n].machine].nodeRef == Some(n)
  }

  ghost predicate DrainInv(k: Kube, j: Jobs) {
    && PodsInv(k, j)
    && (forall n :: PreInv(k, j, n))
    && (forall n :: PostInv(k, j, n))
    && LinksInv(k)
  }

  ghost predicate Inv(w: World) { DrainInv(w.kube, w.jobs) && GoodStatus(w, w.cr.status) }

  lemma NodeStepInv(k: Kube, j: Jobs, a: NodeAction)
    requires DrainInv(k, j)
    ensures DrainInv(NextNode(k, a), j)
  {
    NodeStepCalm(k, a);
    NodeStepPods(k, j, a);
    NodeStepLinks(k, a);
    JobsInvStays(k, NextNode(k, a), j);
  }

  /** What the drain jobs rely on survives. */
  lemma JobsInvStays(k: Kube, k': Kube, j: Jobs)
    requires CalmKube(k, k') && (forall n :: PreInv(k, j, n)) && forall n :: PostInv(k, j, n)
    ensures (forall n :: PreInv(k', j, n)) && forall n :: PostInv(k', j, n)
  {
    forall n ensures PreInv(k', j, n) { assert PreInv(k, j, n) && KeptNode(k, k', n); }
    forall n ensures PostInv(k', j, n) { assert PostInv(k, j, n) && KeptNode(k, k', n); }
  }

  lemma NodeStepPods(k: Kube, j: Jobs, a: NodeAction)
    requires PodsInv(k, j)
    ensures PodsInv(NextNode(k, a), j)
  {
  }

  lemma NodeStepLinks(k: Kube, a: NodeAction)
    requires LinksInv(k)
    ensures LinksInv(NextNode(k, a))
  {
  }

  lemma MachineStepInv(k: Kube, j: Jobs, a: MachineAction)
    requires DrainInv(k, j)
    ensures DrainInv(NextMachine(k, a), j)
  {
    MachineStepCalm(k, a);
    JobsInvStays(k, NextMachine(k, a), j);
  }

  lemma PreStepInv(k: Kube, j: Jobs, v: Nova, a: PreAction)
    requires DrainInv(k, j)
    ensures DrainInv(k, NextPre(j, v, a))
  {
    var j' := NextPre(j, v, a);
    PreStepCalm(j, v, a);
    forall n ensures PreInv(k, j', n) { assert PreInv(k, j, n) && KeptJobs(j, j', n); }
    forall n ensures PostInv(k, j', n) { assert PostInv(k, j, n) && KeptJobs(j, j', n); }
  }

  lemma PostStepInv(k: Kube, j: Jobs, v: Nova, a: PostAction)
    requires DrainInv(k, j)
    ensures DrainInv(k, NextPost(j, v, a))
  {
    var j' := NextPost(j, v, a);
    PostStepCalm(j, v, a);
    assert PostInv(k, j, a.n);
    forall n ensures PreInv(k, j', n) { assert PreInv(k, j, n) && KeptJobs(j, j', n); }
    forall n ensures PostInv(k, j', n) { assert PostInv(k, j, n) && KeptJobs(j, j', n); }
  }

  lemma ShieldedStays(w: World, w': World, n: Name)
    requires DrainInv(w.kube, w.jobs) && w.jobs.drained <= w'.jobs.drained
    requires CalmKube(w.kube, w'.kube) && Shielded(w, n)
    ensures Shielded(w', n)
  {
    assert KeptNode(w.kube, w'.kube, n);
  }

  /** What holds of every protected node stays so: the environment protects no new node. */
  lemma BarriersStay(w: World, w': World)
    requires Calm(w, w')
    ensures AllPreDone(w) ==> AllPreDone(w')
    ensures AllDrained(w) ==> AllDrained(w')
    ensures NoneProtected(w) ==> NoneProtected(w')
  {
    forall m | HasFinalizer(w', m)
      ensures HasFinalizer(w, m) && (PreDone(w, m) ==> PreDone(w', m)) && (Drained(w, m) ==> Drained(w', m))
    {
      assert KeptNode(w.kube, w'.kube, m) && KeptJobs(w.jobs, w'.jobs, m);
    }
  }

  /** A call that is in order stays in order whatever the environment does before it lands. */
  lemma LegalStaysLegal(w: World, w': World, c: Call, path: Path)
    requires Inv(w) && Calm(w, w') && Legal(w, c, path)
    requires c.RemoveCrFinalizer? || c.UpdateSpec? ==> w'.cr.version == w.cr.version
    requires !c.StartReconcile?
    ensures Legal(w', c, path)
  {
    BarriersStay(w, w');
    match c
    case UpdateStatus(st) =>
      forall s | s in st.nodes ensures Shielded(w', s.name) { ShieldedStays(w, w', s.name); }
    case StartReconcile =>
    case ListMachines =>
    case UpdateSpec(_, _) =>
    case AddCrFinalizer =>
    case RemoveCrFinalizer =>
    case ListForDeletion =>
    case ApplyOwned(_) =>
    case ListOwned(_, _) =>
    case DeleteOwned(_) =>
    case _ =>
      assert KeptNode(w.kube, w'.kube, c.n) && KeptJobs(w.jobs, w'.jobs, c.n);
      assert PreInv(w.kube, w.jobs, c.n);
  }

  lemma EnvStepInv(w: World, a: EnvAction)
    requires Inv(w)
    ensures Inv(NextEnv(w, a))
  {
    var w' := NextEnv(w, a);
    match a {
      case OfNode(b) => NodeStepInv(w.kube, w.jobs, b);
      case OfMachine(b) => MachineStepInv(w.kube, w.jobs, b);
      case OfPre(b) => PreStepInv(w.kube, w.jobs, w.nova, b);
      case OfPost(b) => PostStepInv(w.kube, w.jobs, w.nova, b);
      case OfNova(b) =>
      case OfUser(b) =>
      case ObjectGone(_) =>
    }
    CalmStep(w, a);
    forall s | s in w'.cr.status.nodes ensures Shielded(w', s.name) { ShieldedStays(w, w', s.name); }
  }

  lemma NewBlockerPodsInv(k: Kube, j: Jobs, n: Name)
    requires PodsInv(k, j)
    ensures PodsInv(NewBlocker(k, n), j)
  {
    var k' := NewBlocker(k, n);
    if n !in k.pods {
      forall x | x in k'.last ensures k'.last[x] == (if x == n then k.nextUid else k.last[x]) {}
      forall x | x in k'.last ensures Protected(k', x) || k'.last[x] in j.drained {
        if x != n { assert Protected(k, x) ==> k'.pods[x] == k.pods[x]; }
      }
    }
  }

  lemma UnprotectPodsInv(k: Kube, j: Jobs, n: Name)
    requires PodsInv(k, j) && (Protected(k, n) ==> k.pods[n].uid in j.drained)
    ensures PodsInv(Unprotect(k, n), j)
  {
  }

  ghost predicate SamePods(k: Kube, k': Kube) {
    k'.pods == k.pods && k'.last == k.last && k'.nextUid == k.nextUid
  }

  /** Only two calls concern pods. */
  lemma PodsAfterCall(w: World, c: Call)
    ensures match c
      case CreateBlocker(n) => Apply(w, c).kube == NewBlocker(w.kube, n)
      case RemoveFinalizer(n) => Apply(w, c).kube == Unprotect(w.kube, n)
      case _ => SamePods(w.kube, Apply(w, c).kube)
  {
  }

  lemma OpStepPodsInv(w: World, c: Call, path: Path)
    requires PodsInv(w.kube, w.jobs) && Legal(w, c, path)
    ensures PodsInv(Apply(w, c).kube, Apply(w, c).jobs)
  {
    PodsAfterCall(w, c);
    match c
    case CreateBlocker(n) => NewBlockerPodsInv(w.kube, w.jobs, n);
    case RemoveFinalizer(n) => UnprotectPodsInv(w.kube, w.jobs, n);
    case _ =>
  }

  /** The drain jobs of one node. */
  lemma OpStepJobsInv(w: World, c: Call, path: Path, n: Name)
    requires PodsInv(w.kube, w.jobs) && PreInv(w.kube, w.jobs, n) && PostInv(w.kube, w.jobs, n) && Legal(w, c, path)
    ensures PreInv(Apply(w, c).kube, Apply(w, c).jobs, n) && PostInv(Apply(w, c).kube, Apply(w, c).jobs, n)
  {
  }

  lemma OpStepDrainInv(w: World, c: Call, path: Path)
    requires Inv(w) && Legal(w, c, path)
    ensures DrainInv(Apply(w, c).kube, Apply(w, c).jobs)
  {
    OpStepPodsInv(w, c, path);
    forall n ensures PreInv(Apply(w, c).kube, Apply(w, c).jobs, n) && PostInv(Apply(w, c).kube, Apply(w, c).jobs, n) {
      OpStepJobsInv(w, c, path, n);
    }
  }

  lemma OpStepInv(w: World, c: Call, path: Path)
    requires Inv(w) && Legal(w, c, path)
    ensures Inv(Apply(w, c))
  {
    OpStepDrainInv(w, c, path);
    var w' := Apply(w, c);
    forall n | Shielded(w, n) ensures Shielded(w', n) {}
  }

  lemma StepInv(w: World, a: Action)
    requires Inv(w) && LegalAction(w, a)
    ensures Inv(Next(w, a))
  {
    match a
    case Env(e) => EnvStepInv(w, e);
    case Op(c, path) => OpStepInv(w, c, path);
  }

  /** A run goes on by one step. */
  lemma RunGrows(start: World, log: seq<Action>, a: Action)
    requires Lawful(start, log) && LegalAction(Exec(start, log), a)
    ensures Lawful(start, log + [a]) && Exec(start, log + [a]) == Next(Exec(start, log), a)
  {
    assert (log + [a])[..|log + [a]| - 1] == log;
  }

  lemma ThreeSteps(start: World, a: Action, b: Action, c: Action)
    requires LegalAction(start, a) && LegalAction(Next(start, a), b) && LegalAction(Next(Next(start, a), b), c)
    ensures Lawful(start, [a, b, c]) && Exec(start, [a, b, c]) == Next(Next(Next(start, a), b), c)
  {
    assert [] + [a] == [a] && [a] + [b] == [a, b] && [a, b] + [c] == [a, b, c];
    RunGrows(start, [], a);
    assert Exec(start, [a]) == Next(start, a);
    RunGrows(start, [a], b);
    assert Exec(start, [a, b]) == Next(Next(start, a), b);
    RunGrows(start, [a, b], c);
  }

  /** The invariant holds after every lawful run, so at every moment a reconcile may be cut off. */
  lemma {:induction false} LawfulRunsKeepInv(start: World, log: seq<Action>)
    requires Inv(start) && Lawful(start, log)
    ensures Inv(Exec(start, log))
  {
    if log != [] {
      var front := log[..|log| - 1];
      LawfulRunsKeepInv(start, front);
      StepInv(Exec(start, front), log[|log| - 1]);
    }
  }
}
