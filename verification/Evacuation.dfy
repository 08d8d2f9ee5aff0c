/** What a finished drain means for OpenStack: the operator's protocol composed with the two scripts, Nova's
    scheduler and placement. */
module Evacuation {
  import opened Model
  import opened Protocol
  import opened History

  /** Nothing can be scheduled on host n, and nothing can change that. */
  predicate Closed(k: Kube, v: Nova, n: Name) {
    if n in v.services then !v.services[n] else IsTainted(k, n)
  }

  /** The pre job of n's blocker pod saw the service of its own node present and disabled. */
  predicate Shut(w: World, n: Name) { NewestPod(w.kube, n) in w.jobs.shut }

  predicate NoRecords(v: Nova, n: Name) { n !in v.services && n !in v.providers }

  /** What is left of the list a pre-drain script still has to look at. */
  function Ahead(pc: PrePc): seq<Name> { if pc.Check? || pc.Disable? then pc.todo else [] }

  /** A script that has passed its own node on the list took note of what it saw. */
  ghost predicate TookNote(n: Name, job: PreJob, shut: set<int>) {
    && (n in job.hosts ==> job.own != NotYet || n in Ahead(job.pc))
    && (job.own == SawDisabled ==> job.pod in shut)
  }

  ghost predicate OwnInv(j: Jobs, n: Name) { n in j.pre ==> TookNote(n, j.pre[n], j.shut) }

  ghost predicate PreMeaning(k: Kube, j: Jobs, v: Nova, n: Name) {
    Protected(k, n) && k.pods[n].uid in j.shut ==>
      Closed(k, v, n) && (n in j.pre && j.pre[n].pc.PreExit? ==> Empty(v, n))
  }

  ghost predicate PostMeaning(j: Jobs, v: Nova, n: Name) {
    n in j.post ==>
      && (!j.post[n].pc.ListService? && !j.post[n].pc.DeleteService? ==> n !in v.services)
      && (j.post[n].pc.PostExit? ==> n !in v.providers)
  }

  ghost predicate DrainMeaning(k: Kube, j: Jobs, v: Nova, n: Name) {
    Protected(k, n) && k.pods[n].uid in j.drained ==>
      NoRecords(v, n) && IsTainted(k, n) && (k.pods[n].uid in j.shut ==> Empty(v, n))
  }

  ghost predicate NodeMeaning(k: Kube, j: Jobs, v: Nova, n: Name) {
    PreMeaning(k, j, v, n) && PostMeaning(j, v, n) && DrainMeaning(k, j, v, n) && OwnInv(j, n)
  }

  /** With strict placement an instance's host has a provider. */
  ghost predicate Allocated(v: Nova) {
    v.strict ==> forall i :: i in v.instances ==> v.instances[i].host in v.providers
  }

  ghost predicate EvacInv(k: Kube, j: Jobs, v: Nova) {
    && (forall n :: NodeMeaning(k, j, v, n))
    && (forall u :: u in j.shut ==> u < k.nextUid)
    && Allocated(v)
  }

  lemma NodeStepMeans(k: Kube, j: Jobs, v: Nova, a: NodeAction)
    requires EvacInv(k, j, v) && DrainInv(k, j)
    ensures EvacInv(NextNode(k, a), j, v)
  {
    NodeStepCalm(k, a);
    forall n ensures NodeMeaning(NextNode(k, a), j, v, n) { KubeMeans(k, NextNode(k, a), j, v, n); }
  }

  lemma MachineStepMeans(k: Kube, j: Jobs, v: Nova, a: MachineAction)
    requires EvacInv(k, j, v) && DrainInv(k, j)
    ensures EvacInv(NextMachine(k, a), j, v)
  {
    MachineStepCalm(k, a);
    forall n ensures NodeMeaning(NextMachine(k, a), j, v, n) { KubeMeans(k, NextMachine(k, a), j, v, n); }
  }

  lemma KubeMeans(k: Kube, k': Kube, j: Jobs, v: Nova, n: Name)
    requires NodeMeaning(k, j, v, n) && KeptNode(k, k', n)
    ensures NodeMeaning(k', j, v, n)
  {
  }

  lemma NovaStepMeans(k: Kube, j: Jobs, v: Nova, a: NovaAction)
    requires EvacInv(k, j, v) && DrainInv(k, j)
    ensures EvacInv(k, j, NextNova(v, k, a))
  {
    var v' := NextNova(v, k, a);
    forall n ensures NodeMeaning(k, j, v', n) {
      assert NodeMeaning(k, j, v, n) && PostInv(k, j, n) && PreInv(k, j, n);
    }
  }

  /** A pre job's command only ever disables services. */
  ghost predicate OnlyDisables(v: Nova, v': Nova) {
    && v'.instances == v.instances && v'.providers == v.providers && v'.strict == v.strict
    && v'.services.Keys == v.services.Keys
    && (forall h :: h in v.services && !v.services[h] ==> !v'.services[h])
  }

  lemma PreStepDisables(j: Jobs, v: Nova, a: PreAction)
    ensures OnlyDisables(v, PreOnNova(j, v, a))
  {
  }

  lemma DisablingMeans(k: Kube, j: Jobs, v: Nova, v': Nova, n: Name)
    requires NodeMeaning(k, j, v, n) && OnlyDisables(v, v')
    ensures NodeMeaning(k, j, v', n)
  {
  }

  lemma CommandTakesNote(v: Nova, n: Name, job: PreJob, shut: set<int>)
    requires TookNote(n, job, shut)
    ensures TookNote(n, PreAfter(v, n, job), if SeesOwnDisabled(v, n, job) then shut + {job.pod} else shut)
  {
    if job.pc.Check? && job.pc.todo != [] { HeadOrTail(job.pc.todo, n); }
  }

  lemma HeadOrTail(todo: seq<Name>, n: Name)
    requires todo != []
    ensures n in todo <==> n == todo[0] || n in todo[1..]
  {
  }

  lemma OwnStep(j: Jobs, v: Nova, a: PreAction)
    requires OwnInv(j, a.n)
    ensures OwnInv(NextPre(j, v, a), a.n)
  {
    if a.n in j.pre { CommandTakesNote(v, a.n, j.pre[a.n], j.shut); }
  }

  lemma PreStepMeansOwn(k: Kube, j: Jobs, v: Nova, a: PreAction)
    requires NodeMeaning(k, j, v, a.n) && PreInv(k, j, a.n) && PostInv(k, j, a.n)
    ensures NodeMeaning(k, NextPre(j, v, a), v, a.n)
  {
    OwnStep(j, v, a);
    PreStepCalm(j, v, a);
  }

  lemma PreStepMeansOther(k: Kube, j: Jobs, v: Nova, a: PreAction, n: Name)
    requires NodeMeaning(k, j, v, n) && n != a.n && PodsInv(k, j) && PreInv(k, j, a.n)
    ensures NodeMeaning(k, NextPre(j, v, a), v, n)
  {
    var j' := NextPre(j, v, a);
    assert j'.post == j.post && j'.drained == j.drained && (n in j'.pre <==> n in j.pre);
    assert n in j.pre ==> j'.pre[n] == j.pre[n];
    assert j.shut <= j'.shut;
    if Protected(k, n) { assert k.pods[n].uid in j'.shut ==> k.pods[n].uid in j.shut; }
  }

  lemma PreStepMeans(k: Kube, j: Jobs, v: Nova, a: PreAction)
    requires EvacInv(k, j, v) && DrainInv(k, j)
    ensures EvacInv(k, NextPre(j, v, a), PreOnNova(j, v, a))
  {
    PreStepDisables(j, v, a);
    assert PreInv(k, j, a.n) && PostInv(k, j, a.n);
    forall n ensures NodeMeaning(k, NextPre(j, v, a), PreOnNova(j, v, a), n) {
      assert NodeMeaning(k, j, v, n);
      if n == a.n { PreStepMeansOwn(k, j, v, a); } else { PreStepMeansOther(k, j, v, a, n); }
      DisablingMeans(k, NextPre(j, v, a), v, PreOnNova(j, v, a), n);
    }
  }

  lemma PostStepMeans(k: Kube, j: Jobs, v: Nova, a: PostAction)
    requires EvacInv(k, j, v) && DrainInv(k, j)
    ensures EvacInv(k, NextPost(j, v, a), PostOnNova(j, v, a))
  {
    var j' := NextPost(j, v, a);
    var v' := PostOnNova(j, v, a);
    assert NodeMeaning(k, j, v, a.n) && PreInv(k, j, a.n) && PostInv(k, j, a.n);
    forall n ensures NodeMeaning(k, j', v', n) {
      assert NodeMeaning(k, j, v, n) && PreInv(k, j, n) && PostInv(k, j, n);
      PostStepMeansFor(k, j, v, a, n);
    }
  }

  lemma PostStepMeansFor(k: Kube, j: Jobs, v: Nova, a: PostAction, n: Name)
    requires NodeMeaning(k, j, v, n) && PreInv(k, j, n) && PostInv(k, j, n) && PodsInv(k, j) && Allocated(v)
    requires NodeMeaning(k, j, v, a.n) && PreInv(k, j, a.n) && PostInv(k, j, a.n)
    ensures NodeMeaning(k, NextPost(j, v, a), PostOnNova(j, v, a), n)
  {
  }

  lemma OpStepMeans(w: World, c: Call, path: Path)
    requires EvacInv(w.kube, w.jobs, w.nova) && Inv(w) && Legal(w, c, path)
    ensures EvacInv(Apply(w, c).kube, Apply(w, c).jobs, Apply(w, c).nova)
  {
    var w' := Apply(w, c);
    forall n ensures NodeMeaning(w'.kube, w'.jobs, w'.nova, n) {
      assert NodeMeaning(w.kube, w.jobs, w.nova, n);
      assert PreInv(w.kube, w.jobs, n) && PostInv(w.kube, w.jobs, n);
      OpStepMeansFor(w, c, path, n);
    }
  }

  lemma OpStepMeansFor(w: World, c: Call, path: Path, n: Name)
    requires NodeMeaning(w.kube, w.jobs, w.nova, n) && PreInv(w.kube, w.jobs, n) && PostInv(w.kube, w.jobs, n)
    requires PodsInv(w.kube, w.jobs) && (forall u :: u in w.jobs.shut ==> u < w.kube.nextUid) && Legal(w, c, path)
    ensures NodeMeaning(Apply(w, c).kube, Apply(w, c).jobs, Apply(w, c).nova, n)
  {
  }

  /** A world before any drain: no jobs, no blocker pod drained or shut, and no instance without provider. */
  ghost predicate Pristine(w: World) { Untouched(w) && w.jobs.shut == {} && Allocated(w.nova) }

  lemma EnvStepMeans(w: World, e: EnvAction)
    requires EvacInv(w.kube, w.jobs, w.nova) && Inv(w)
    ensures var w' := NextEnv(w, e); EvacInv(w'.kube, w'.jobs, w'.nova) && w'.nova.strict == w.nova.strict
  {
    match e
    case OfNode(b) => NodeStepMeans(w.kube, w.jobs, w.nova, b);
    case OfMachine(b) => MachineStepMeans(w.kube, w.jobs, w.nova, b);
    case OfPre(b) => PreStepMeans(w.kube, w.jobs, w.nova, b);
    case OfPost(b) => PostStepMeans(w.kube, w.jobs, w.nova, b);
    case OfNova(b) => NovaStepMeans(w.kube, w.jobs, w.nova, b);
    case OfUser(b) =>
    case ObjectGone(_) =>
  }

  lemma {:induction false} RunsMean(start: World, log: seq<Action>)
    requires Pristine(start) && Lawful(start, log)
    ensures var w := Exec(start, log); Inv(w) && EvacInv(w.kube, w.jobs, w.nova)
    ensures Exec(start, log).nova.strict == start.nova.strict
  {
    LawfulRunsKeepInv(start, log);
    if log != [] {
      var front := log[..|log| - 1];
      RunsMean(start, front);
      var w := Exec(start, front);
      match log[|log| - 1]
      case Op(c, path) => OpStepMeans(w, c, path);
      case Env(e) => EnvStepMeans(w, e);
    }
  }

  /** Node n is gone from Nova and placement for good, and runs nothing if that can be told. */
  ghost predicate Evacuated(w: World, n: Name, strict: bool) {
    NoRecords(w.nova, n) && Tainted(w, n) && (strict || Shut(w, n) ==> Empty(w.nova, n))
  }

  /** In every reachable state a drained node, still protected, is evacuated. */
  lemma DrainedMeansEvacuated(start: World, log: seq<Action>, n: Name)
    requires Pristine(start) && Lawful(start, log)
    ensures var w := Exec(start, log); HasFinalizer(w, n) && Drained(w, n) ==> Evacuated(w, n, start.nova.strict)
  {
    RunsMean(start, log);
    var w := Exec(start, log);
    assert NodeMeaning(w.kube, w.jobs, w.nova, n);
  }

  /** END-TO-END EVACUATION. In every interleaving of operator, scripts, scheduler and placement, at the moment
      a node's blocker pod loses its finalizer, the node has no compute service and no placement provider, and
      its taint keeps nova-compute from registering again; and no instance runs on it, provided placement is
      strict or the pre-drain script found the node's own service disabled. */
  lemma {:induction false} EvacuatedWhenReleased(start: World, log: seq<Action>, i: nat, n: Name)
    requires Pristine(start) && Lawful(start, log) && i < |log|
    ensures var w, w' := WorldAt(start, log, i), WorldAt(start, log, i + 1);
      HasFinalizer(w, n) && !HasFinalizer(w', n) ==> Evacuated(w', n, start.nova.strict)
  {
    var w := WorldAt(start, log, i);
    if HasFinalizer(w, n) && !HasFinalizer(WorldAt(start, log, i + 1), n) {
      LawfulPrefix(start, log, i);
      LawfulRunsKeepInv(start, log[..i]);
      DrainedMeansEvacuated(start, log[..i], n);
      StepAt(start, log, i);
      LosesFinalizer(w, log[i], n);
    }
  }

  /** When the condition of the evacuation theorem is met: a pre job that succeeded with its own node on its list
      has looked at that node's service, and if it saw the record the pod counts as shut. */
  lemma ListedNodeIsShut(start: World, log: seq<Action>, n: Name)
    requires Pristine(start) && Lawful(start, log)
    requires PreDone(Exec(start, log), n) && n in Exec(start, log).jobs.pre[n].hosts
    ensures var w := Exec(start, log);
      var job := w.jobs.pre[n];
      && job.own != NotYet
      && (job.own == SawDisabled ==> Shut(w, n) && Closed(w.kube, w.nova, n) && Empty(w.nova, n))
  {
    RunsMean(start, log);
    var w := Exec(start, log);
    assert NodeMeaning(w.kube, w.jobs, w.nova, n) && PreInv(w.kube, w.jobs, n);
  }

  // ----- What can be told when the pre job is created -------------------------------------------------

  /** Draining node n with this disable list is safe: placement keeps providers in use, or nothing can be scheduled on
      n any more, or n's service is there and on the list. */
  predicate Safe(w: World, n: Name, hosts: seq<Name>) {
    w.nova.strict || Closed(w.kube, w.nova, n) || (n in w.nova.services && n in hosts)
  }

  /** The pre job of n has yet to look at n's own service, which is there. */
  ghost predicate Pending(j: Jobs, v: Nova, n: Name) {
    && n in v.services && n in j.pre && n !in j.post
    && n in j.pre[n].hosts && n in Ahead(j.pre[n].pc)
  }

  /** Nothing can be scheduled on n, and past the pre job n is empty. */
  ghost predicate Sealed(k: Kube, j: Jobs, v: Nova, n: Name) {
    Closed(k, v, n) && ((n in j.pre && !j.pre[n].pc.PreExit?) || Empty(v, n))
  }

  ghost predicate Sealing(k: Kube, j: Jobs, v: Nova, n: Name) { Pending(j, v, n) || Sealed(k, j, v, n) }

  lemma SealingKube(k: Kube, k': Kube, j: Jobs, v: Nova, n: Name)
    requires Sealing(k, j, v, n) && Protected(k, n) && KeptNode(k, k', n)
    ensures Sealing(k', j, v, n)
  {
  }

  lemma SealingNova(k: Kube, j: Jobs, v: Nova, a: NovaAction, n: Name)
    requires Sealing(k, j, v, n)
    ensures Sealing(k, j, NextNova(v, k, a), n)
  {
  }

  lemma SealingDisabled(k: Kube, j: Jobs, v: Nova, v': Nova, n: Name)
    requires Sealing(k, j, v, n) && OnlyDisables(v, v')
    ensures Sealing(k, j, v', n)
  {
  }

  /** A command of n's own pre job, as far as its position goes. */
  lemma SealingOwn(k: Kube, j: Jobs, v: Nova, a: PreAction)
    requires Sealing(k, j, v, a.n)
    ensures Sealing(k, NextPre(j, v, a), v, a.n)
  {
    if a.n in j.pre && Pending(j, v, a.n) && j.pre[a.n].pc.Check? { HeadOrTail(j.pre[a.n].pc.todo, a.n); }
  }

  lemma SealingPre(k: Kube, j: Jobs, v: Nova, a: PreAction, n: Name)
    requires Sealing(k, j, v, n)
    ensures Sealing(k, NextPre(j, v, a), PreOnNova(j, v, a), n)
  {
    PreStepDisables(j, v, a);
    if a.n == n { SealingOwn(k, j, v, a); } else {
      assert n in NextPre(j, v, a).pre <==> n in j.pre;
    }
    SealingDisabled(k, NextPre(j, v, a), v, PreOnNova(j, v, a), n);
  }

  lemma SealingPost(k: Kube, j: Jobs, v: Nova, a: PostAction, n: Name)
    requires Sealing(k, j, v, n) && PostInv(k, j, n)
    ensures Sealing(k, NextPost(j, v, a), PostOnNova(j, v, a), n)
  {
  }

  lemma SealingEnv(w: World, e: EnvAction, n: Name)
    requires Inv(w) && HasFinalizer(w, n) && Sealing(w.kube, w.jobs, w.nova, n)
    ensures var w' := NextEnv(w, e); Sealing(w'.kube, w'.jobs, w'.nova, n)
  {
    match e
    case OfNode(b) => NodeStepCalm(w.kube, b); SealingKube(w.kube, NextNode(w.kube, b), w.jobs, w.nova, n);
    case OfMachine(b) => MachineStepCalm(w.kube, b); SealingKube(w.kube, NextMachine(w.kube, b), w.jobs, w.nova, n);
    case OfPre(b) => SealingPre(w.kube, w.jobs, w.nova, b, n);
    case OfPost(b) => assert PostInv(w.kube, w.jobs, n); SealingPost(w.kube, w.jobs, w.nova, b, n);
    case OfNova(b) => SealingNova(w.kube, w.jobs, w.nova, b, n);
    case OfUser(_) =>
    case ObjectGone(_) =>
  }

  lemma SealingOp(w: World, c: Call, path: Path, n: Name)
    requires Inv(w) && Legal(w, c, path) && Sealing(w.kube, w.jobs, w.nova, n)
    ensures var w' := Apply(w, c); Sealing(w'.kube, w'.jobs, w'.nova, n)
  {
    assert PreInv(w.kube, w.jobs, n) && PostInv(w.kube, w.jobs, n);
  }

  /** From the creation of the pre job on, as long as the pod protects n. */
  lemma {:induction false} StaysSealing(start: World, log: seq<Action>, c: nat, i: nat, n: Name, u: int)
    requires Untouched(start) && Lawful(start, log) && c < i <= |log| && Guards(start, log, c, i, n, u)
    requires CreatesPre(start, log, c, n) && Safe(WorldAt(start, log, c), n, log[c].call.hosts)
    requires !WorldAt(start, log, c).nova.strict
    ensures var w := WorldAt(start, log, i); Sealing(w.kube, w.jobs, w.nova, n)
    decreases i
  {
    LawfulPrefix(start, log, i - 1);
    LawfulRunsKeepInv(start, log[..i - 1]);
    StepAt(start, log, i - 1);
    var w := WorldAt(start, log, i - 1);
    if i == c + 1 {
      assert PostInv(w.kube, w.jobs, n);
    } else {
      StaysSealing(start, log, c, i - 1, n, u);
      match log[i - 1]
      case Env(e) => SealingEnv(w, e, n);
      case Op(call, path) => SealingOp(w, call, path, n);
    }
  }

  /** A SAFE DRAIN EMPTIES THE NODE.  If it was safe when a pre job of pod u was created, then whatever happens until the
      pod loses its finalizer, the node is empty at that moment, without records, and tainted. */
  lemma {:induction false} SafeDrainEvacuates(start: World, log: seq<Action>, c: nat, i: nat, n: Name, u: int)
    requires Pristine(start) && Lawful(start, log) && c < i < |log| && Guards(start, log, c, i, n, u)
    requires CreatesPre(start, log, c, n) && Safe(WorldAt(start, log, c), n, log[c].call.hosts)
    requires !HasFinalizer(WorldAt(start, log, i + 1), n)
    ensures var w := WorldAt(start, log, i + 1); Empty(w.nova, n) && NoRecords(w.nova, n) && Tainted(w, n)
  {
    EvacuatedWhenReleased(start, log, i, n);
    StepAt(start, log, i);
    LosesFinalizer(WorldAt(start, log, i), log[i], n);
    LawfulPrefix(start, log, i);
    LawfulPrefix(start, log, c);
    if WorldAt(start, log, c).nova.strict {
      RunsMean(start, log[..c]);
    } else {
      StaysSealing(start, log, c, i, n, u);
    }
  }
}
