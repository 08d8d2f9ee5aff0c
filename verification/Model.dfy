/** The cluster a compute-node operator acts on, as a value, together with every atomic step that can
    change it: the steps of the environment (Machine API, kubelets, Job controller, the two drain scripts,
    Nova, users) and the API calls of the operator.  A run is a log of such steps. */
module Model {
  type Name = string

  datatype Option<+T> = None | Some(value: T)

  // ----- Kubernetes objects ---------------------------------------------------------------------------

  /** The Ready condition of a node: True, anything but True, or missing. */
  datatype Readiness = Up | Down | Unreported

  /** A node of the operator's role; `machine` is the machine it runs on, `annotated` whether the machine
      annotation says so. */
  datatype Node = Node(machine: Name, annotated: bool, ready: Readiness, unschedulable: bool, tainted: bool)

  datatype Machine = Machine(nodeRef: Option<Name>, deleting: bool)

  /** A blocker pod.  Two pods of one name never share a uid. */
  datatype Pod = Pod(uid: int, finalizer: bool)

  /** `last` is bookkeeping: the uid of the newest blocker pod created for each node name. */
  datatype Kube = Kube(nodes: map<Name, Node>, machines: map<Name, Machine>, pods: map<Name, Pod>,
                       nextUid: int, last: map<Name, int>)

  // ----- Drain jobs -----------------------------------------------------------------------------------

  /** Where the pre-drain script stands; `todo` is what is left of the list it walks. */
  datatype PrePc = Check(todo: seq<Name>) | Disable(todo: seq<Name>) | Migrate(ids: set<int>) | Wait | PreExit

  /** What the pre-drain script saw when it looked at the service of the node it drains. */
  datatype OwnCheck = NotYet | SawDisabled | SawNone

  /** `pod` is bookkeeping: the uid of the node's blocker pod when the job was created. */
  datatype PreJob = PreJob(pod: int, hosts: seq<Name>, migrate: bool, pc: PrePc, own: OwnCheck,
                           active: bool, succeeded: bool)

  /** Where the post-drain script stands. */
  datatype PostPc = ListService | DeleteService | ListProvider | DeleteProvider | PostExit

  datatype PostJob = PostJob(pod: int, pc: PostPc, active: bool, succeeded: bool)

  /** The drain jobs by node name.  `drained` and `shut` are bookkeeping: the blocker pods whose post job
      succeeded, and those whose pre job saw the service of its own node present and disabled. */
  datatype Jobs = Jobs(pre: map<Name, PreJob>, post: map<Name, PostJob>, drained: set<int>, shut: set<int>)

  // ----- Nova and placement ---------------------------------------------------------------------------

  datatype Instance = Instance(host: Name, active: bool)

  /** `services` maps a host to whether its nova-compute service is enabled; `requested` are the instances
      a live migration was asked for; `strict` says whether placement refuses to delete a provider that
      still has allocations. */
  datatype Nova = Nova(services: map<Name, bool>, instances: map<int, Instance>, providers: set<Name>,
                       requested: set<int>, strict: bool)

  // ----- The custom resource --------------------------------------------------------------------------

  datatype NodeToDelete = NodeToDelete(name: Name, drain: bool)
  datatype InfraDaemonSet = InfraDaemonSet(namespace: Name, name: Name)
  datatype Phase = Ready | NotReady | SchedulingDisabled | NoPhase
  datatype NodeStatus = NodeStatus(name: Name, status: Phase)

  /** `rest` is everything else that goes into the hash of the spec, such as the number of workers. */
  datatype Spec = Spec(nodesToDelete: seq<NodeToDelete>, drain: bool, infra: seq<InfraDaemonSet>, rest: string)

  /** The hash of a spec is taken to determine the spec: `specMDS` is the spec that was hashed. */
  datatype Status = Status(nodes: seq<NodeStatus>, readyWorkers: int, infra: seq<InfraDaemonSet>,
                           specMDS: Option<Spec>)

  /** `edits` is bookkeeping: how often a user changed the spec. */
  datatype Cr = Cr(spec: Spec, status: Status, version: int, deleted: bool, finalizer: bool, edits: int)

  datatype ObjKind = DaemonSet | MachineSet | Secret | MachineConfigPool | MachineConfig | OtherKind
  datatype ObjKey = ObjKey(kind: ObjKind, namespace: Name, name: Name)

  const MACHINE_API := "openshift-machine-api"

  /** What the operator has in hand: the path of the running reconcile, the nodes the deletion path listed in it, the
      nodes found tagged when the machines were last listed, the nodes released in this reconcile whose entry has not
      been taken off the list yet, and the labelled objects the cleanup has listed and not yet deleted. */
  datatype Books = Books(path: Option<Path>, listing: Option<set<Name>>, tagged: set<Name>, owed: set<Name>,
                         pending: set<ObjKey>)

  /** `owned` are the objects that carry the owner labels.  Bookkeeping: `contested` says whether somebody else deleted
      one of the pending ones in this reconcile, and `books`. */
  datatype World = World(kube: Kube, jobs: Jobs, nova: Nova, cr: Cr, owned: set<ObjKey>, contested: bool,
                         books: Books)

  const NO_BOOKS := Books(None, None, {}, {}, {})

  /** The labelled objects a listing of the cleanup selects: of one kind, and if that is namespaced in the namespace
      of the machine API. */
  predicate OfKind(k: ObjKey, kind: ObjKind, namespaced: bool) {
    k.kind == kind && (namespaced ==> k.namespace == MACHINE_API)
  }

  function Selection(owned: set<ObjKey>, kind: ObjKind, namespaced: bool): set<ObjKey> {
    set k | k in owned && OfKind(k, kind, namespaced)
  }

  predicate Protected(k: Kube, n: Name) { n in k.pods && k.pods[n].finalizer }
  predicate IsTainted(k: Kube, n: Name) { n in k.nodes && k.nodes[n].tainted }

  predicate HasFinalizer(w: World, n: Name) { Protected(w.kube, n) }
  predicate Tainted(w: World, n: Name) { IsTainted(w.kube, n) }
  predicate PreDone(w: World, n: Name) { n in w.jobs.pre && w.jobs.pre[n].succeeded }
  predicate PostDone(w: World, n: Name) { n in w.jobs.post && w.jobs.post[n].succeeded }
  predicate Drained(w: World, n: Name) { n in w.kube.pods && w.kube.pods[n].uid in w.jobs.drained }

  /** The machine of node n exists and carries a deletion timestamp. */
  predicate MachineLeaving(k: Kube, n: Name) {
    n in k.nodes && k.nodes[n].machine in k.machines && k.machines[k.nodes[n].machine].deleting
  }

  /** The nodes whose machines carry a deletion timestamp. */
  function TaggedNodes(k: Kube): set<Name> {
    set m | m in k.machines && k.machines[m].deleting && k.machines[m].nodeRef.Some? :: k.machines[m].nodeRef.value
  }

  predicate Enabled(v: Nova, h: Name) { h in v.services && v.services[h] }
  predicate Empty(v: Nova, h: Name) { forall i <- v.instances :: v.instances[i].host != h }

  // ----- Environment ----------------------------------------------------------------------------------

  datatype NodeAction =
    | NodeJoins(n: Name, m: Name) | NodeLeaves(n: Name) | NodeReports(n: Name, ready: Readiness)
    | Cordons(n: Name, on: bool) | Annotated(n: Name, on: bool) | PodGone(n: Name)

  datatype MachineAction = MachineAdded(m: Name) | MachineDeletes(m: Name) | MachineGone(m: Name)

  /** Steps of the two kinds of drain jobs: a script command, a container restart, a status report. */
  datatype PreAction =
    | PreRuns(n: Name) | PreMigrates(n: Name, i: int) | PreRestarts(n: Name) | PreActive(n: Name, on: bool)
    | PreSucceeds(n: Name)

  datatype PostAction =
    | PostRuns(n: Name, accepted: bool) | PostRestarts(n: Name) | PostActive(n: Name, on: bool)
    | PostSucceeds(n: Name)

  datatype NovaAction =
    | ServiceRegisters(h: Name) | ServiceDisabled(h: Name) | ProviderReports(h: Name)
    | InstancePlaced(i: int, h: Name) | InstanceMoves(i: int, h: Name) | InstanceGone(i: int)
    | InstanceStops(i: int)

  datatype UserAction = EditSpec(spec: Spec) | DeleteCr

  datatype EnvAction =
    | OfNode(node: NodeAction) | OfMachine(machine: MachineAction) | OfPre(pre: PreAction)
    | OfPost(post: PostAction) | OfNova(nova: NovaAction) | OfUser(user: UserAction) | ObjectGone(key: ObjKey)

  /** Steps of running drain jobs and of Nova: they touch neither nodes, machines, pods nor the CR. */
  predicate IsJobAction(a: EnvAction) { a.OfPre? || a.OfPost? || a.OfNova? }

  /** One environment step.  An action whose condition does not hold leaves the world as it is. */
  function NextEnv(w: World, a: EnvAction): World {
    match a
    case OfNode(b) => w.(kube := NextNode(w.kube, b))
    case OfMachine(b) => w.(kube := NextMachine(w.kube, b))
    case OfPre(b) => w.(jobs := NextPre(w.jobs, w.nova, b), nova := PreOnNova(w.jobs, w.nova, b))
    case OfPost(b) => w.(jobs := NextPost(w.jobs, w.nova, b), nova := PostOnNova(w.jobs, w.nova, b))
    case OfNova(b) => w.(nova := NextNova(w.nova, w.kube, b))
    case OfUser(b) => w.(cr := NextCr(w.cr, b))
    case ObjectGone(k) =>
      if k in w.owned then w.(owned := w.owned - {k}, contested := w.contested || k in w.books.pending) else w
  }

  /** A node keeps its name and its machine, and a node with a protected blocker pod stays. */
  function NextNode(k: Kube, a: NodeAction): Kube {
    match a
    case NodeJoins(n, m) =>
      if n !in k.nodes && m in k.machines && k.machines[m].nodeRef.None?
         && (forall x <- k.nodes :: k.nodes[x].machine != m)
      then k.(nodes := k.nodes[n := Node(m, true, Down, false, false)],
              machines := k.machines[m := k.machines[m].(nodeRef := Some(n))])
      else k
    case NodeLeaves(n) =>
      if n in k.nodes && !Protected(k, n) then
        var m := k.nodes[n].machine;
        k.(nodes := k.nodes - {n},
           machines := if m in k.machines then k.machines[m := k.machines[m].(nodeRef := None)] else k.machines)
      else k
    case NodeReports(n, ready) =>
      if n in k.nodes then k.(nodes := k.nodes[n := k.nodes[n].(ready := ready)]) else k
    case Cordons(n, on) =>
      if n in k.nodes then k.(nodes := k.nodes[n := k.nodes[n].(unschedulable := on)]) else k
    case Annotated(n, on) =>
      if n in k.nodes then k.(nodes := k.nodes[n := k.nodes[n].(annotated := on)]) else k
    case PodGone(n) =>
      if n in k.pods && !k.pods[n].finalizer then k.(pods := k.pods - {n}) else k
  }

  /** The Machine API finishes a deletion only once no protected blocker pod runs on the machine's node. */
  function NextMachine(k: Kube, a: MachineAction): Kube {
    match a
    case MachineAdded(m) =>
      if m !in k.machines && (forall x <- k.nodes :: k.nodes[x].machine != m)
      then k.(machines := k.machines[m := Machine(None, false)]) else k
    case MachineDeletes(m) =>
      if m in k.machines then k.(machines := k.machines[m := k.machines[m].(deleting := true)]) else k
    case MachineGone(m) =>
      if m in k.machines && k.machines[m].deleting
         && (forall x <- k.nodes :: k.nodes[x].machine == m ==> !Protected(k, x))
      then k.(machines := k.machines - {m}) else k
  }

  function SetPre(j: Jobs, n: Name, job: PreJob): Jobs { j.(pre := j.pre[n := job]) }
  function SetPost(j: Jobs, n: Name, job: PostJob): Jobs { j.(post := j.post[n := job]) }

  function NextPre(j: Jobs, v: Nova, a: PreAction): Jobs {
    if a.n !in j.pre then j
    else
      var job := j.pre[a.n];
      match a
      case PreRuns(n) =>
        var j' := SetPre(j, n, PreAfter(v, n, job));
        if SeesOwnDisabled(v, n, job) then j'.(shut := j.shut + {job.pod}) else j'
      case PreMigrates(n, i) =>
        if job.pc.Migrate? && i in job.pc.ids then SetPre(j, n, job.(pc := Migrate(job.pc.ids - {i}))) else j
      case PreRestarts(n) =>
        if job.pc.PreExit? then j else SetPre(j, n, job.(pc := Check(job.hosts)))
      case PreActive(n, on) =>
        if job.succeeded then j else SetPre(j, n, job.(active := on))
      case PreSucceeds(n) =>
        if job.pc.PreExit? then SetPre(j, n, job.(active := false, succeeded := true)) else j
  }

  /** The ACTIVE instances the pre-drain script lists for its node. */
  function ActiveOn(v: Nova, n: Name): set<int> {
    set i | i in v.instances && v.instances[i].host == n && v.instances[i].active
  }

  /** The pre job of node n after the next command of its script. */
  function PreAfter(v: Nova, n: Name, job: PreJob): PreJob {
    match job.pc
    case Check(todo) =>
      if todo == [] then job.(pc := if job.migrate then Migrate(ActiveOn(v, n)) else Wait)
      else if Enabled(v, todo[0]) then job.(pc := Disable(todo))
      else if todo[0] == n then
        job.(pc := Check(todo[1..]), own := if n in v.services then SawDisabled else SawNone)
      else job.(pc := Check(todo[1..]))
    case Disable(todo) => job.(pc := Check(todo))
    case Migrate(ids) => if ids == {} then job.(pc := Wait) else job
    case Wait => if Empty(v, n) then job.(pc := PreExit) else job
    case PreExit => job
  }

  /** The script is about to find the service of its own node present and not enabled. */
  predicate SeesOwnDisabled(v: Nova, n: Name, job: PreJob) {
    job.pc.Check? && job.pc.todo != [] && job.pc.todo[0] == n && n in v.services && !v.services[n]
  }

  /** What a step of a pre job does to Nova. */
  function PreOnNova(j: Jobs, v: Nova, a: PreAction): Nova {
    if a.n !in j.pre then v
    else
      var pc := j.pre[a.n].pc;
      if a.PreRuns? && pc.Disable? && pc.todo != [] && pc.todo[0] in v.services
      then v.(services := v.services[pc.todo[0] := false])
      else if a.PreMigrates? && pc.Migrate? && a.i in pc.ids then v.(requested := v.requested + {a.i})
      else v
  }

  function NextPost(j: Jobs, v: Nova, a: PostAction): Jobs {
    if a.n !in j.post then j
    else
      var job := j.post[a.n];
      match a
      case PostRuns(n, _) => SetPost(j, n, job.(pc := PostAfter(v, n, job.pc)))
      case PostRestarts(n) => if job.pc.PostExit? then j else SetPost(j, n, job.(pc := ListService))
      case PostActive(n, on) => if job.succeeded then j else SetPost(j, n, job.(active := on))
      case PostSucceeds(n) =>
        if job.pc.PostExit?
        then SetPost(j, n, job.(active := false, succeeded := true)).(drained := j.drained + {job.pod})
        else j
  }

  /** Where the post-drain script of node n goes next. */
  function PostAfter(v: Nova, n: Name, pc: PostPc): PostPc {
    match pc
    case ListService => if n in v.services then DeleteService else ListProvider
    case DeleteService => ListService
    case ListProvider => if n in v.providers then DeleteProvider else PostExit
    case DeleteProvider => ListProvider
    case PostExit => PostExit
  }

  /** What a step of a post job does to Nova; `accepted` is placement's answer to a deletion. */
  function PostOnNova(j: Jobs, v: Nova, a: PostAction): Nova {
    if a.n !in j.post || !a.PostRuns? then v
    else
      var pc := j.post[a.n].pc;
      if pc.DeleteService? then v.(services := v.services - {a.n})
      else if pc.DeleteProvider? && a.accepted && (v.strict ==> Empty(v, a.n))
      then v.(providers := v.providers - {a.n})
      else v
  }

  /** nova-compute of a tainted node is stopped: it registers neither its service nor its provider. */
  function NextNova(v: Nova, k: Kube, a: NovaAction): Nova {
    match a
    case ServiceRegisters(h) =>
      if h !in v.services && !IsTainted(k, h)
      then v.(services := v.services[h := true], providers := v.providers + {h}) else v
    case ServiceDisabled(h) =>
      if h in v.services then v.(services := v.services[h := false]) else v
    case ProviderReports(h) =>
      if !IsTainted(k, h) then v.(providers := v.providers + {h}) else v
    case InstancePlaced(i, h) =>
      if i !in v.instances && CanReceive(v, h)
      then v.(instances := v.instances[i := Instance(h, true)]) else v
    case InstanceMoves(i, h) =>
      if i in v.instances && CanReceive(v, h)
      then v.(instances := v.instances[i := v.instances[i].(host := h)]) else v
    case InstanceGone(i) => v.(instances := v.instances - {i})
    case InstanceStops(i) =>
      if i in v.instances then v.(instances := v.instances[i := v.instances[i].(active := false)]) else v
  }

  /** Nova gives an instance only to an enabled service (with an inventory, when placement is strict). */
  predicate CanReceive(v: Nova, h: Name) { Enabled(v, h) && (v.strict ==> h in v.providers) }

  function NextCr(cr: Cr, a: UserAction): Cr {
    match a
    case EditSpec(spec) => cr.(spec := spec, version := cr.version + 1, edits := cr.edits + 1)
    case DeleteCr => cr.(deleted := true, version := cr.version + 1)
  }

  // ----- Operator calls -------------------------------------------------------------------------------

  /** `dropped` names the node whose entry is missing from what is written. */
  datatype Call =
    | StartReconcile
    | ListMachines
    | CreateBlocker(n: Name)
    | CreatePre(n: Name, hosts: seq<Name>, migrate: bool)
    | CreatePost(n: Name)
    | AddTaint(n: Name)
    | DeletePre(n: Name)
    | DeletePost(n: Name)
    | RemoveFinalizer(n: Name)
    | UpdateSpec(spec: Spec, dropped: Option<Name>)
    | UpdateStatus(status: Status)
    | AddCrFinalizer
    | RemoveCrFinalizer
    | ListForDeletion
    | ApplyOwned(keys: set<ObjKey>)
    | ListOwned(kind: ObjKind, namespaced: bool)
    | DeleteOwned(keys: set<ObjKey>)

  /** The effect of an API call that the server carries out. */
  function Apply(w: World, c: Call): World {
    match c
    case StartReconcile =>
      w.(books := Books(Some(PathFor(w.cr)), None, w.books.tagged, {}, {}), contested := false)
    case ListMachines => w.(books := w.books.(tagged := TaggedNodes(w.kube)))
    case CreateBlocker(n) => w.(kube := NewBlocker(w.kube, n))
    case CreatePre(n, hosts, migrate) =>
      if n in w.jobs.pre then w
      else w.(jobs := SetPre(w.jobs, n,
                             PreJob(NewestPod(w.kube, n), hosts, migrate, Check(hosts), NotYet, false, false)))
    case CreatePost(n) =>
      if n in w.jobs.post then w
      else w.(jobs := SetPost(w.jobs, n, PostJob(NewestPod(w.kube, n), ListService, false, false)))
    case AddTaint(n) => w.(kube := WithTaint(w.kube, n))
    case DeletePre(n) => if n in w.jobs.pre then w.(jobs := w.jobs.(pre := w.jobs.pre - {n})) else w
    case DeletePost(n) => if n in w.jobs.post then w.(jobs := w.jobs.(post := w.jobs.post - {n})) else w
    case RemoveFinalizer(n) => w.(kube := Unprotect(w.kube, n), books := w.books.(owed := w.books.owed + {n}))
    case UpdateSpec(spec, dropped) =>
      w.(cr := w.cr.(spec := spec, version := w.cr.version + 1),
         books := w.books.(owed := if dropped.Some? then w.books.owed - {dropped.value} else w.books.owed))
    case UpdateStatus(status) => w.(cr := w.cr.(status := status, version := w.cr.version + 1))
    case AddCrFinalizer => w.(cr := w.cr.(finalizer := true, version := w.cr.version + 1))
    case RemoveCrFinalizer => w.(cr := w.cr.(finalizer := false, version := w.cr.version + 1))
    case ListForDeletion => w.(books := w.books.(listing := Some(w.kube.nodes.Keys)))
    case ApplyOwned(keys) => w.(owned := w.owned + keys)
    case ListOwned(kind, namespaced) =>
      w.(books := w.books.(pending := Selection(w.owned, kind, namespaced)))
    case DeleteOwned(keys) => w.(owned := w.owned - keys, books := w.books.(pending := w.books.pending - keys))
  }

  function NewBlocker(k: Kube, n: Name): Kube {
    if n in k.pods then k
    else k.(pods := k.pods[n := Pod(k.nextUid, true)], last := k.last[n := k.nextUid], nextUid := k.nextUid + 1)
  }

  function WithTaint(k: Kube, n: Name): Kube {
    if n in k.nodes then k.(nodes := k.nodes[n := k.nodes[n].(tainted := true)]) else k
  }

  function Unprotect(k: Kube, n: Name): Kube {
    if n in k.pods then k.(pods := k.pods[n := k.pods[n].(finalizer := false)]) else k
  }

  function NewestPod(k: Kube, n: Name): int { if n in k.last then k.last[n] else 0 }

  // ----- Runs -----------------------------------------------------------------------------------------

  /** The part of Reconcile a call was made from. */
  datatype Path = Regular | Deletion

  function PathFor(cr: Cr): Path { if cr.deleted then Deletion else Regular }

  datatype Action = Env(env: EnvAction) | Op(call: Call, path: Path)

  function Next(w: World, a: Action): World {
    match a
    case Env(e) => NextEnv(w, e)
    case Op(c, _) => Apply(w, c)
  }

  /** The world after a log. */
  function Exec(w: World, log: seq<Action>): World {
    if log == [] then w else Next(Exec(w, log[..|log| - 1]), log[|log| - 1])
  }

  function RunEnv(w: World, acts: seq<EnvAction>): World {
    if acts == [] then w else NextEnv(RunEnv(w, acts[..|acts| - 1]), acts[|acts| - 1])
  }
}
