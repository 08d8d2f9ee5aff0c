/** The two drain scripts, command by command, against the job steps of the model: each openstack or nova command is
    one step of the job, and between any two commands everybody else acts. */
module Scripts {
  import opened Model
  import opened Protocol
  import opened History
  import opened Evacuation
  import opened Api

  /** The environment variables of a running script. */
  datatype Script =
    | PreScript(scaleDownNode: Name, disableServices: seq<Name>, liveMigration: bool)
    | PostScript(scaleDownNode: Name)

  /** How a script ends: with exit code 0; with code 1 for a missing variable; with the non-zero code of a command that
      failed; or, without any, because its container is killed. */
  datatype Exit = Success | MissingVariable | CommandFailed | Killed

  /** Step a is one of the script's own, or ends it; the Job controller may report the job as active at any time. */
  predicate Own(s: Script, a: EnvAction) {
    match s
    case PreScript(n, _, _) => a.OfPre? && a.pre.n == n && !a.pre.PreActive?
    case PostScript(n) => a.OfPost? && a.post.n == n && !a.post.PostActive?
  }

  /** The script has not come to its exit. */
  predicate Running(s: Script, w: World) {
    match s
    case PreScript(n, _, _) => n in w.jobs.pre && !w.jobs.pre[n].pc.PreExit?
    case PostScript(n) => n in w.jobs.post && !w.jobs.post[n].pc.PostExit?
  }

  /** What everybody else leaves alone: the position in the script, and, once a post job exists, the absence of the
      service of its node. */
  ghost predicate LeftAlone(s: Script, w: World, w': World) {
    match s
    case PreScript(n, _, _) =>
      n in w.jobs.pre ==> n in w'.jobs.pre && w'.jobs.pre[n] == w.jobs.pre[n].(active := w'.jobs.pre[n].active)
    case PostScript(n) =>
      n in w.jobs.post ==>
        n in w'.jobs.post && w'.jobs.post[n] == w.jobs.post[n].(active := w'.jobs.post[n].active)
        && (n !in w.nova.services ==> n !in w'.nova.services)
  }

  lemma EnvLeavesAlone(s: Script, w: World, a: EnvAction)
    requires Inv(w) && !Own(s, a)
    ensures LeftAlone(s, w, NextEnv(w, a))
  {
    assert PostInv(w.kube, w.jobs, s.scaleDownNode);
    match a
    case OfPre(b) => OtherPreAlone(s, w, b);
    case OfPost(b) => OtherPostAlone(s, w, b);
    case _ =>
  }

  lemma OtherPreAlone(s: Script, w: World, a: PreAction)
    requires !Own(s, OfPre(a))
    ensures LeftAlone(s, w, NextEnv(w, OfPre(a)))
  {
  }

  lemma OtherPostAlone(s: Script, w: World, a: PostAction)
    requires !Own(s, OfPost(a))
    ensures LeftAlone(s, w, NextEnv(w, OfPost(a)))
  {
  }

  /** The operator does not touch Nova, nor the job of a script that is still running. */
  lemma OperatorLeavesAlone(s: Script, w: World, c: Call, path: Path)
    requires Inv(w) && Running(s, w) && Legal(w, c, path)
    ensures LeftAlone(s, w, Apply(w, c)) && Apply(w, c).nova == w.nova
  {
    assert PreInv(w.kube, w.jobs, s.scaleDownNode) && PostInv(w.kube, w.jobs, s.scaleDownNode);
  }

  // ----- What is on record ----------------------------------------------------------------------------

  /** What a script learns from a listing. */
  datatype Fact = NotEnabled(h: Name) | ActiveAre(n: Name, ids: set<int>)

  ghost predicate Holds(v: Nova, f: Fact) {
    match f
    case NotEnabled(h) => !Enabled(v, h)
    case ActiveAre(n, ids) =>
      forall i :: i in ids <==> i in v.instances && v.instances[i].host == n && v.instances[i].active
  }

  /** The fact held at some moment of the run since the given one. */
  ghost predicate Once(start: World, log: seq<Action>, since: nat, f: Fact) {
    exists k: nat :: HeldAt(start, log, k, f) && since <= k
  }

  ghost predicate HeldAt(start: World, log: seq<Action>, k: nat, f: Fact) {
    k <= |log| && Holds(WorldAt(start, log, k).nova, f)
  }

  lemma StaysOnRecord(start: World, log: seq<Action>, log': seq<Action>, since: nat, f: Fact)
    requires log <= log' && Once(start, log, since, f)
    ensures Once(start, log', since, f)
  {
    var k: nat :| HeldAt(start, log, k, f) && since <= k;
    assert log'[..k] == log[..k];
    assert HeldAt(start, log', k, f);
  }

  lemma NowOnRecord(start: World, log: seq<Action>, since: nat, f: Fact)
    requires since <= |log| && Holds(Exec(start, log).nova, f)
    ensures Once(start, log, since, f)
  {
    assert log[..|log|] == log;
    assert HeldAt(start, log, |log|, f);
  }

  /** Every one of these hosts was at some moment not enabled. */
  ghost predicate SeenOff(start: World, log: seq<Action>, since: nat, hosts: seq<Name>) {
    forall h :: h in hosts ==> Once(start, log, since, NotEnabled(h))
  }

  lemma SeenOffStays(start: World, log: seq<Action>, log': seq<Action>, since: nat, hosts: seq<Name>)
    requires log <= log' && SeenOff(start, log, since, hosts)
    ensures SeenOff(start, log', since, hosts)
  {
    forall h | h in hosts ensures Once(start, log', since, NotEnabled(h)) {
      StaysOnRecord(start, log, log', since, NotEnabled(h));
    }
  }

  lemma OneMoreOff(start: World, log: seq<Action>, log': seq<Action>, since: nat, hosts: seq<Name>, h: Name)
    requires log <= log' && SeenOff(start, log, since, hosts) && since <= |log'|
    requires !Enabled(Exec(start, log').nova, h)
    ensures SeenOff(start, log', since, hosts + [h])
  {
    SeenOffStays(start, log, log', since, hosts);
    NowOnRecord(start, log', since, NotEnabled(h));
  }

  /** The instances a live migration was asked for by the pre job of node n, since the given moment. */
  ghost function Asked(log: seq<Action>, since: nat, n: Name): set<int> {
    if |log| <= since then {}
    else
      var last := log[|log| - 1];
      Asked(log[..|log| - 1], since, n)
      + if last.Env? && last.env.OfPre? && last.env.pre.PreMigrates? && last.env.pre.n == n
        then {last.env.pre.i} else {}
  }

  lemma AskedAfter(log: seq<Action>, a: Action, since: nat, n: Name)
    requires since <= |log|
    ensures Asked(log + [a], since, n) ==
      if a.Env? && a.env.OfPre? && a.env.pre.PreMigrates? && a.env.pre.n == n
      then Asked(log, since, n) + {a.env.pre.i} else Asked(log, since, n)
  {
    assert (log + [a])[..|log + [a]| - 1] == log;
  }

  // ----- Commands -------------------------------------------------------------------------------------

  /** Time passes between two commands: the environment acts, and so does the operator, whose reconciles go on. */
  method Sleep(api: ApiServer, s: Script, ghost since: nat)
    requires api.Valid() && since <= |api.log| && Running(s, api.world)
    modifies api
    ensures api.Valid() && old(api.log) <= api.log && LeftAlone(s, old(api.world), api.world)
    ensures s.PreScript? ==> Asked(api.log, since, s.scaleDownNode) == Asked(old(api.log), since, s.scaleDownNode)
  {
    var acts: seq<Action> := *;
    for i := 0 to |acts|
      invariant api.Valid() && old(api.log) <= api.log && LeftAlone(s, old(api.world), api.world)
      invariant s.PreScript? ==> Asked(api.log, since, s.scaleDownNode) == Asked(old(api.log), since, s.scaleDownNode)
    {
      if LegalAction(api.world, acts[i]) && !(acts[i].Env? && Own(s, acts[i].env)) {
        match acts[i] {
          case Env(e) => EnvLeavesAlone(s, api.world, e);
          case Op(c, path) => OperatorLeavesAlone(s, api.world, c, path);
        }
        AskedAfter(api.log, acts[i], since, s.scaleDownNode);
        api.Record(acts[i]);
      }
    }
  }

  /** The script's next command: a step of its job. */
  method Command(api: ApiServer, s: Script, ghost since: nat, a: EnvAction)
    requires api.Valid() && Own(s, a) && since <= |api.log|
    modifies api
    ensures api.Valid() && old(api.log) <= api.log && api.world == NextEnv(old(api.world), a)
    ensures s.PreScript? ==>
      Asked(api.log, since, s.scaleDownNode) ==
        if a.pre.PreMigrates? then Asked(old(api.log), since, s.scaleDownNode) + {a.pre.i}
        else Asked(old(api.log), since, s.scaleDownNode)
  {
    AskedAfter(api.log, Env(a), since, s.scaleDownNode);
    api.Record(Env(a));
  }

  /** The script is cut off before its next command has taken effect, or goes on. */
  method Interruption() returns (stop: Option<Exit>)
    ensures CutOff(stop)
  {
    var fails, killed: bool := *, *;
    stop := if fails then Some(CommandFailed) else if killed then Some(Killed) else None;
  }

  predicate CutOff(stop: Option<Exit>) { stop == None || stop == Some(CommandFailed) || stop == Some(Killed) }

  // ----- scaledownpre.sh ------------------------------------------------------------------------------

  /** The pre job runs script s and stands at pc; nothing but `asked` was asked for. */
  ghost predicate PreAt(api: ApiServer, s: Script, since: nat, pc: PrePc, asked: set<int>)
    reads api
  {
    && api.Valid() && since <= |api.log| && s.PreScript?
    && s.scaleDownNode in api.world.jobs.pre
    && (var job := api.world.jobs.pre[s.scaleDownNode];
        job.hosts == s.disableServices && job.migrate == s.liveMigration && job.pc == pc)
    && Asked(api.log, since, s.scaleDownNode) == asked
  }

  /** Whether `openstack compute service list` shows the first host of the list as enabled. */
  method ServiceEnabled(api: ApiServer, s: Script, ghost since: nat, hosts: seq<Name>) returns (enabled: bool)
    requires PreAt(api, s, since, Check(hosts), {}) && hosts != []
    modifies api
    ensures old(api.log) <= api.log
    ensures PreAt(api, s, since, if enabled then Disable(hosts) else Check(hosts[1..]), {})
    ensures !enabled ==> !Enabled(api.world.nova, hosts[0])
  {
    Sleep(api, s, since);
    enabled := Enabled(api.world.nova, hosts[0]);
    Command(api, s, since, OfPre(PreRuns(s.scaleDownNode)));
  }

  /** One more `openstack compute service set --disable`, and another look. */
  method DisableOnce(api: ApiServer, s: Script, ghost since: nat, hosts: seq<Name>)
    returns (stop: Option<Exit>, enabled: bool)
    requires PreAt(api, s, since, Disable(hosts), {}) && hosts != []
    modifies api
    ensures api.Valid() && old(api.log) <= api.log && CutOff(stop)
    ensures stop.None? ==> PreAt(api, s, since, if enabled then Disable(hosts) else Check(hosts[1..]), {})
    ensures stop.None? && !enabled ==> !Enabled(api.world.nova, hosts[0])
  {
    stop := Interruption();
    if stop.Some? { return stop, true; }
    Sleep(api, s, since);
    Command(api, s, since, OfPre(PreRuns(s.scaleDownNode)));
    stop := Interruption();
    if stop.Some? { return stop, true; }
    enabled := ServiceEnabled(api, s, since, hosts);
  }

  /** The loop around the disabling of one service.  It ends once the service is seen not enabled, unless the script is
      cut off; it is after at most `polls` rounds. */
  method DisableService(api: ApiServer, s: Script, ghost since: nat, hosts: seq<Name>, polls: nat)
    returns (stop: Option<Exit>)
    requires PreAt(api, s, since, Check(hosts), {}) && hosts != []
    modifies api
    ensures api.Valid() && old(api.log) <= api.log && CutOff(stop)
    ensures stop.None? ==> PreAt(api, s, since, Check(hosts[1..]), {}) && !Enabled(api.world.nova, hosts[0])
  {
    var left := polls;
    stop := Interruption();
    if stop.Some? { return; }
    var enabled := ServiceEnabled(api, s, since, hosts);
    while enabled
      invariant old(api.log) <= api.log
      invariant PreAt(api, s, since, if enabled then Disable(hosts) else Check(hosts[1..]), {})
      invariant !enabled ==> !Enabled(api.world.nova, hosts[0])
      decreases left
    {
      if left == 0 { return Some(Killed); }
      left := left - 1;
      stop, enabled := DisableOnce(api, s, since, hosts);
      if stop.Some? { return; }
    }
    stop := Interruption();
  }

  /** The loop over the hosts of the disable list. */
  method DisableServices(api: ApiServer, s: Script, ghost since: nat, polls: nat) returns (stop: Option<Exit>)
    requires s.PreScript? && PreAt(api, s, since, Check(s.disableServices), {})
    modifies api
    ensures api.Valid() && old(api.log) <= api.log && CutOff(stop)
    ensures stop.None? ==> PreAt(api, s, since, Check([]), {}) && SeenOff(api.start, api.log, since, s.disableServices)
  {
    var hosts := s.disableServices;
    for k := 0 to |hosts|
      invariant old(api.log) <= api.log
      invariant PreAt(api, s, since, Check(hosts[k..]), {}) && SeenOff(api.start, api.log, since, hosts[..k])
    {
      ghost var before := api.log;
      stop := DisableService(api, s, since, hosts[k..], polls);
      if stop.Some? { return; }
      OneMoreOff(api.start, before, api.log, since, hosts[..k], hosts[k]);
      assert hosts[..k] + [hosts[k]] == hosts[..k + 1] && hosts[k..][1..] == hosts[k + 1..];
    }
    assert hosts[..|hosts|] == hosts && hosts[|hosts|..] == [];
    stop := None;
  }

  /** `openstack server list --status ACTIVE`, and `nova live-migration` for each of the instances if enabled. */
  method MigrateInstances(api: ApiServer, s: Script, ghost since: nat)
    returns (stop: Option<Exit>, ghost listed: set<int>)
    requires PreAt(api, s, since, Check([]), {})
    modifies api
    ensures api.Valid() && old(api.log) <= api.log && CutOff(stop)
    ensures stop.None? ==> PreAt(api, s, since, Wait, if s.liveMigration then listed else {})
    ensures stop.None? ==> Once(api.start, api.log, since, ActiveAre(s.scaleDownNode, listed))
  {
    stop := Interruption();
    if stop.Some? { return stop, {}; }
    Sleep(api, s, since);
    var instances := ActiveOn(api.world.nova, s.scaleDownNode);
    listed := instances;
    NowOnRecord(api.start, api.log, since, ActiveAre(s.scaleDownNode, listed));
    ghost var log := api.log;
    Command(api, s, since, OfPre(PreRuns(s.scaleDownNode)));
    if s.liveMigration { stop := RequestMigrations(api, s, since, instances); }
    StaysOnRecord(api.start, log, api.log, since, ActiveAre(s.scaleDownNode, listed));
  }

  method RequestMigrations(api: ApiServer, s: Script, ghost since: nat, ids: set<int>) returns (stop: Option<Exit>)
    requires PreAt(api, s, since, Migrate(ids), {})
    modifies api
    ensures api.Valid() && old(api.log) <= api.log && CutOff(stop)
    ensures stop.None? ==> PreAt(api, s, since, Wait, ids)
  {
    var left := ids;
    while exists i :: i in left
      invariant old(api.log) <= api.log
      invariant left <= ids && PreAt(api, s, since, Migrate(left), ids - left)
      decreases |left|
    {
      stop := Interruption();
      if stop.Some? { return; }
      var i :| i in left;
      RequestMigration(api, s, since, left, i, ids - left);
      OneLess(ids, left, i);
      left := left - {i};
    }
    assert left == {};
    Command(api, s, since, OfPre(PreRuns(s.scaleDownNode)));
    stop := None;
  }

  lemma OneLess(ids: set<int>, left: set<int>, i: int)
    requires i in left && left <= ids
    ensures ids - (left - {i}) == (ids - left) + {i} && |left - {i}| < |left|
  {
    assert left == (left - {i}) + {i};
  }

  method RequestMigration(api: ApiServer, s: Script, ghost since: nat, ghost left: set<int>, i: int, ghost asked: set<int>)
    requires PreAt(api, s, since, Migrate(left), asked) && i in left
    modifies api
    ensures old(api.log) <= api.log && PreAt(api, s, since, Migrate(left - {i}), asked + {i})
  {
    Sleep(api, s, since);
    Command(api, s, since, OfPre(PreMigrates(s.scaleDownNode, i)));
  }

  /** The final wait: `openstack server list` until the node has no instance left, in any state. */
  method WaitUntilEmpty(api: ApiServer, s: Script, ghost since: nat, polls: nat, ghost asked: set<int>)
    returns (stop: Option<Exit>)
    requires PreAt(api, s, since, Wait, asked)
    modifies api
    ensures api.Valid() && old(api.log) <= api.log && CutOff(stop)
    ensures stop.None? ==>
      forall i :: i in api.world.nova.instances ==> api.world.nova.instances[i].host != s.scaleDownNode
    ensures stop.None? ==> PreAt(api, s, since, PreExit, asked) && Empty(api.world.nova, s.scaleDownNode)
  {
    var left := polls;
    stop := Interruption();
    if stop.Some? { return; }
    Sleep(api, s, since);
    var onWorker := !Empty(api.world.nova, s.scaleDownNode);
    Command(api, s, since, OfPre(PreRuns(s.scaleDownNode)));
    while onWorker
      invariant old(api.log) <= api.log
      invariant PreAt(api, s, since, if onWorker then Wait else PreExit, asked)
      invariant !onWorker ==> Empty(api.world.nova, s.scaleDownNode)
      decreases left
    {
      if left == 0 { return Some(Killed); }
      left := left - 1;
      stop := Interruption();
      if stop.Some? { return; }
      Sleep(api, s, since);
      onWorker := !Empty(api.world.nova, s.scaleDownNode);
      Command(api, s, since, OfPre(PreRuns(s.scaleDownNode)));
    }
    stop := None;
  }

  /** scaledownpre.sh.  Success means that the pre job of the model stands at its exit, that the node is empty,
      that every host on the disable list was seen not enabled, and that a live migration was asked for, if at all,
      for exactly the instances that were ACTIVE on the node at one moment.  It ends for a missing variable exactly when
      one is missing, and then before its first command. */
  method ScaleDownPre(api: ApiServer, s: Script, polls: nat) returns (exit: Exit, ghost listed: set<int>)
    requires api.Valid() && s.PreScript?
    requires s.scaleDownNode != "" && s.disableServices != [] ==>
      PreAt(api, s, |api.log|, Check(s.disableServices), {})
    modifies api
    ensures api.Valid() && old(api.log) <= api.log
    ensures s.scaleDownNode == "" || s.disableServices == [] <==> exit.MissingVariable?
    ensures exit.MissingVariable? ==> api.log == old(api.log)
    ensures exit.Success? ==>
      && PreAt(api, s, |old(api.log)|, PreExit, if s.liveMigration then listed else {})
      && Once(api.start, api.log, |old(api.log)|, ActiveAre(s.scaleDownNode, listed))
      && SeenOff(api.start, api.log, |old(api.log)|, s.disableServices)
      && forall i :: i in api.world.nova.instances ==> api.world.nova.instances[i].host != s.scaleDownNode
  {
    listed := {};
    ghost var since := |api.log|;
    if s.scaleDownNode == "" || s.disableServices == [] { return MissingVariable, {}; }
    var stop := DisableServices(api, s, since, polls);
    if stop.Some? { return stop.value, {}; }
    ghost var log1 := api.log;
    stop, listed := MigrateInstances(api, s, since);
    if stop.Some? { return stop.value, listed; }
    ghost var log2 := api.log;
    stop := WaitUntilEmpty(api, s, since, polls, if s.liveMigration then listed else {});
    if stop.Some? { return stop.value, listed; }
    StaysOnRecord(api.start, log2, api.log, since, ActiveAre(s.scaleDownNode, listed));
    SeenOffStays(api.start, log1, api.log, since, s.disableServices);
    exit := Success;
  }

  // ----- scaledownpost.sh -----------------------------------------------------------------------------

  ghost predicate PostAt(api: ApiServer, s: Script, pc: PostPc)
    reads api
  {
    && api.Valid() && s.PostScript? && s.scaleDownNode in api.world.jobs.post
    && api.world.jobs.post[s.scaleDownNode].pc == pc
    && (!pc.ListService? && !pc.DeleteService? ==> s.scaleDownNode !in api.world.nova.services)
  }

  /** Runs the command the post script stands at; `accepted` is the server's answer to a deletion. */
  method PostCommand(api: ApiServer, s: Script, accepted: bool, pc: PostPc) returns (found: bool)
    requires PostAt(api, s, pc) && !pc.PostExit?
    modifies api
    ensures old(api.log) <= api.log
    ensures pc.ListService? ==> PostAt(api, s, if found then DeleteService else ListProvider)
    ensures pc.DeleteService? ==> PostAt(api, s, ListService)
    ensures pc.ListProvider? ==>
      PostAt(api, s, if found then DeleteProvider else PostExit)
      && (!found ==> s.scaleDownNode !in api.world.nova.providers)
    ensures pc.DeleteProvider? ==> PostAt(api, s, ListProvider)
  {
    Sleep(api, s, 0);
    found := if pc.ListService? then s.scaleDownNode in api.world.nova.services
             else s.scaleDownNode in api.world.nova.providers;
    Command(api, s, 0, OfPost(PostRuns(s.scaleDownNode, accepted)));
  }

  /** One more `openstack compute service delete`, and another look. */
  method DeleteServiceOnce(api: ApiServer, s: Script) returns (stop: Option<Exit>, found: bool)
    requires PostAt(api, s, DeleteService)
    modifies api
    ensures api.Valid() && old(api.log) <= api.log && CutOff(stop)
    ensures stop.None? ==> PostAt(api, s, if found then DeleteService else ListProvider)
  {
    stop := Interruption();
    if stop.Some? { return stop, true; }
    var _ := PostCommand(api, s, true, DeleteService);
    stop := Interruption();
    if stop.Some? { return stop, true; }
    found := PostCommand(api, s, true, ListService);
  }

  /** Deletes the compute service until it is not listed any more. */
  method DeleteComputeService(api: ApiServer, s: Script, polls: nat) returns (stop: Option<Exit>)
    requires PostAt(api, s, ListService)
    modifies api
    ensures api.Valid() && old(api.log) <= api.log && CutOff(stop)
    ensures stop.None? ==> PostAt(api, s, ListProvider)
  {
    var left := polls;
    stop := Interruption();
    if stop.Some? { return; }
    var found := PostCommand(api, s, true, ListService);
    while found
      invariant old(api.log) <= api.log
      invariant PostAt(api, s, if found then DeleteService else ListProvider)
      decreases left
    {
      if left == 0 { return Some(Killed); }
      left := left - 1;
      stop, found := DeleteServiceOnce(api, s);
      if stop.Some? { return; }
    }
    stop := None;
  }

  /** One more `openstack resource provider delete || true`, and another look. */
  method DeleteProviderOnce(api: ApiServer, s: Script) returns (stop: Option<Exit>, found: bool)
    requires PostAt(api, s, DeleteProvider)
    modifies api
    ensures api.Valid() && old(api.log) <= api.log && CutOff(stop)
    ensures stop.None? ==> PostAt(api, s, if found then DeleteProvider else PostExit)
    ensures stop.None? && !found ==> s.scaleDownNode !in api.world.nova.providers
  {
    var accepted: bool := *;
    var _ := PostCommand(api, s, accepted, DeleteProvider);
    stop := Interruption();
    if stop.Some? { return stop, true; }
    found := PostCommand(api, s, true, ListProvider);
  }

  /** Deletes the resource provider, whatever placement answers, until it is not listed any more. */
  method DeleteResourceProvider(api: ApiServer, s: Script, polls: nat) returns (stop: Option<Exit>)
    requires PostAt(api, s, ListProvider)
    modifies api
    ensures api.Valid() && old(api.log) <= api.log && CutOff(stop)
    ensures stop.None? ==> PostAt(api, s, PostExit) && s.scaleDownNode !in api.world.nova.providers
  {
    var left := polls;
    stop := Interruption();
    if stop.Some? { return; }
    var found := PostCommand(api, s, true, ListProvider);
    while found
      invariant old(api.log) <= api.log
      invariant PostAt(api, s, if found then DeleteProvider else PostExit)
      invariant !found ==> s.scaleDownNode !in api.world.nova.providers
      decreases left
    {
      if left == 0 { return Some(Killed); }
      left := left - 1;
      stop, found := DeleteProviderOnce(api, s);
      if stop.Some? { return; }
    }
    stop := None;
  }

  /** scaledownpost.sh.  Success means that the post job of the model stands at its exit and that neither the compute
      service nor the resource provider of the node is left. */
  method ScaleDownPost(api: ApiServer, s: Script, polls: nat) returns (exit: Exit)
    requires api.Valid() && s.PostScript? && (s.scaleDownNode != "" ==> PostAt(api, s, ListService))
    modifies api
    ensures api.Valid() && old(api.log) <= api.log
    ensures s.scaleDownNode == "" <==> exit.MissingVariable?
    ensures exit.MissingVariable? ==> api.log == old(api.log)
    ensures exit.Success? ==>
      && PostAt(api, s, PostExit)
      && s.scaleDownNode !in api.world.nova.services && s.scaleDownNode !in api.world.nova.providers
  {
    if s.scaleDownNode == "" { return MissingVariable; }
    var stop := DeleteComputeService(api, s, polls);
    if stop.Some? { return stop.value; }
    stop := DeleteResourceProvider(api, s, polls);
    exit := if stop.Some? then stop.value else Success;
  }
}
