/** Drain safety read off a run: the steps that must have happened, in which order, before a blocker pod
    loses its finalizer. */
module History {
  import opened Model
  import opened Protocol

  /** The world before step i of a log. */
  ghost function WorldAt(start: World, log: seq<Action>, i: nat): World
    requires i <= |log|
  {
    Exec(start, log[..i])
  }

  lemma StepAt(start: World, log: seq<Action>, i: nat)
    requires i < |log|
    ensures WorldAt(start, log, i + 1) == Next(WorldAt(start, log, i), log[i])
  {
    assert log[..i + 1][..i] == log[..i];
  }

  /** Every prefix of a lawful run is lawful: a crash leaves a lawful run. */
  lemma {:induction false} LawfulPrefix(start: World, log: seq<Action>, i: nat)
    requires i <= |log| && Lawful(start, log)
    ensures Lawful(start, log[..i])
    ensures i < |log| ==> LegalAction(WorldAt(start, log, i), log[i])
    decreases |log|
  {
    if i == |log| {
      assert log[..i] == log;
    } else if i == |log| - 1 {
    } else {
      var front := log[..|log| - 1];
      LawfulPrefix(start, front, i);
      assert front[..i] == log[..i];
    }
  }

  /** A world in which no drain was ever started and no reconcile is under way. */
  ghost predicate Untouched(w: World) {
    Inv(w) && w.books == NO_BOOKS && !w.contested && w.jobs.pre == map[] && w.jobs.post == map[] && w.jobs.drained == {}
  }

  /** Step j lists the nodes for the deletion path, and `listed` are all nodes there are at that moment. */
  ghost predicate TakesListing(start: World, log: seq<Action>, j: nat, listed: set<Name>) {
    && j < |log| && log[j].Op? && log[j].call.ListForDeletion?
    && listed == WorldAt(start, log, j).kube.nodes.Keys
  }

  /** The listing was taken at some step from `since` on. */
  ghost predicate ListedSince(start: World, log: seq<Action>, since: nat, listing: Option<set<Name>>) {
    listing.Some? && exists j: nat :: since <= j && TakesListing(start, log, j, listing.value)
  }

  lemma JustListed(start: World, log: seq<Action>, since: nat, path: Path)
    requires since <= |log|
    ensures ListedSince(start, log + [Op(ListForDeletion, path)], since, Some(Exec(start, log).kube.nodes.Keys))
  {
    var more := log + [Op(ListForDeletion, path)];
    assert more[..|log|] == log;
    assert TakesListing(start, more, |log|, Exec(start, log).kube.nodes.Keys);
  }

  lemma ListedStays(start: World, log: seq<Action>, log': seq<Action>, since: nat, listing: Option<set<Name>>)
    requires log <= log' && ListedSince(start, log, since, listing)
    ensures ListedSince(start, log', since, listing)
  {
    var j: nat :| since <= j && TakesListing(start, log, j, listing.value);
    assert log'[..j] == log[..j];
    assert TakesListing(start, log', j, listing.value);
  }

  // ----- Milestones of blocker pod u of node n --------------------------------------------------------

  /** Step i creates the pre job. */
  ghost predicate CreatesPre(start: World, log: seq<Action>, i: nat, n: Name) {
    i < |log| && log[i].Op? && log[i].call.CreatePre? && log[i].call.n == n
    && n !in WorldAt(start, log, i).jobs.pre
  }

  /** Step i is the success of the pre job. */
  ghost predicate PreWins(start: World, log: seq<Action>, i: nat, n: Name) {
    i < |log| && log[i] == Env(OfPre(PreSucceeds(n)))
    && !PreDone(WorldAt(start, log, i), n) && PreDone(WorldAt(start, log, i + 1), n)
  }

  /** Step i creates the post job, on a tainted node. */
  ghost predicate CreatesPost(start: World, log: seq<Action>, i: nat, n: Name) {
    i < |log| && log[i].Op? && log[i].call.CreatePost? && log[i].call.n == n
    && n !in WorldAt(start, log, i).jobs.post && Tainted(WorldAt(start, log, i), n)
  }

  /** Step i is the success of the post job. */
  ghost predicate PostWins(start: World, log: seq<Action>, i: nat, n: Name) {
    i < |log| && log[i] == Env(OfPost(PostSucceeds(n))) && PostDone(WorldAt(start, log, i + 1), n)
  }

  /** Pod u protects node n in every world from a to i. */
  ghost predicate Guards(start: World, log: seq<Action>, a: nat, i: nat, n: Name, u: int) {
    a <= i <= |log| &&
    forall k :: a <= k <= i ==>
      HasFinalizer(WorldAt(start, log, k), n) && WorldAt(start, log, k).kube.pods[n].uid == u
  }

  ghost predicate PreExists(start: World, log: seq<Action>, a: nat, i: nat, n: Name) {
    a <= i <= |log| && forall k :: a < k <= i ==> n in WorldAt(start, log, k).jobs.pre
  }

  ghost predicate PreStaysDone(start: World, log: seq<Action>, b: nat, i: nat, n: Name) {
    b <= i <= |log| && forall k :: b < k <= i ==> PreDone(WorldAt(start, log, k), n)
  }

  ghost predicate PostExists(start: World, log: seq<Action>, c: nat, i: nat, n: Name) {
    c <= i <= |log| && forall k :: c < k <= i ==> n in WorldAt(start, log, k).jobs.post
  }

  ghost predicate Started(start: World, log: seq<Action>, i: nat, n: Name, u: int, a: nat) {
    a < i && CreatesPre(start, log, a, n) && Guards(start, log, a, i, n, u) && PreExists(start, log, a, i, n)
  }

  ghost predicate PreFinished(start: World, log: seq<Action>, i: nat, n: Name, u: int, a: nat, b: nat) {
    a < b < i && Started(start, log, b, n, u, a) && PreWins(start, log, b, n)
    && Guards(start, log, a, i, n, u) && PreStaysDone(start, log, b, i, n)
  }

  ghost predicate PostStarted(start: World, log: seq<Action>, i: nat, n: Name, u: int, a: nat, b: nat, c: nat) {
    b < c < i && PreFinished(start, log, c, n, u, a, b) && CreatesPost(start, log, c, n)
    && Guards(start, log, a, i, n, u) && PostExists(start, log, c, i, n)
  }

  /** The full drain of pod u of node n, before step i: the pre job was created (a) and succeeded (b), then the
      post job was created on the tainted node while the pre job was still there and done (c), and succeeded
      (d); the pod kept its finalizer throughout. */
  ghost predicate FullDrain(start: World, log: seq<Action>, i: nat, n: Name, u: int,
                            a: nat, b: nat, c: nat, d: nat) {
    c < d < i && PostStarted(start, log, d, n, u, a, b, c) && PostWins(start, log, d, n)
    && Guards(start, log, a, i, n, u)
  }

  ghost predicate WasStarted(start: World, log: seq<Action>, i: nat, n: Name, u: int) {
    exists a :: Started(start, log, i, n, u, a)
  }

  ghost predicate WasPreFinished(start: World, log: seq<Action>, i: nat, n: Name, u: int) {
    exists a, b :: PreFinished(start, log, i, n, u, a, b)
  }

  ghost predicate WasPostStarted(start: World, log: seq<Action>, i: nat, n: Name, u: int) {
    exists a, b, c :: PostStarted(start, log, i, n, u, a, b, c)
  }

  ghost predicate WasDrained(start: World, log: seq<Action>, i: nat, n: Name, u: int) {
    exists a, b, c, d :: FullDrain(start, log, i, n, u, a, b, c, d)
  }

  /** What the world before step i says about the past. */
  ghost predicate Explained(start: World, log: seq<Action>, i: nat, n: Name)
    requires i <= |log|
  {
    var w := WorldAt(start, log, i);
    HasFinalizer(w, n) ==>
      var u := w.kube.pods[n].uid;
      && (n in w.jobs.pre ==> WasStarted(start, log, i, n, u))
      && (PreDone(w, n) ==> WasPreFinished(start, log, i, n, u))
      && (n in w.jobs.post ==> WasPostStarted(start, log, i, n, u))
      && (Drained(w, n) ==> WasDrained(start, log, i, n, u))
  }

  /** A step never swaps the pod that protects a node. */
  lemma SamePodAfterStep(w: World, a: Action, n: Name)
    requires HasFinalizer(Next(w, a), n)
    ensures HasFinalizer(w, n) ==> Next(w, a).kube.pods[n] == w.kube.pods[n]
    ensures !HasFinalizer(w, n) ==> a.Op? && a.call.CreateBlocker? && a.call.n == n && n !in w.kube.pods
  {
    match a
    case Env(e) => CalmStep(w, e); assert KeptNode(w.kube, NextEnv(w, e).kube, n);
    case Op(c, _) => PodsAfterCall(w, c);
  }

  /** How a step can move the drain of node n forward. */
  lemma ForwardStep(w: World, a: Action, n: Name)
    requires LegalAction(w, a)
    ensures var w' := Next(w, a);
      && (n in w'.jobs.pre && n !in w.jobs.pre ==> a.Op? && a.call.CreatePre? && a.call.n == n)
      && (PreDone(w', n) && !PreDone(w, n) ==> a == Env(OfPre(PreSucceeds(n))) && n in w.jobs.pre)
      && (n in w'.jobs.post && n !in w.jobs.post ==>
            a.Op? && a.call.CreatePost? && a.call.n == n && PreDone(w, n) && Tainted(w, n))
  {
    match a
    case Env(e) => EnvForward(w, e, n);
    case Op(c, _) =>
  }

  lemma EnvForward(w: World, e: EnvAction, n: Name)
    ensures var w' := NextEnv(w, e);
      && (n in w'.jobs.pre <==> n in w.jobs.pre) && (n in w'.jobs.post <==> n in w.jobs.post)
      && (PreDone(w', n) && !PreDone(w, n) ==> e == OfPre(PreSucceeds(n)) && n in w.jobs.pre)
  {
    CalmStep(w, e);
    assert n in NextEnv(w, e).jobs.pre.Keys <==> n in w.jobs.pre.Keys;
    assert n in NextEnv(w, e).jobs.post.Keys <==> n in w.jobs.post.Keys;
  }

  /** A pod becomes drained only by the success of its own post job. */
  lemma DrainStep(w: World, a: Action, n: Name)
    requires Inv(w) && LegalAction(w, a)
    requires HasFinalizer(w, n) && HasFinalizer(Next(w, a), n)
    requires Drained(Next(w, a), n) && !Drained(w, n)
    ensures a == Env(OfPost(PostSucceeds(n))) && n in w.jobs.post && PostDone(Next(w, a), n)
  {
    SamePodAfterStep(w, a, n);
    if a.Env? && a.env.OfPost? {
      assert PostInv(w.kube, w.jobs, a.env.post.n);
    } else {
      OnlyPostDrains(w, a);
    }
  }

  lemma OnlyPostDrains(w: World, a: Action)
    requires !(a.Env? && a.env.OfPost?)
    ensures Next(w, a).jobs.drained == w.jobs.drained
  {
  }

  /** Only the operator takes a finalizer off. */
  lemma LosesFinalizer(w: World, a: Action, n: Name)
    requires HasFinalizer(w, n) && !HasFinalizer(Next(w, a), n)
    ensures a.Op? && a.call == RemoveFinalizer(n)
  {
    match a
    case Env(e) => assert Calm(w, NextEnv(w, e)) ==> KeptNode(w.kube, NextEnv(w, e).kube, n); CalmStep(w, e);
    case Op(_, _) =>
  }

  lemma StartedGoesOn(start: World, log: seq<Action>, i: nat, n: Name, u: int)
    requires i < |log| && WasStarted(start, log, i, n, u)
    requires n in WorldAt(start, log, i + 1).jobs.pre && Guards(start, log, i + 1, i + 1, n, u)
    ensures WasStarted(start, log, i + 1, n, u)
  {
    var a :| Started(start, log, i, n, u, a);
    assert Started(start, log, i + 1, n, u, a);
  }

  lemma PreFinishedGoesOn(start: World, log: seq<Action>, i: nat, n: Name, u: int)
    requires i < |log| && WasPreFinished(start, log, i, n, u)
    requires PreDone(WorldAt(start, log, i + 1), n) && Guards(start, log, i + 1, i + 1, n, u)
    ensures WasPreFinished(start, log, i + 1, n, u)
  {
    var a, b :| PreFinished(start, log, i, n, u, a, b);
    assert PreFinished(start, log, i + 1, n, u, a, b);
  }

  lemma GuardsLonger(start: World, log: seq<Action>, a: nat, i: nat, n: Name, u: int)
    requires i < |log| && Guards(start, log, a, i, n, u) && Guards(start, log, i + 1, i + 1, n, u)
    ensures Guards(start, log, a, i + 1, n, u)
  {
  }

  lemma PostExistsLonger(start: World, log: seq<Action>, c: nat, i: nat, n: Name)
    requires i < |log| && PostExists(start, log, c, i, n) && n in WorldAt(start, log, i + 1).jobs.post
    ensures PostExists(start, log, c, i + 1, n)
  {
  }

  lemma PostStartedGoesOn(start: World, log: seq<Action>, i: nat, n: Name, u: int)
    requires i < |log| && WasPostStarted(start, log, i, n, u)
    requires n in WorldAt(start, log, i + 1).jobs.post && Guards(start, log, i + 1, i + 1, n, u)
    ensures WasPostStarted(start, log, i + 1, n, u)
  {
    var a, b, c :| PostStarted(start, log, i, n, u, a, b, c);
    GuardsLonger(start, log, a, i, n, u);
    PostExistsLonger(start, log, c, i, n);
    assert PostStarted(start, log, i + 1, n, u, a, b, c);
  }

  lemma DrainedGoesOn(start: World, log: seq<Action>, i: nat, n: Name, u: int)
    requires i < |log| && WasDrained(start, log, i, n, u)
    requires Guards(start, log, i + 1, i + 1, n, u)
    ensures WasDrained(start, log, i + 1, n, u)
  {
    var a, b, c, d :| FullDrain(start, log, i, n, u, a, b, c, d);
    assert FullDrain(start, log, i + 1, n, u, a, b, c, d);
  }

  /** The explanation carries over one step. */
  lemma ExplainStep(start: World, log: seq<Action>, i: nat, n: Name)
    requires i < |log| && Lawful(start, log) && Inv(WorldAt(start, log, i))
    requires LegalAction(WorldAt(start, log, i), log[i]) && Inv(WorldAt(start, log, i + 1))
    requires Explained(start, log, i, n)
    ensures Explained(start, log, i + 1, n)
  {
    var w, w' := WorldAt(start, log, i), WorldAt(start, log, i + 1);
    StepAt(start, log, i);
    if HasFinalizer(w', n) {
      SamePodAfterStep(w, log[i], n);
      if HasFinalizer(w, n) {
        var u := w'.kube.pods[n].uid;
        assert Guards(start, log, i + 1, i + 1, n, u);
        ExplainJobs(start, log, i, n, u);
        ExplainDrained(start, log, i, n, u);
      } else {
        NewPodIsFresh(w, log[i], n);
      }
    }
  }

  lemma NewPodIsFresh(w: World, a: Action, n: Name)
    requires Inv(w) && LegalAction(w, a) && !HasFinalizer(w, n) && HasFinalizer(Next(w, a), n)
    ensures n !in Next(w, a).jobs.pre && n !in Next(w, a).jobs.post && !Drained(Next(w, a), n)
  {
    SamePodAfterStep(w, a, n);
    assert PreInv(w.kube, w.jobs, n) && PostInv(w.kube, w.jobs, n);
  }

  lemma ExplainDrained(start: World, log: seq<Action>, i: nat, n: Name, u: int)
    requires i < |log| && Inv(WorldAt(start, log, i)) && LegalAction(WorldAt(start, log, i), log[i])
    requires Explained(start, log, i, n) && HasFinalizer(WorldAt(start, log, i), n)
    requires u == WorldAt(start, log, i).kube.pods[n].uid && Guards(start, log, i + 1, i + 1, n, u)
    ensures Drained(WorldAt(start, log, i + 1), n) ==> WasDrained(start, log, i + 1, n, u)
  {
    StepAt(start, log, i);
    if Drained(WorldAt(start, log, i + 1), n) {
      if Drained(WorldAt(start, log, i), n) { DrainedGoesOn(start, log, i, n, u); } else {
        DrainStep(WorldAt(start, log, i), log[i], n);
        DrainFinishes(start, log, i, n, u);
      }
    }
  }

  lemma DrainFinishes(start: World, log: seq<Action>, i: nat, n: Name, u: int)
    requires i < |log| && WasPostStarted(start, log, i, n, u) && PostWins(start, log, i, n)
    requires Guards(start, log, i + 1, i + 1, n, u)
    ensures WasDrained(start, log, i + 1, n, u)
  {
    var a, b, c :| PostStarted(start, log, i, n, u, a, b, c);
    assert FullDrain(start, log, i + 1, n, u, a, b, c, i);
  }

  lemma ExplainJobs(start: World, log: seq<Action>, i: nat, n: Name, u: int)
    requires i < |log| && LegalAction(WorldAt(start, log, i), log[i])
    requires Explained(start, log, i, n) && HasFinalizer(WorldAt(start, log, i), n)
    requires u == WorldAt(start, log, i).kube.pods[n].uid && Guards(start, log, i + 1, i + 1, n, u)
    ensures var w' := WorldAt(start, log, i + 1);
      && (n in w'.jobs.pre ==> WasStarted(start, log, i + 1, n, u))
      && (PreDone(w', n) ==> WasPreFinished(start, log, i + 1, n, u))
      && (n in w'.jobs.post ==> WasPostStarted(start, log, i + 1, n, u))
  {
    var w, w' := WorldAt(start, log, i), WorldAt(start, log, i + 1);
    StepAt(start, log, i);
    ForwardStep(w, log[i], n);
    if n in w'.jobs.pre {
      if n in w.jobs.pre { StartedGoesOn(start, log, i, n, u); } else {
        assert Started(start, log, i + 1, n, u, i);
      }
    }
    if PreDone(w', n) {
      if PreDone(w, n) { PreFinishedGoesOn(start, log, i, n, u); } else { PreFinishes(start, log, i, n, u); }
    }
    if n in w'.jobs.post {
      if n in w.jobs.post { PostStartedGoesOn(start, log, i, n, u); } else { PostStarts(start, log, i, n, u); }
    }
  }

  lemma PreFinishes(start: World, log: seq<Action>, i: nat, n: Name, u: int)
    requires i < |log| && WasStarted(start, log, i, n, u) && PreWins(start, log, i, n)
    requires Guards(start, log, i + 1, i + 1, n, u)
    ensures WasPreFinished(start, log, i + 1, n, u)
  {
    var a :| Started(start, log, i, n, u, a);
    assert PreFinished(start, log, i + 1, n, u, a, i);
  }

  lemma PostStarts(start: World, log: seq<Action>, i: nat, n: Name, u: int)
    requires i < |log| && WasPreFinished(start, log, i, n, u) && CreatesPost(start, log, i, n)
    requires Guards(start, log, i + 1, i + 1, n, u) && n in WorldAt(start, log, i + 1).jobs.post
    ensures WasPostStarted(start, log, i + 1, n, u)
  {
    var a, b :| PreFinished(start, log, i, n, u, a, b);
    assert PostStarted(start, log, i + 1, n, u, a, b, i);
  }

  lemma {:induction false} RunExplained(start: World, log: seq<Action>, i: nat, n: Name)
    requires Untouched(start) && Lawful(start, log) && i <= |log|
    ensures Inv(WorldAt(start, log, i)) && Explained(start, log, i, n)
  {
    LawfulPrefix(start, log, i);
    LawfulRunsKeepInv(start, log[..i]);
    if i > 0 {
      RunExplained(start, log, i - 1, n);
      LawfulPrefix(start, log, i - 1);
      ExplainStep(start, log, i - 1, n);
    }
  }

  /** DRAIN SAFETY.  In every lawful run, cut off anywhere, whichever path and however often retried: when step
      i takes the finalizer off the blocker pod u of node n, the full drain of that very pod lies behind. */
  lemma {:induction false} FinalizerGoesOnlyAfterFullDrain(start: World, log: seq<Action>, i: nat, n: Name)
    requires Untouched(start) && Lawful(start, log) && i < |log|
    requires HasFinalizer(WorldAt(start, log, i), n) && !HasFinalizer(WorldAt(start, log, i + 1), n)
    ensures WasDrained(start, log, i, n, WorldAt(start, log, i).kube.pods[n].uid)
  {
    RunExplained(start, log, i, n);
    LawfulPrefix(start, log, i);
    StepAt(start, log, i);
    LosesFinalizer(WorldAt(start, log, i), log[i], n);
  }

  /** NO STALE SUCCESS.  Any success of a drain job seen at any moment belongs to a job that was created
      while the present blocker pod already protected the node. */
  lemma SuccessIsNeverStale(start: World, log: seq<Action>, i: nat, n: Name)
    requires Untouched(start) && Lawful(start, log) && i <= |log|
    ensures var w := WorldAt(start, log, i);
      && (PreDone(w, n) ==> HasFinalizer(w, n) && w.jobs.pre[n].pod == w.kube.pods[n].uid
                            && WasPreFinished(start, log, i, n, w.kube.pods[n].uid))
      && (PostDone(w, n) ==> HasFinalizer(w, n) && w.jobs.post[n].pod == w.kube.pods[n].uid
                             && WasDrained(start, log, i, n, w.kube.pods[n].uid))
  {
    RunExplained(start, log, i, n);
    var w := WorldAt(start, log, i);
    assert PreInv(w.kube, w.jobs, n) && PostInv(w.kube, w.jobs, n);
  }

  /** A blocker pod that is new for its node name starts without drain jobs. */
  lemma {:induction false} FreshBlockerHasNoJobs(start: World, log: seq<Action>, n: Name)
    requires Untouched(start) && Lawful(start, log) && n !in Exec(start, log).kube.pods
    ensures var w' := Apply(Exec(start, log), CreateBlocker(n));
      HasFinalizer(w', n) && !Drained(w', n) && n !in w'.jobs.pre && n !in w'.jobs.post
  {
    LawfulRunsKeepInv(start, log);
    var w := Exec(start, log);
    assert PreInv(w.kube, w.jobs, n) && PostInv(w.kube, w.jobs, n);
  }

  // ----- One pod, one period of protection ------------------------------------------------------------

  ghost predicate GuardedBy(w: World, n: Name, u: int) { HasFinalizer(w, n) && w.kube.pods[n].uid == u }

  /** A pod that does not protect its node any more never does again: names may return, uids do not. */
  lemma GoneForGood(w: World, a: Action, n: Name, u: int)
    requires Inv(w) && !GuardedBy(w, n, u) && u < w.kube.nextUid
    ensures !GuardedBy(Next(w, a), n, u) && u < Next(w, a).kube.nextUid
  {
    match a
    case Env(e) => CalmStep(w, e); assert KeptNode(w.kube, NextEnv(w, e).kube, n);
    case Op(c, _) => PodsAfterCall(w, c);
  }

  /** Between two moments at which pod u protects n, it does so all the time. */
  lemma {:induction false} GuardsBetween(start: World, log: seq<Action>, a: nat, i: nat, n: Name, u: int)
    requires Inv(start) && Lawful(start, log) && a <= i <= |log|
    requires GuardedBy(WorldAt(start, log, a), n, u) && GuardedBy(WorldAt(start, log, i), n, u)
    ensures Guards(start, log, a, i, n, u)
    decreases i
  {
    if a < i {
      UidInUse(start, log, a, i - 1, n, u);
      GuardedBefore(start, log, i, n, u);
      GuardsBetween(start, log, a, i - 1, n, u);
    }
  }

  lemma UidInUse(start: World, log: seq<Action>, a: nat, i: nat, n: Name, u: int)
    requires Inv(start) && Lawful(start, log) && a <= i <= |log| && GuardedBy(WorldAt(start, log, a), n, u)
    ensures u < WorldAt(start, log, i).kube.nextUid
  {
    LawfulPrefix(start, log, a);
    LawfulRunsKeepInv(start, log[..a]);
    NextUidGrows(start, log, a, i);
  }

  lemma GuardedBefore(start: World, log: seq<Action>, i: nat, n: Name, u: int)
    requires Inv(start) && Lawful(start, log) && 0 < i <= |log| && GuardedBy(WorldAt(start, log, i), n, u)
    requires u < WorldAt(start, log, i - 1).kube.nextUid
    ensures GuardedBy(WorldAt(start, log, i - 1), n, u)
  {
    LawfulPrefix(start, log, i - 1);
    LawfulRunsKeepInv(start, log[..i - 1]);
    StepAt(start, log, i - 1);
    if !GuardedBy(WorldAt(start, log, i - 1), n, u) {
      GoneForGood(WorldAt(start, log, i - 1), log[i - 1], n, u);
    }
  }

  lemma {:induction false} NextUidGrows(start: World, log: seq<Action>, a: nat, i: nat)
    requires a <= i <= |log|
    ensures WorldAt(start, log, a).kube.nextUid <= WorldAt(start, log, i).kube.nextUid
    decreases i
  {
    if a < i {
      NextUidGrows(start, log, a, i - 1);
      StepAt(start, log, i - 1);
      var w := WorldAt(start, log, i - 1);
      match log[i - 1]
      case Env(e) => CalmStep(w, e);
      case Op(c, _) => PodsAfterCall(w, c);
    }
  }
}
