/** What holds of every run of the operator, cut off anywhere. */
module Theorems {
  import opened Model
  import opened Protocol
  import opened History

  // ----- Status ---------------------------------------------------------------------------------------

  function ReadyEntries(nodes: seq<NodeStatus>): set<int> {
    set i | 0 <= i < |nodes| && nodes[i].status == Ready
  }

  lemma {:induction false} CountsReady(nodes: seq<NodeStatus>)
    ensures CountReady(nodes) == |ReadyEntries(nodes)|
  {
    if nodes != [] {
      var front, last := nodes[..|nodes| - 1], |nodes| - 1;
      CountsReady(front);
      assert ReadyEntries(nodes) == ReadyEntries(front) + if nodes[last].status == Ready then {last} else {};
    }
  }

  /** STATUS CONSISTENCY.  In every persisted state the number of ready workers is the number of Ready entries and
      no node is listed twice. */
  lemma {:induction false} StatusIsConsistent(start: World, log: seq<Action>)
    requires Inv(start) && Lawful(start, log)
    ensures var st := Exec(start, log).cr.status;
      && st.readyWorkers == |ReadyEntries(st.nodes)|
      && forall i, j :: 0 <= i < j < |st.nodes| ==> st.nodes[i].name != st.nodes[j].name
  {
    LawfulRunsKeepInv(start, log);
    CountsReady(Exec(start, log).cr.status.nodes);
  }

  // ----- Tracked nodes --------------------------------------------------------------------------------

  /** Before step i, pod u of node n lost its finalizer, after its full drain. */
  ghost predicate ReleasedBefore(start: World, log: seq<Action>, i: nat, n: Name, u: int) {
    exists k: nat :: ReleasedAt(start, log, k, n, u) && k < i
  }

  ghost predicate ReleasedAt(start: World, log: seq<Action>, k: nat, n: Name, u: int) {
    && k < |log|
    && HasFinalizer(WorldAt(start, log, k), n) && WorldAt(start, log, k).kube.pods[n].uid == u
    && !HasFinalizer(WorldAt(start, log, k + 1), n)
    && WasDrained(start, log, k, n, u)
  }

  lemma {:induction false} NewestPodAccounted(start: World, log: seq<Action>, i: nat, n: Name)
    requires Untouched(start) && Lawful(start, log) && i <= |log|
    requires n in WorldAt(start, log, i).kube.last
    ensures var w := WorldAt(start, log, i);
      HasFinalizer(w, n) || ReleasedBefore(start, log, i, n, w.kube.last[n])
  {
    RunExplained(start, log, i, n);
    if i > 0 {
      RunExplained(start, log, i - 1, n);
      StepAt(start, log, i - 1);
      LawfulPrefix(start, log, i - 1);
      var w, w' := WorldAt(start, log, i - 1), WorldAt(start, log, i);
      LastStep(w, log[i - 1], n);
      if !HasFinalizer(w', n) {
        if HasFinalizer(w, n) {
          FinalizerGoesOnlyAfterFullDrain(start, log, i - 1, n);
          assert ReleasedAt(start, log, i - 1, n, w.kube.pods[n].uid);
        } else {
          NewestPodAccounted(start, log, i - 1, n);
          var k: nat :| ReleasedAt(start, log, k, n, w.kube.last[n]) && k < i - 1;
        }
      }
    }
  }

  /** The newest pod of a node changes only by the creation of a new, protected one. */
  lemma LastStep(w: World, a: Action, n: Name)
    ensures n in Next(w, a).kube.last && !HasFinalizer(Next(w, a), n) ==>
      n in w.kube.last && Next(w, a).kube.last[n] == w.kube.last[n]
  {
    match a
    case Env(e) => CalmStep(w, e);
    case Op(c, _) => PodsAfterCall(w, c);
  }

  /** TRACKED IMPLIES PROTECTED. Every node in the status has a blocker pod with its finalizer, or its newest
      blocker pod went through the full drain before it lost the finalizer. */
  lemma {:induction false} TrackedImpliesProtected(start: World, log: seq<Action>, s: NodeStatus)
    requires Untouched(start) && Lawful(start, log) && s in Exec(start, log).cr.status.nodes
    ensures var w := Exec(start, log);
      HasFinalizer(w, s.name) || ReleasedBefore(start, log, |log|, s.name, NewestPod(w.kube, s.name))
  {
    assert log[..|log|] == log;
    LawfulRunsKeepInv(start, log);
    var w := Exec(start, log);
    assert Shielded(w, s.name);
    if !HasFinalizer(w, s.name) { NewestPodAccounted(start, log, |log|, s.name); }
  }

  // ----- Deletion of the resource ---------------------------------------------------------------------

  /** Steps j to i belong to one reconcile. */
  ghost predicate SameReconcile(log: seq<Action>, j: nat, i: nat) {
    j <= i <= |log| && forall k :: j <= k < i ==> !Restarts(log[k])
  }

  /** Step j lists the nodes, and its listing is the one in hand before step i of the same reconcile. */
  ghost predicate ListedAt(start: World, log: seq<Action>, j: nat, i: nat) {
    && j < i <= |log| && SameReconcile(log, j, i)
    && WorldAt(start, log, i).books.listing.Some?
    && TakesListing(start, log, j, WorldAt(start, log, i).books.listing.value)
  }

  lemma ListingBefore(start: World, log: seq<Action>, i: nat)
    requires i < |log| && WorldAt(start, log, i + 1).books.listing.Some?
    ensures !Restarts(log[i])
    ensures WorldAt(start, log, i + 1).books.listing ==
      if log[i].Op? && log[i].call.ListForDeletion? then Some(WorldAt(start, log, i).kube.nodes.Keys)
      else WorldAt(start, log, i).books.listing
  {
    StepAt(start, log, i);
    if log[i].Env? { CalmStep(WorldAt(start, log, i), log[i].env); }
  }

  /** A listing in hand was taken earlier in the same reconcile, and names all nodes there were at that step. */
  lemma {:induction false} ListingWasTaken(start: World, log: seq<Action>, i: nat)
    requires Untouched(start) && i <= |log| && WorldAt(start, log, i).books.listing.Some?
    ensures exists j: nat :: ListedAt(start, log, j, i)
  {
    if i > 0 {
      ListingBefore(start, log, i - 1);
      if log[i - 1].Op? && log[i - 1].call.ListForDeletion? {
        assert ListedAt(start, log, i - 1, i);
      } else {
        ListingWasTaken(start, log, i - 1);
        var j: nat :| ListedAt(start, log, j, i - 1);
        assert ListedAt(start, log, j, i);
      }
    }
  }

  /** Of the nodes there were at step j, those still protected before step i had their pre jobs succeed. */
  ghost predicate AllPreFinished(start: World, log: seq<Action>, j: nat, i: nat)
    requires j <= i <= |log|
  {
    forall m :: m in WorldAt(start, log, j).kube.nodes && HasFinalizer(WorldAt(start, log, i), m) ==>
      PreDone(WorldAt(start, log, i), m)
      && WasPreFinished(start, log, i, m, WorldAt(start, log, i).kube.pods[m].uid)
  }

  /** Of the nodes there were at step j, those still protected before step i went through the full drain. */
  ghost predicate AllWereDrained(start: World, log: seq<Action>, j: nat, i: nat)
    requires j <= i <= |log|
  {
    forall m :: m in WorldAt(start, log, j).kube.nodes && HasFinalizer(WorldAt(start, log, i), m) ==>
      WasDrained(start, log, i, m, WorldAt(start, log, i).kube.pods[m].uid)
  }

  /** Steps of the deletion path behind the first and behind the second barrier. */
  predicate BehindPre(a: Action) { a.Op? && a.path.Deletion? && (a.call.AddTaint? || a.call.CreatePost?) }
  predicate BehindPost(a: Action) {
    a.Op? && a.path.Deletion? && (a.call.DeletePost? || a.call.DeletePre? || a.call.RemoveFinalizer?)
  }

  /** DELETION BARRIERS.  On the deletion path every taint, every post job, every cleanup is preceded, in the same
      reconcile, by a listing of all nodes; no node is tainted and no post job created before each of those nodes
      that is still protected has a succeeded pre job; and no drain job is deleted and no finalizer goes before each
      of them went through its full drain.  This holds across crashes and retries. */
  lemma DeletionBarriers(start: World, log: seq<Action>, i: nat)
    requires Untouched(start) && Lawful(start, log) && i < |log|
    ensures BehindPre(log[i]) ==> exists j: nat :: ListedAt(start, log, j, i) && AllPreFinished(start, log, j, i)
    ensures BehindPost(log[i]) ==> exists j: nat :: ListedAt(start, log, j, i) && AllWereDrained(start, log, j, i)
  {
    LawfulPrefix(start, log, i);
    var w := WorldAt(start, log, i);
    if BehindPre(log[i]) || BehindPost(log[i]) {
      ListingWasTaken(start, log, i);
      var j: nat :| ListedAt(start, log, j, i);
      forall m | m in WorldAt(start, log, j).kube.nodes && HasFinalizer(w, m)
        ensures PreDone(w, m) ==> WasPreFinished(start, log, i, m, w.kube.pods[m].uid)
        ensures Drained(w, m) ==> WasDrained(start, log, i, m, w.kube.pods[m].uid)
      {
        RunExplained(start, log, i, m);
      }
      assert BehindPre(log[i]) ==> AllPreFinished(start, log, j, i);
      assert BehindPost(log[i]) ==> AllWereDrained(start, log, j, i);
    }
  }

  /** Every node there was at step j is unprotected before step i, and if it ever had a blocker pod, the newest one was
      released after its full drain. */
  ghost predicate AllReleased(start: World, log: seq<Action>, j: nat, i: nat)
    requires j <= i <= |log|
  {
    forall n :: n in WorldAt(start, log, j).kube.nodes ==>
      !HasFinalizer(WorldAt(start, log, i), n)
      && (n in WorldAt(start, log, i).kube.last ==>
            ReleasedBefore(start, log, i, n, WorldAt(start, log, i).kube.last[n]))
  }

  /** Step l lists the labelled object k for the cleanup, and up to step i of the same reconcile it is not deleted. */
  ghost predicate AwaitsDeletion(start: World, log: seq<Action>, l: nat, i: nat, k: ObjKey) {
    && l < i && SameReconcile(log, l, i) && ListsObject(WorldAt(start, log, l), log[l], k)
    && forall x :: l < x < i ==> !Deletes(log[x], k)
  }

  /** The step lists the labelled object k for the cleanup. */
  predicate ListsObject(w: World, a: Action, k: ObjKey) {
    && a.Op? && a.call.ListOwned? && OfKind(k, a.call.kind, a.call.namespaced)
    && DeletedSingly(k.kind) && k in w.owned
  }

  predicate Restarts(a: Action) { a.Op? && a.call.StartReconcile? }
  predicate Deletes(a: Action, k: ObjKey) { a.Op? && a.call.DeleteOwned? && k in a.call.keys }

  lemma PendingStep(w: World, a: Action, k: ObjKey)
    requires LegalAction(w, a) && k in Next(w, a).books.pending
    ensures ListsObject(w, a, k) || (k in w.books.pending && !Restarts(a) && !Deletes(a, k))
  {
    if a.Env? { CalmStep(w, a.env); }
  }

  lemma ContestedStep(w: World, a: Action)
    requires Next(w, a).contested
    ensures !Restarts(a)
    ensures w.contested || (a.Env? && a.env.ObjectGone? && a.env.key in w.owned && a.env.key in w.books.pending)
  {
  }

  lemma AwaitsLonger(start: World, log: seq<Action>, l: nat, i: nat, k: ObjKey)
    requires i < |log| && AwaitsDeletion(start, log, l, i, k) && !Restarts(log[i]) && !Deletes(log[i], k)
    ensures AwaitsDeletion(start, log, l, i + 1, k)
  {
  }

  lemma PendingBefore(start: World, log: seq<Action>, i: nat, k: ObjKey)
    requires Lawful(start, log) && i < |log| && k in WorldAt(start, log, i + 1).books.pending
    ensures var w := WorldAt(start, log, i);
      ListsObject(w, log[i], k) || (k in w.books.pending && !Restarts(log[i]) && !Deletes(log[i], k))
  {
    StepAt(start, log, i);
    LawfulPrefix(start, log, i);
    PendingStep(WorldAt(start, log, i), log[i], k);
  }

  lemma ContestedBefore(start: World, log: seq<Action>, i: nat)
    requires i < |log| && WorldAt(start, log, i + 1).contested
    ensures var w, a := WorldAt(start, log, i), log[i];
      && !Restarts(a)
      && (w.contested || (a.Env? && a.env.ObjectGone? && a.env.key in w.owned && a.env.key in w.books.pending))
  {
    StepAt(start, log, i);
    ContestedStep(WorldAt(start, log, i), log[i]);
  }

  /** What is pending was listed earlier in the same reconcile, and not deleted since. */
  lemma {:induction false} PendingWasListed(start: World, log: seq<Action>, i: nat, k: ObjKey)
    requires Untouched(start) && Lawful(start, log) && i <= |log| && k in WorldAt(start, log, i).books.pending
    ensures exists l: nat :: AwaitsDeletion(start, log, l, i, k)
  {
    if i > 0 {
      PendingBefore(start, log, i - 1, k);
      if ListsObject(WorldAt(start, log, i - 1), log[i - 1], k) {
        assert AwaitsDeletion(start, log, i - 1, i, k);
      } else {
        PendingWasListed(start, log, i - 1, k);
        var l: nat :| AwaitsDeletion(start, log, l, i - 1, k);
        AwaitsLonger(start, log, l, i - 1, k);
      }
    }
  }

  /** At step j somebody else deletes the object k, which the cleanup has listed in this reconcile at step l and not
      deleted yet. */
  ghost predicate StolenAt(start: World, log: seq<Action>, l: nat, j: nat, i: nat, k: ObjKey) {
    && j < i && SameReconcile(log, j, i) && log[j] == Env(ObjectGone(k)) && k in WorldAt(start, log, j).owned
    && AwaitsDeletion(start, log, l, j, k)
  }

  lemma StolenLonger(start: World, log: seq<Action>, l: nat, j: nat, i: nat, k: ObjKey)
    requires i < |log| && StolenAt(start, log, l, j, i, k) && !Restarts(log[i])
    ensures StolenAt(start, log, l, j, i + 1, k)
  {
  }

  lemma StolenNow(start: World, log: seq<Action>, i: nat, k: ObjKey)
    requires Untouched(start) && Lawful(start, log) && 0 < i <= |log| && log[i - 1] == Env(ObjectGone(k))
    requires k in WorldAt(start, log, i - 1).owned && k in WorldAt(start, log, i - 1).books.pending
    ensures exists l: nat, j: nat :: StolenAt(start, log, l, j, i, k)
  {
    PendingWasListed(start, log, i - 1, k);
    var l: nat :| AwaitsDeletion(start, log, l, i - 1, k);
    assert StolenAt(start, log, l, i - 1, i, k);
  }

  lemma {:induction false} ContestedWasStolen(start: World, log: seq<Action>, i: nat)
    requires Untouched(start) && Lawful(start, log) && i <= |log| && WorldAt(start, log, i).contested
    ensures exists l: nat, j: nat, k :: StolenAt(start, log, l, j, i, k)
  {
    if i > 0 {
      ContestedBefore(start, log, i - 1);
      if WorldAt(start, log, i - 1).contested {
        ContestedWasStolen(start, log, i - 1);
        var l: nat, j: nat, k :| StolenAt(start, log, l, j, i - 1, k);
        StolenLonger(start, log, l, j, i - 1, k);
      } else {
        StolenNow(start, log, i, log[i - 1].env.key);
      }
    }
  }

  /** FINALIZE COMPLETENESS.  When the resource's own finalizer goes, all nodes were listed earlier in the same
      reconcile, and every one of them that ever had a blocker pod went through the full drain of the newest one.
      And none of the labelled objects is left that the cleanup selects, unless somebody else, in this very reconcile,
      deleted a MachineSet, MachineConfigPool or MachineConfig between its listing and its deletion. */
  lemma {:induction false} FinalizeIsComplete(start: World, log: seq<Action>, i: nat)
    requires Untouched(start) && Lawful(start, log) && i < |log|
    requires log[i].Op? && log[i].call.RemoveCrFinalizer?
    ensures exists j: nat :: ListedAt(start, log, j, i) && AllReleased(start, log, j, i)
    ensures var w := WorldAt(start, log, i);
      && w.cr.deleted
      && (Swept(w, w.cr.status.infra + w.cr.spec.infra)
          || exists l: nat, j: nat, k :: StolenAt(start, log, l, j, i, k))
  {
    LawfulPrefix(start, log, i);
    ListingWasTaken(start, log, i);
    var j: nat :| ListedAt(start, log, j, i);
    var w := WorldAt(start, log, i);
    forall n | n in WorldAt(start, log, j).kube.nodes
      ensures !HasFinalizer(w, n) && (n in w.kube.last ==> ReleasedBefore(start, log, i, n, w.kube.last[n]))
    {
      if n in w.kube.last { NewestPodAccounted(start, log, i, n); }
    }
    assert AllReleased(start, log, j, i);
    if w.contested { ContestedWasStolen(start, log, i); }
  }
}
