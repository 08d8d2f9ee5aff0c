/** The list of nodes to delete over whole runs: who may take an entry off, when, and what stays. */
module Entries {
  import opened Model
  import opened Protocol
  import opened NodesToDelete
  import opened History
  import opened Theorems

  /** The node whose entry step a takes off the stored list. */
  function DroppedBy(a: Action): Option<Name> { if a.Op? && a.call.UpdateSpec? then a.call.dropped else None }

  /** The node whose blocker pod loses its finalizer by step a. */
  function ReleasedBy(a: Action): Option<Name> {
    if a.Op? && a.call.RemoveFinalizer? then Some(a.call.n) else None
  }

  predicate IsEdit(a: Action) { a.Env? && a.env.OfUser? && a.env.user.EditSpec? }

  function AsSeq(o: Option<Name>): seq<Name> { if o.Some? then [o.value] else [] }

  /** The nodes whose entries a run takes off the list, in order. */
  function Drops(acts: seq<Action>): seq<Name> {
    if acts == [] then [] else Drops(acts[..|acts| - 1]) + AsSeq(DroppedBy(acts[|acts| - 1]))
  }

  /** The nodes a run releases, in order. */
  function Releases(acts: seq<Action>): seq<Name> {
    if acts == [] then [] else Releases(acts[..|acts| - 1]) + AsSeq(ReleasedBy(acts[|acts| - 1]))
  }

  predicate NoEdit(acts: seq<Action>) { forall k :: 0 <= k < |acts| ==> !IsEdit(acts[k]) }

  /** What a step does to the stored list. */
  lemma ListStep(w: World, a: Action)
    requires LegalAction(w, a) && !IsEdit(a)
    ensures Next(w, a).cr.spec.nodesToDelete == WithoutAll(w.cr.spec.nodesToDelete, AsSeq(DroppedBy(a)))
  {
    if a.Op? && a.call.UpdateSpec? && a.call.dropped.Some? {
      var n := a.call.dropped.value;
      assert [n][..0] == [];
      assert WithoutAll(w.cr.spec.nodesToDelete, [n]) == Without(w.cr.spec.nodesToDelete, n);
    }
  }

  lemma WithoutMore(list: seq<NodeToDelete>, a: seq<Name>, o: Option<Name>)
    ensures WithoutAll(list, a + AsSeq(o)) == WithoutAll(WithoutAll(list, a), AsSeq(o))
  {
    if o.Some? {
      WithoutOneMore(list, a, o.value);
      assert [o.value][..0] == [];
    } else {
      assert a + [] == a;
    }
  }

  /** CONSERVATION OVER RUNS.  In any run from any state, without a user edit, however the operator is cut off and retried,
      the stored list loses exactly one entry for each time the operator dropped a name. */
  lemma {:induction false} ListIsAccounted(w: World, acts: seq<Action>)
    requires Lawful(w, acts) && NoEdit(acts)
    ensures Exec(w, acts).cr.spec.nodesToDelete == WithoutAll(w.cr.spec.nodesToDelete, Drops(acts))
  {
    if acts != [] {
      var front, a := acts[..|acts| - 1], acts[|acts| - 1];
      ListIsAccounted(w, front);
      ListStep(Exec(w, front), a);
      WithoutMore(w.cr.spec.nodesToDelete, Drops(front), DroppedBy(a));
    }
  }

  /** Step j releases n, and from then on the same reconcile owes n a write that has not landed before step i. */
  ghost predicate OwedSince(log: seq<Action>, j: nat, i: nat, n: Name) {
    && j < i <= |log| && ReleasedBy(log[j]) == Some(n) && SameReconcile(log, j, i)
    && forall k :: j < k < i ==> DroppedBy(log[k]) != Some(n)
  }

  lemma {:induction false} OwedMeansReleased(start: World, log: seq<Action>, i: nat, n: Name)
    requires Untouched(start) && i <= |log| && n in WorldAt(start, log, i).books.owed
    ensures exists j: nat :: OwedSince(log, j, i, n)
  {
    StepAt(start, log, i - 1);
    var w := WorldAt(start, log, i - 1);
    if log[i - 1].Env? { CalmStep(w, log[i - 1].env); }
    if ReleasedBy(log[i - 1]) == Some(n) {
      assert OwedSince(log, i - 1, i, n);
    } else {
      OwedMeansReleased(start, log, i - 1, n);
      var j: nat :| OwedSince(log, j, i - 1, n);
      assert OwedSince(log, j, i, n);
    }
  }

  /** Step j takes the finalizer off n, and step i drops n's entry in the same reconcile, as the first to do so. */
  ghost predicate PaidBy(start: World, log: seq<Action>, j: nat, i: nat, n: Name) {
    && OwedSince(log, j, i, n)
    && HasFinalizer(WorldAt(start, log, j), n)
    && WasDrained(start, log, j, n, WorldAt(start, log, j).kube.pods[n].uid)
  }

  /** ONE ENTRY PER RELEASE.  Whenever the operator takes an entry of n off the list, it released n earlier in the same
      reconcile, after a full drain, and has not taken another entry of n off since. */
  lemma EntryGoesAfterRelease(start: World, log: seq<Action>, i: nat, n: Name)
    requires Untouched(start) && Lawful(start, log) && i < |log| && DroppedBy(log[i]) == Some(n)
    ensures exists j: nat :: PaidBy(start, log, j, i, n)
  {
    LawfulPrefix(start, log, i);
    OwedMeansReleased(start, log, i, n);
    var j: nat :| OwedSince(log, j, i, n);
    ReleaseFollowsDrain(start, log, j, n);
    assert PaidBy(start, log, j, i, n);
  }

  lemma ReleaseFollowsDrain(start: World, log: seq<Action>, j: nat, n: Name)
    requires Untouched(start) && Lawful(start, log) && j < |log| && ReleasedBy(log[j]) == Some(n)
    ensures var w := WorldAt(start, log, j); HasFinalizer(w, n) && WasDrained(start, log, j, n, w.kube.pods[n].uid)
  {
    LawfulPrefix(start, log, j);
    RunExplained(start, log, j, n);
    ReleaseIsLegal(WorldAt(start, log, j), log[j], n);
  }

  lemma ReleaseIsLegal(w: World, a: Action, n: Name)
    requires LegalAction(w, a) && ReleasedBy(a) == Some(n)
    ensures HasFinalizer(w, n) && Drained(w, n)
  {
  }

  function One(o: Option<Name>, n: Name): nat { if o == Some(n) then 1 else 0 }

  function Owes(w: World, n: Name): nat { if n in w.books.owed then 1 else 0 }

  function Count(names: seq<Name>, n: Name): nat { multiset(names)[n] }

  lemma CountMore(names: seq<Name>, o: Option<Name>, n: Name)
    ensures Count(names + AsSeq(o), n) == Count(names, n) + One(o, n)
  {
  }

  /** A drop is paid from what is owed, and only a release adds to that. */
  lemma OwedStep(w: World, a: Action, n: Name)
    requires LegalAction(w, a)
    ensures Owes(Next(w, a), n) + One(DroppedBy(a), n) <= Owes(w, n) + One(ReleasedBy(a), n)
  {
    if a.Env? { CalmStep(w, a.env); }
  }

  /** So in any run from any state no node has more entries dropped than it was released, apart from one the operator
      still owed at the start. */
  lemma {:induction false} DropsArePaid(w: World, acts: seq<Action>, n: Name)
    requires Lawful(w, acts)
    ensures Count(Drops(acts), n) + Owes(Exec(w, acts), n) <= Count(Releases(acts), n) + Owes(w, n)
  {
    if acts != [] {
      var front, a := acts[..|acts| - 1], acts[|acts| - 1];
      DropsArePaid(w, front, n);
      OwedStep(Exec(w, front), a, n);
      CountMore(Drops(front), DroppedBy(a), n);
      CountMore(Releases(front), ReleasedBy(a), n);
    }
  }

  /** A LEFT-OVER ENTRY STAYS.  Once nothing is owed for a node, because the reconcile that released it is over, or
      because it was not released at all, its entries stay on the list in every run, until a user edits the spec or
      the node is released anew. */
  lemma {:induction false} LeftOverStays(w: World, acts: seq<Action>, e: NodeToDelete)
    requires Lawful(w, acts) && NoEdit(acts) && e.name !in w.books.owed && e.name !in Releases(acts)
    ensures multiset(Exec(w, acts).cr.spec.nodesToDelete)[e] == multiset(w.cr.spec.nodesToDelete)[e]
  {
    DropsArePaid(w, acts, e.name);
    ListIsAccounted(w, acts);
    OnlyCompletedEntriesGone(w.cr.spec.nodesToDelete, Drops(acts));
  }

  /** Without a user edit nothing comes onto the list. */
  lemma ListOnlyShrinks(w: World, acts: seq<Action>)
    requires Lawful(w, acts) && NoEdit(acts)
    ensures multiset(Exec(w, acts).cr.spec.nodesToDelete) <= multiset(w.cr.spec.nodesToDelete)
  {
    ListIsAccounted(w, acts);
    OnlyCompletedEntriesGone(w.cr.spec.nodesToDelete, Drops(acts));
  }

  /** WHEN THE ENTRY GOES, exactly: of a node that is on the list and was just released, one entry has gone after a run if
      and only if the operator's write of the spec took effect in it; otherwise all are there. */
  lemma {:induction false} EntryGoesExactlyIfWritten(w: World, acts: seq<Action>, n: Name)
    requires Lawful(w, acts) && NoEdit(acts) && n in w.books.owed && n !in Releases(acts)
    ensures var before, after := Times(w, n), Times(Exec(w, acts), n);
      && (before > 0 ==> (after == before - 1 <==> n in Drops(acts)))
      && (n !in Drops(acts) ==> after == before)
  {
    ListIsAccounted(w, acts);
    OnlyCompletedEntriesGone(w.cr.spec.nodesToDelete, Drops(acts));
    DropsArePaid(w, acts, n);
  }

  /** How often the stored list names n. */
  function Times(w: World, n: Name): nat { multiset(NamesOf(w.cr.spec.nodesToDelete))[n] }
}
