/**
 The two filters of `showProfile` that split the XP history by the object's
 type tag: projects feed the bar chart, exercises the area/line chart, and
 every other type is shown in neither.
 */
module Classifier {
  import opened Transactions

  const ProjectKind := "project"
  const ExerciseKind := "exercise"

  /** The two subsets the charts are drawn from. */
  datatype Classified = Classified(projects: seq<Transaction>, exercises: seq<Transaction>)

  /** `txs.filter((tx) => tx.object.type === kind)`. */
  function OfKind(txs: seq<Transaction>, kind: string): (r: seq<Transaction>)
    ensures |r| <= |txs|
    ensures forall k :: 0 <= k < |r| ==> r[k].obj.kind == kind
  {
    if txs == [] then []
    else
      var last := txs[|txs| - 1];
      var rest := OfKind(txs[..|txs| - 1], kind);
      if last.obj.kind == kind then rest + [last] else rest
  }

  /** The records neither chart shows: any type other than project and exercise. */
  function OtherKinds(txs: seq<Transaction>): (r: seq<Transaction>)
    ensures |r| <= |txs|
    ensures forall k :: 0 <= k < |r| ==> r[k].obj.kind != ProjectKind && r[k].obj.kind != ExerciseKind
  {
    if txs == [] then []
    else
      var last := txs[|txs| - 1];
      var rest := OtherKinds(txs[..|txs| - 1]);
      if last.obj.kind != ProjectKind && last.obj.kind != ExerciseKind then rest + [last] else rest
  }

  /** A record is kept exactly when it is in the history and tagged `kind`. */
  lemma {:induction false} OfKindMembers(txs: seq<Transaction>, kind: string)
    ensures forall t :: t in OfKind(txs, kind) <==> t in txs && t.obj.kind == kind
  {
    if txs != [] {
      var init, last := txs[..|txs| - 1], txs[|txs| - 1];
      OfKindMembers(init, kind);
      assert txs == init + [last];
      assert forall t :: t in txs <==> t in init || t == last;
    }
  }

  /** The positions, in increasing order, of the records tagged `kind`. */
  function KindIndices(txs: seq<Transaction>, kind: string): seq<nat>
  {
    if txs == [] then []
    else
      var rest := KindIndices(txs[..|txs| - 1], kind);
      if txs[|txs| - 1].obj.kind == kind then rest + [|txs| - 1] else rest
  }

  /** graphQL.js:84-89: the project and the exercise subsets, split from one history. */
  function Classify(txs: seq<Transaction>): (c: Classified)
    ensures forall t :: t in c.projects <==> t in txs && t.obj.kind == ProjectKind
    ensures forall t :: t in c.exercises <==> t in txs && t.obj.kind == ExerciseKind
    ensures multiset(c.projects) + multiset(c.exercises) + multiset(OtherKinds(txs)) == multiset(txs)
  {
    OfKindMembers(txs, ProjectKind);
    OfKindMembers(txs, ExerciseKind);
    Partition(txs);
    Classified(OfKind(txs, ProjectKind), OfKind(txs, ExerciseKind))
  }

  /** KindIndices lists, in increasing order, every position tagged `kind` and no other. */
  lemma {:induction false} KindIndicesSpec(txs: seq<Transaction>, kind: string)
    ensures forall j :: 0 <= j < |KindIndices(txs, kind)| ==> KindIndices(txs, kind)[j] < |txs|
    ensures forall j, k :: 0 <= j < k < |KindIndices(txs, kind)| ==>
      KindIndices(txs, kind)[j] < KindIndices(txs, kind)[k]
    ensures forall i :: 0 <= i < |txs| ==> (i in KindIndices(txs, kind) <==> txs[i].obj.kind == kind)
  {
    if txs != [] {
      var n := |txs| - 1;
      var init := txs[..n];
      KindIndicesSpec(init, kind);
      var idx, idx0 := KindIndices(txs, kind), KindIndices(init, kind);
      assert forall i :: 0 <= i < n ==> init[i] == txs[i];
      if txs[n].obj.kind == kind {
        assert idx == idx0 + [n];
        assert forall i :: 0 <= i < n ==> (i in idx <==> i in idx0);
      } else {
        assert idx == idx0;
        assert n !in idx0;
      }
    }
  }

  /**
   The filter is stable: its j-th record is the record at the j-th position
   KindIndices lists, so it keeps exactly the tagged records in input order.
   */
  lemma {:induction false} OfKindSelectsInOrder(txs: seq<Transaction>, kind: string)
    ensures |OfKind(txs, kind)| == |KindIndices(txs, kind)|
    ensures forall j :: 0 <= j < |KindIndices(txs, kind)| ==>
      KindIndices(txs, kind)[j] < |txs| && OfKind(txs, kind)[j] == txs[KindIndices(txs, kind)[j]]
  {
    KindIndicesSpec(txs, kind);
    if txs != [] {
      var n := |txs| - 1;
      var init := txs[..n];
      OfKindSelectsInOrder(init, kind);
      KindIndicesSpec(init, kind);
      var r, r0 := OfKind(txs, kind), OfKind(init, kind);
      var idx, idx0 := KindIndices(txs, kind), KindIndices(init, kind);
      if txs[n].obj.kind == kind {
        assert r == r0 + [txs[n]];
        assert idx == idx0 + [n];
        forall j | 0 <= j < |idx0| ensures r[j] == txs[idx[j]] {
          assert r[j] == r0[j] && idx[j] == idx0[j];
          assert init[idx0[j]] == txs[idx0[j]];
        }
      } else {
        assert r == r0;
        assert idx == idx0;
        forall j | 0 <= j < |idx0| ensures r[j] == txs[idx[j]] {
          assert init[idx0[j]] == txs[idx0[j]];
        }
      }
    }
  }

  /** Filtering a concatenation filters each part: the order of the history is kept. */
  lemma {:induction false} OfKindAppend(a: seq<Transaction>, b: seq<Transaction>, kind: string)
    ensures OfKind(a + b, kind) == OfKind(a, kind) + OfKind(b, kind)
    decreases |b|
  {
    if b == [] {
      assert a + b == a;
    } else {
      var b0 := b[..|b| - 1];
      assert (a + b)[..|a + b| - 1] == a + b0;
      assert (a + b)[|a + b| - 1] == b[|b| - 1];
      OfKindAppend(a, b0, kind);
    }
  }

  /**
   Projects, exercises and the rest account for every record exactly once,
   and no record is in both charts.
   */
  lemma {:induction false} Partition(txs: seq<Transaction>)
    ensures multiset(OfKind(txs, ProjectKind)) + multiset(OfKind(txs, ExerciseKind)) + multiset(OtherKinds(txs))
      == multiset(txs)
  {
    var p, e, o := OfKind(txs, ProjectKind), OfKind(txs, ExerciseKind), OtherKinds(txs);
    if txs != [] {
      var init, last := txs[..|txs| - 1], txs[|txs| - 1];
      Partition(init);
      PartitionStep(txs);
      assert txs == init + [last];
      assert multiset(txs) == multiset(init) + multiset{last};
    }
  }

  /** So the three lengths add up to the length of the history. */
  lemma PartitionLengths(txs: seq<Transaction>)
    ensures |OfKind(txs, ProjectKind)| + |OfKind(txs, ExerciseKind)| + |OtherKinds(txs)| == |txs|
  {
    var p, e, o := OfKind(txs, ProjectKind), OfKind(txs, ExerciseKind), OtherKinds(txs);
    Partition(txs);
    var mp, me, mo := multiset(p), multiset(e), multiset(o);
    assert |mp + me| == |mp| + |me|;
    assert |mp + me + mo| == |mp + me| + |mo|;
    assert |multiset(txs)| == |txs|;
  }

  /** The last record lands in exactly one of the three lists. */
  lemma PartitionStep(txs: seq<Transaction>)
    requires txs != []
    ensures var init, last := txs[..|txs| - 1], txs[|txs| - 1];
      multiset(OfKind(txs, ProjectKind)) + multiset(OfKind(txs, ExerciseKind)) + multiset(OtherKinds(txs))
      == multiset(OfKind(init, ProjectKind)) + multiset(OfKind(init, ExerciseKind)) + multiset(OtherKinds(init))
         + multiset{last}
  {
    var init, last := txs[..|txs| - 1], txs[|txs| - 1];
    var p, e, o := OfKind(txs, ProjectKind), OfKind(txs, ExerciseKind), OtherKinds(txs);
    var p0, e0, o0 := OfKind(init, ProjectKind), OfKind(init, ExerciseKind), OtherKinds(init);
    if last.obj.kind == ProjectKind {
      assert p == p0 + [last] && e == e0 && o == o0;
    } else if last.obj.kind == ExerciseKind {
      assert p == p0 && e == e0 + [last] && o == o0;
    } else {
      assert p == p0 && e == e0 && o == o0 + [last];
    }
  }

  /** No record is drawn in both charts. */
  lemma Disjoint(txs: seq<Transaction>)
    ensures multiset(OfKind(txs, ProjectKind)) * multiset(OfKind(txs, ExerciseKind)) == multiset{}
  {
    var p, e := OfKind(txs, ProjectKind), OfKind(txs, ExerciseKind);
    forall t ensures (multiset(p) * multiset(e))[t] == 0 {
      if t in p {
        assert t.obj.kind == ProjectKind;
        assert t !in e;
      }
    }
  }
}
