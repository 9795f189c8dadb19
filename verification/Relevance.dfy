/** Which updates of a Secret wake the operator up (internal/controller/secret_controller.go). */
module Relevance {
  import opened Prelude
  import opened Platform
  import opened Safety
  import opened Steadiness
  import opened Theorems

  /** The annotations other actors own. */
  function Foreign(ann: Annotations): (r: Annotations)
    ensures forall k :: k in r <==> k in ann && !OperatorKey(k)
    ensures forall k :: k in r ==> r[k] == ann[k]
  {
    map k | k in ann && !OperatorKey(k) :: ann[k]
  }

  /** `None` is the nil map that the source returns instead of an empty one. */
  function StripOperatorAnnotations(ann: Annotations): Option<Annotations> {
    if Foreign(ann) == map[] then None else Some(Foreign(ann))
  }

  /** An object is absent when the event carried no such object. */
  predicate IsRelevantUpdate(before: Option<Secret>, after: Option<Secret>) {
    || before.None? || after.None?
    || before.value.labels != after.value.labels
    || before.value.data != after.value.data
    || StripOperatorAnnotations(before.value.ann) != StripOperatorAnnotations(after.value.ann)
  }

  /** The loop of the source: copy every annotation without the prefix into a new map. */
  method FilterAnnotations(ann: Annotations) returns (r: Option<Annotations>)
    ensures r == StripOperatorAnnotations(ann)
  {
    if |ann| == 0 {
      assert Foreign(ann) == map[];
      return None;
    }
    var out: Annotations := map[];
    var todo := ann.Keys;
    while todo != {}
      invariant todo <= ann.Keys
      invariant forall k :: k in out <==> k in ann && k !in todo && !OperatorKey(k)
      invariant forall k :: k in out ==> out[k] == ann[k]
    {
      var k :| k in todo;
      todo := todo - {k};
      if !OperatorKey(k) {
        out := out[k := ann[k]];
      }
    }
    assert out == Foreign(ann);
    r := if |out| == 0 then None else Some(out);
  }

  lemma ForeignAlike(a: Annotations, b: Annotations)
    ensures Foreign(a) == Foreign(b) <==> forall key :: !Touched(ForeignKey(key), a, b)
  {
    if Foreign(a) == Foreign(b) {
      forall key
        ensures !Touched(ForeignKey(key), a, b)
      {
        assert ForeignKey(key) in Foreign(a) <==> ForeignKey(key) in Foreign(b);
      }
    }
    if forall key :: !Touched(ForeignKey(key), a, b) {
      forall k
        ensures k in Foreign(a) <==> k in Foreign(b)
        ensures k in Foreign(a) && k in Foreign(b) ==> Foreign(a)[k] == Foreign(b)[k]
      {
        if k.ForeignKey? {
          assert !Touched(ForeignKey(k.name), a, b);
        }
      }
      assert Foreign(a) == Foreign(b);
    }
  }

  /** Every change that another actor makes is seen, and no other. */
  lemma RelevantExactlyWhen(a: Secret, b: Secret)
    ensures IsRelevantUpdate(Some(a), Some(b)) <==>
            || a.data != b.data || a.labels != b.labels
            || exists key :: Touched(ForeignKey(key), a.ann, b.ann)
  {
    ForeignAlike(a.ann, b.ann);
  }

  /** No write of the operator wakes it up again: the revision before its own one is the same to the filter. */
  lemma OwnWritesAreIrrelevant(x: Setup, w: World, i: nat)
    requires Reachable(x, w) && i < |w.log| && w.log[i].byOperator
    ensures exists b :: 0 <= b < i && w.log[b].secret.name == w.log[i].secret.name
                        && (forall k :: b < k < i ==> w.log[k].secret.name != w.log[i].secret.name)
                        && !IsRelevantUpdate(Some(w.log[b].secret), Some(w.log[i].secret))
  {
    ReachableInv(x, w);
    assert OwnRevision(x, w.log, i);
    var b :| 0 <= b < i && SameForOthers(w.log[b].secret, w.log[i].secret)
             && forall k :: b < k < i ==> w.log[k].secret.name != w.log[i].secret.name;
    RelevantExactlyWhen(w.log[b].secret, w.log[i].secret);
    forall key
      ensures !Touched(ForeignKey(key), w.log[b].secret.ann, w.log[i].secret.ann)
    {
    }
  }
}
