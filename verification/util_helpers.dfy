/** The two dictionary helpers of zendriver_flare_bypasser/core/util.py:
    `compare_target_info`, which diffs two target-info records field by field,
    and `merge_dict`, which merges option dictionaries. */
module UtilHelpers {
  import opened Wrappers

  /** An object's `__dict__`: its fields in declaration order, each name once. */
  type Fields<V> = seq<(string, V)>

  predicate DistinctNames<V>(d: Fields<V>) {
    forall i, j :: 0 <= i < j < |d| ==> d[i].0 != d[j].0
  }

  /** `d[name]`: the value of the first field with that name. */
  function Get<V>(d: Fields<V>, name: string): Option<V> {
    if d == [] then None
    else if d[0].0 == name then Some(d[0].1)
    else Get(d[1..], name)
  }

  lemma GetDistinct<V>(d: Fields<V>, i: nat)
    requires DistinctNames(d) && i < |d|
    ensures Get(d, d[i].0) == Some(d[i].1)
  {
    if i > 0 {
      GetDistinct(d[1..], i - 1);
    }
  }

  /** One entry of the result: the field name, its old and its new value. */
  datatype Change<V> = Change(key: string, oldValue: V, newValue: V)

  /** `d2[k]` on a field `info2` lacks raises `KeyError`. */
  datatype DiffError = MissingField(key: string)

  /** Field `i` is the first field of `info1` that `info2` lacks. */
  predicate FirstMissing<V>(info1: Fields<V>, info2: Fields<V>, i: nat)
    requires i < |info1|
  {
    Get(info2, info1[i].0).None? && forall j :: 0 <= j < i ==> Get(info2, info1[j].0).Some?
  }

  /** `compare_target_info(info1, info2)`: the fields of `info1`, in order,
      whose value in `info2` differs; the first field of `info1` that `info2`
      lacks raises. */
  function CompareTargetInfo<V(==)>(info1: Fields<V>, info2: Fields<V>): (r: Result<seq<Change<V>>, DiffError>)
    ensures r.Success? <==> forall i :: 0 <= i < |info1| ==> Get(info2, info1[i].0).Some?
    ensures r.Failure? ==>
      exists i :: 0 <= i < |info1| && r.error == MissingField(info1[i].0) && FirstMissing(info1, info2, i)
    ensures r.Success? ==> |r.value| <= |info1|
  {
    if info1 == [] then Success([])
    else
      var (k, v) := info1[0];
      match Get(info2, k)
      case None => Failure(MissingField(k))
      case Some(v2) =>
        var rest := CompareTargetInfo(info1[1..], info2);
        assert forall i :: 1 <= i < |info1| ==> info1[i] == info1[1..][i - 1];
        if rest.Failure? then
          assert exists i :: 0 <= i < |info1| && rest.error == MissingField(info1[i].0) && FirstMissing(info1, info2, i) by {
            var i1 :| 0 <= i1 < |info1| - 1 && rest.error == MissingField(info1[1..][i1].0) && FirstMissing(info1[1..], info2, i1);
            assert info1[i1 + 1] == info1[1..][i1];
            assert FirstMissing(info1, info2, i1 + 1);
          }
          Failure(rest.error)
        else
          Success((if v2 != v then [Change(k, v, v2)] else []) + rest.value)
  }

  function Names<V>(d: Fields<V>): (r: seq<string>)
    ensures |r| == |d|
  {
    if d == [] then [] else [d[0].0] + Names(d[1..])
  }

  function Keys<V>(changes: seq<Change<V>>): (r: seq<string>)
    ensures |r| == |changes|
  {
    if changes == [] then [] else [changes[0].key] + Keys(changes[1..])
  }

  /** `xs` is `ys` with some elements left out, the rest in order. */
  predicate Subsequence(xs: seq<string>, ys: seq<string>)
    decreases |ys|
  {
    if xs == [] then true
    else if ys == [] then false
    else (xs[0] == ys[0] && Subsequence(xs[1..], ys[1..])) || Subsequence(xs, ys[1..])
  }

  /** Each change pairs a field of `info1` (name and old value) with that
      name's value in `info2`, and the two values differ. */
  lemma {:induction false} ChangesComeFromFields<V>(info1: Fields<V>, info2: Fields<V>)
    requires CompareTargetInfo(info1, info2).Success?
    ensures forall c :: c in CompareTargetInfo(info1, info2).value ==>
      (c.key, c.oldValue) in info1 && Get(info2, c.key) == Some(c.newValue) && c.oldValue != c.newValue
  {
    if info1 != [] {
      ChangesComeFromFields(info1[1..], info2);
      assert forall x :: x in info1[1..] ==> x in info1;
    }
  }

  /** Every field of `info1` whose value in `info2` differs gives its change. */
  lemma {:induction false} DifferingFieldsAppear<V>(info1: Fields<V>, info2: Fields<V>)
    requires CompareTargetInfo(info1, info2).Success?
    ensures forall i :: 0 <= i < |info1| && Get(info2, info1[i].0).value != info1[i].1 ==>
      Change(info1[i].0, info1[i].1, Get(info2, info1[i].0).value) in CompareTargetInfo(info1, info2).value
  {
    if info1 != [] {
      DifferingFieldsAppear(info1[1..], info2);
      assert forall i :: 1 <= i < |info1| ==> info1[i] == info1[1..][i - 1];
    }
  }

  /** The changes come in `info1`'s field order. */
  lemma {:induction false} ChangesInFieldOrder<V>(info1: Fields<V>, info2: Fields<V>)
    requires CompareTargetInfo(info1, info2).Success?
    ensures Subsequence(Keys(CompareTargetInfo(info1, info2).value), Names(info1))
  {
    if info1 != [] {
      var (k, v) := info1[0];
      var v2 := Get(info2, k).value;
      ChangesInFieldOrder(info1[1..], info2);
      var rest := CompareTargetInfo(info1[1..], info2).value;
      var r := CompareTargetInfo(info1, info2).value;
      assert Names(info1)[1..] == Names(info1[1..]);
      if v2 != v {
        assert r == [Change(k, v, v2)] + rest;
        assert r[1..] == rest;
      } else {
        assert r == rest;
      }
    }
  }

  lemma {:induction false} CompareSuffixWithWhole<V>(info: Fields<V>, k: nat)
    requires DistinctNames(info) && k <= |info|
    ensures CompareTargetInfo(info[k..], info) == Success([])
    decreases |info| - k
  {
    if k < |info| {
      assert info[k..][0] == info[k] && info[k..][1..] == info[k + 1..];
      GetDistinct(info, k);
      CompareSuffixWithWhole(info, k + 1);
    }
  }

  /** Equal records give no changes. */
  lemma CompareIdenticalIsEmpty<V>(info: Fields<V>)
    requires DistinctNames(info)
    ensures CompareTargetInfo(info, info) == Success([])
  {
    CompareSuffixWithWhole(info, 0);
    assert info[0..] == info;
  }

  /** `merge_dict(dict1, dict2)`: a new dictionary updated first from `dict1`
      then from `dict2`; `None` and `{}` add nothing. */
  function MergeDict<V>(dict1: Option<map<string, V>>, dict2: Option<map<string, V>>): (r: map<string, V>)
    ensures forall k :: k in r <==> (dict1.Some? && k in dict1.value) || (dict2.Some? && k in dict2.value)
    ensures forall k :: dict2.Some? && k in dict2.value ==> r[k] == dict2.value[k]
    ensures forall k :: dict1.Some? && k in dict1.value && !(dict2.Some? && k in dict2.value) ==> r[k] == dict1.value[k]
  {
    var newDict: map<string, V> := map[];
    var updated := if dict1.Some? && dict1.value != map[] then newDict + dict1.value else newDict;
    if dict2.Some? && dict2.value != map[] then updated + dict2.value else updated
  }
}
