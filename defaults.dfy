/** Filling an options object with default values, as lodash's `defaultsDeep`
    does when every default is a scalar: a property is set to its default when
    the object's own value for it is `undefined` (missing, or present with the
    value `undefined`), and every other property is left as the caller wrote it,
    `null` included. The object is changed in place. */
module Defaults {
  import opened Js

  /** Defaults in the order their object literal lists them. */
  type DefaultList = seq<(string, JsValue)>

  predicate DistinctKeys(d: DefaultList) {
    forall i, j :: 0 <= i < j < |d| ==> d[i].0 != d[j].0
  }

  /** The default listed for `k`, if any. */
  function Lookup(d: DefaultList, k: string): (v: Option<JsValue>) {
    if d == [] then None
    else if d[|d| - 1].0 == k then Some(d[|d| - 1].1)
    else Lookup(d[..|d| - 1], k)
  }

  /** One step of the fill: `k` takes `v` only when its value is `undefined`. */
  function FillOne(o: JsObject, k: string, v: JsValue): (r: JsObject) {
    if Get(o, k) == Undefined then o[k := v] else o
  }

  /** The object after the defaults in `d` have been applied one by one. */
  function Filled(o: JsObject, d: DefaultList): (r: JsObject)
    decreases |d|
  {
    if d == [] then o
    else FillOne(Filled(o, d[..|d| - 1]), d[|d| - 1].0, d[|d| - 1].1)
  }

  /** Per property: the result has the caller's properties and the defaulted
      ones; a property the caller set to anything but `undefined` keeps the
      caller's value, a defaulted property the caller left `undefined` takes its
      default, and every other property is untouched. */
  lemma {:induction false} FilledAt(o: JsObject, d: DefaultList, k: string)
    requires DistinctKeys(d)
    ensures k in Filled(o, d) <==> k in o || Lookup(d, k).Some?
    ensures Get(Filled(o, d), k) ==
      if Get(o, k) != Undefined || Lookup(d, k).None? then Get(o, k) else Lookup(d, k).value
  {
    if d != [] {
      var init := d[..|d| - 1];
      assert DistinctKeys(init) by {
        forall i, j | 0 <= i < j < |init| ensures init[i].0 != init[j].0 {
          assert init[i] == d[i] && init[j] == d[j];
        }
      }
      FilledAt(o, init, k);
      if d[|d| - 1].0 == k {
        assert forall i :: 0 <= i < |init| ==> init[i].0 != k by {
          forall i | 0 <= i < |init| ensures init[i].0 != k {
            assert init[i] == d[i];
          }
        }
        NotListed(init, k);
      }
    }
  }

  /** A key that no entry names has no default. */
  lemma {:induction false} NotListed(d: DefaultList, k: string)
    requires forall i :: 0 <= i < |d| ==> d[i].0 != k
    ensures Lookup(d, k).None?
    decreases |d|
  {
    if d != [] {
      NotListed(d[..|d| - 1], k);
    }
  }

  /** Filling an object a second time with the same defaults changes nothing. */
  lemma FilledIdempotent(o: JsObject, d: DefaultList)
    requires DistinctKeys(d)
    ensures Filled(Filled(o, d), d) == Filled(o, d)
  {
    var once := Filled(o, d);
    var twice := Filled(once, d);
    forall k
      ensures k in twice <==> k in once
      ensures k in once ==> twice[k] == once[k]
    {
      FilledAt(o, d, k);
      FilledAt(once, d, k);
    }
  }

  /** `defaultsDeep(target, defaults)`: fills `target` in place and returns it. */
  method DefaultsDeep(target: JsRecord, defaults: DefaultList) returns (r: JsRecord)
    modifies target
    ensures r == target
    ensures target.props == Filled(old(target.props), defaults)
  {
    var i := 0;
    while i < |defaults|
      invariant 0 <= i <= |defaults|
      invariant target.props == Filled(old(target.props), defaults[..i])
    {
      var (k, v) := defaults[i];
      if Get(target.props, k) == Undefined {
        target.props := target.props[k := v];
      }
      assert defaults[..i + 1][..i] == defaults[..i];
      i := i + 1;
    }
    assert defaults[..|defaults|] == defaults;
    r := target;
  }
}
