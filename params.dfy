/**
  Validation of the request parameters.

  A request is a dictionary; it is modelled as its (key, value) pairs in
  insertion order, the order Python iterates a dict in. Python dictionaries
  hold each key once (`DistinctKeys`), which the key-set lemmas assume.
*/
module Params {
  import opened Wrappers

  /** The JSON values a parameter can hold. */
  datatype Value = Null | Str(s: string) | Num(x: real) | Bool(b: bool)

  type Pair = (string, Value)

  /** The 13 parameters of processing_utils.py. */
  const UtilsKeys: seq<string> := [
    "beamsplitter", "detector", "medium", "mole", "molecule", "pressure", "resolution",
    "scan", "source", "waveMax", "waveMin", "window", "zeroFill"]

  /** The 11 parameters of functions.py and of both servers. */
  const ServerKeys: seq<string> := [
    "minWave", "maxWave", "molecule", "pressure", "resolution", "numScan", "zeroFill",
    "source", "beamsplitter", "cellWindow", "detector"]

  function KeysOf(ps: seq<Pair>): (ks: seq<string>)
    ensures |ks| == |ps|
  {
    seq(|ps|, i requires 0 <= i < |ps| => ps[i].0)
  }

  predicate Distinct(xs: seq<string>) {
    forall i, j :: 0 <= i < j < |xs| ==> xs[i] != xs[j]
  }

  predicate DistinctKeys(ps: seq<Pair>) { Distinct(KeysOf(ps)) }

  function SetOf(xs: seq<string>): set<string> { set x | x in xs }

  // ---------------------------------------------------------------------------
  // processing_utils.py and functions.py: a yes/no check
  // ---------------------------------------------------------------------------

  /** The count matches, every key is known and no value is `None`. */
  predicate Accepted(ps: seq<Pair>, valid: seq<string>) {
    |ps| == |valid| && forall i :: 0 <= i < |ps| ==> ps[i].0 in valid && ps[i].1 != Null
  }

  /** `param_check`: the count first, then each pair in order, stopping at the first bad one. */
  method CheckParams(ps: seq<Pair>, valid: seq<string>) returns (ok: bool)
    ensures ok <==> Accepted(ps, valid)
    ensures !ok && |ps| == |valid| ==>
      exists i :: 0 <= i < |ps| && (ps[i].0 !in valid || ps[i].1 == Null)
  {
    if |ps| != |valid| {
      return false;
    }
    for i := 0 to |ps|
      invariant forall j :: 0 <= j < i ==> ps[j].0 in valid && ps[j].1 != Null
    {
      var (key, value) := ps[i];
      if key !in valid || value == Null {
        return false;
      }
    }
    return true;
  }

  lemma {:induction false} DistinctCard(xs: seq<string>)
    requires Distinct(xs)
    ensures |SetOf(xs)| == |xs|
  {
    if |xs| > 0 {
      var init := xs[..|xs| - 1];
      var last := xs[|xs| - 1];
      assert SetOf(xs) == SetOf(init) + {last};
      assert last !in SetOf(init);
      DistinctCard(init);
    }
  }

  lemma SubsetSameSize(a: set<string>, b: set<string>)
    requires a <= b && |a| == |b|
    ensures a == b
  {
    if a != b {
      var x :| x in b && x !in a;
      assert a <= b - {x};
      SubsetCard(a, b - {x});
    }
  }

  lemma {:induction false} SubsetCard(a: set<string>, b: set<string>)
    requires a <= b
    ensures |a| <= |b|
    decreases |b|
  {
    if a != {} {
      var x :| x in a;
      SubsetCard(a - {x}, b - {x});
    }
  }

  /**
    On a real dictionary and a duplicate-free list of names, the count plus
    membership test is exactly "the key set is the set of valid names".
  */
  lemma ExactKeySet(ps: seq<Pair>, valid: seq<string>)
    requires DistinctKeys(ps) && Distinct(valid)
    ensures (|ps| == |valid| && forall i :: 0 <= i < |ps| ==> ps[i].0 in valid)
        <==> SetOf(KeysOf(ps)) == SetOf(valid)
  {
    var ks := SetOf(KeysOf(ps));
    DistinctCard(KeysOf(ps));
    DistinctCard(valid);
    if |ps| == |valid| && forall i :: 0 <= i < |ps| ==> ps[i].0 in valid {
      assert ks <= SetOf(valid) by {
        forall k | k in ks ensures k in SetOf(valid) {
          var i :| 0 <= i < |ps| && KeysOf(ps)[i] == k;
        }
      }
      SubsetSameSize(ks, SetOf(valid));
    }
    if ks == SetOf(valid) {
      forall i | 0 <= i < |ps| ensures ps[i].0 in valid {
        assert KeysOf(ps)[i] in ks;
      }
    }
  }

  lemma UtilsKeysDistinct()
    ensures |UtilsKeys| == 13 && Distinct(UtilsKeys)
  {
  }

  lemma ServerKeysDistinct()
    ensures |ServerKeys| == 11 && Distinct(ServerKeys)
  {
  }

  /** `param_check` of processing_utils.py accepts exactly the 13 names, none of them `None`. */
  lemma UtilsCheckExact(ps: seq<Pair>)
    requires DistinctKeys(ps)
    ensures Accepted(ps, UtilsKeys) <==>
      SetOf(KeysOf(ps)) == SetOf(UtilsKeys) && forall i :: 0 <= i < |ps| ==> ps[i].1 != Null
  {
    UtilsKeysDistinct();
    ExactKeySet(ps, UtilsKeys);
  }

  /**
    `__param_check` of functions.py accepts exactly the 11 names, none of them
    `None`; an empty string is accepted.
  */
  lemma LegacyCheckExact(ps: seq<Pair>)
    requires DistinctKeys(ps)
    ensures Accepted(ps, ServerKeys) <==>
      SetOf(KeysOf(ps)) == SetOf(ServerKeys) && forall i :: 0 <= i < |ps| ==> ps[i].1 != Null
    ensures |ps| == 11 && (forall i :: 0 <= i < |ps| ==> ps[i].0 in ServerKeys && ps[i].1 == Str(""))
        ==> Accepted(ps, ServerKeys)
  {
    ServerKeysDistinct();
    ExactKeySet(ps, ServerKeys);
  }

  // ---------------------------------------------------------------------------
  // The servers: the first problem, or nothing
  // ---------------------------------------------------------------------------

  /** The problem reported: the wrong number of keys, or the first bad key with its value. */
  datatype ParamError = WrongCount(count: nat) | BadKey(key: string, value: Value)

  /** A pair the servers accept: a known name holding neither `""` nor `None`. */
  predicate Usable(p: Pair) {
    p.0 in ServerKeys && p.1 != Str("") && p.1 != Null
  }

  /**
    `__param_check` of api/functions.py and flask/functions.py: `None` when
    all is well, otherwise the first problem in dictionary order.
  */
  method DescribeParams(ps: seq<Pair>) returns (err: Option<ParamError>)
    ensures |ps| != 11 ==> err == Some(WrongCount(|ps|))
    ensures |ps| == 11 ==> (err.None? <==> forall i :: 0 <= i < |ps| ==> Usable(ps[i]))
    ensures |ps| == 11 && err.Some? ==>
      exists i :: 0 <= i < |ps| && err.value == BadKey(ps[i].0, ps[i].1)
        && !Usable(ps[i]) && forall j :: 0 <= j < i ==> Usable(ps[j])
  {
    if |ps| != 11 {
      return Some(WrongCount(|ps|));
    }
    for i := 0 to |ps|
      invariant forall j :: 0 <= j < i ==> Usable(ps[j])
    {
      var (key, value) := ps[i];
      if key in ServerKeys {
        if value == Str("") || value == Null {
          return Some(BadKey(key, value));
        }
      } else {
        return Some(BadKey(key, value));
      }
    }
    return None;
  }

  /**
    The servers accept exactly the 11 names, none holding `""` or `None`; they
    accept strictly less than functions.py.
  */
  lemma ServerCheckExact(ps: seq<Pair>)
    requires DistinctKeys(ps)
    ensures (|ps| == 11 && forall i :: 0 <= i < |ps| ==> Usable(ps[i])) <==>
      && SetOf(KeysOf(ps)) == SetOf(ServerKeys)
      && forall i :: 0 <= i < |ps| ==> ps[i].1 != Null && ps[i].1 != Str("")
    ensures (|ps| == 11 && forall i :: 0 <= i < |ps| ==> Usable(ps[i])) ==> Accepted(ps, ServerKeys)
  {
    ServerKeysDistinct();
    ExactKeySet(ps, ServerKeys);
  }
}
