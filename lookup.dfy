/** The dotted-path walk every sensor performs on the coordinator's snapshot:
    one key at a time, each step descending into the current dict. */
module PathLookup {
  import opened Wrappers
  import opened JsonValue

  /** One step of the walk: `value[key]` when `value` is a dict holding `key`. */
  function Step(value: Json, key: string): Option<Json>
  {
    if value.JObject? && key in value.fields then Some(value.fields[key]) else None
  }

  /** The value reached by following `keys` from `value`, or None as soon as a
      key is missing or the current value is not a dict. */
  function Walk(value: Json, keys: seq<string>): Option<Json>
    decreases |keys|
  {
    if keys == [] then Some(value)
    else
      match Step(value, keys[0])
      case None => None
      case Some(child) => Walk(child, keys[1..])
  }

  /** The walk itself, as the loop the sensors run. */
  method WalkLoop(data: Json, keys: seq<string>) returns (r: Option<Json>)
    ensures r == Walk(data, keys)
  {
    var value := data;
    var i := 0;
    while i < |keys|
      invariant 0 <= i <= |keys|
      invariant Walk(data, keys) == Walk(value, keys[i..])
    {
      var key := keys[i];
      assert keys[i..][1..] == keys[i + 1..];
      if value.JObject? && key in value.fields {
        value := value.fields[key];
      } else {
        return None;
      }
      i := i + 1;
    }
    assert keys[i..] == [];
    r := Some(value);
  }

  // ---- the walk goes segment by segment, in order ----

  function Then(r: Option<Json>, keys: seq<string>): Option<Json>
  {
    match r
    case None => None
    case Some(v) => Walk(v, keys)
  }

  /** Walking `p + q` is walking `p`, then walking `q` from where `p` ended. */
  lemma {:induction false} WalkConcat(value: Json, p: seq<string>, q: seq<string>)
    ensures Walk(value, p + q) == Then(Walk(value, p), q)
    decreases |p|
  {
    if p == [] {
      assert p + q == q;
    } else {
      assert (p + q)[0] == p[0];
      assert (p + q)[1..] == p[1..] + q;
      match Step(value, p[0])
      case None =>
      case Some(child) => WalkConcat(child, p[1..], q);
    }
  }

  /** The prefix of `i + 1` keys is reached from the prefix of `i` keys by one Step on `keys[i]`. */
  lemma WalkPrefixStep(value: Json, keys: seq<string>, i: nat)
    requires i < |keys|
    ensures Walk(value, keys[..i + 1]) ==
      (match Walk(value, keys[..i]) case None => None case Some(u) => Step(u, keys[i]))
  {
    assert keys[..i + 1] == keys[..i] + [keys[i]];
    WalkConcat(value, keys[..i], [keys[i]]);
    match Walk(value, keys[..i])
    case None =>
    case Some(u) =>
      assert [keys[i]][1..] == [];
      match Step(u, keys[i])
      case None =>
      case Some(c) => assert Walk(c, []) == Some(c);
  }

  // ---- where the walk fails ----

  /** The walk reaches its `i`-th key, and that key cannot be followed. */
  ghost predicate FailsAt(value: Json, keys: seq<string>, i: int)
    requires 0 <= i < |keys|
  {
    Walk(value, keys[..i]).Some? && Step(Walk(value, keys[..i]).value, keys[i]).None?
  }

  /** The walk yields None exactly when some key along the path is missing or
      meets a non-dict. */
  lemma {:induction false} WalkNoneIff(value: Json, keys: seq<string>)
    ensures Walk(value, keys).None? <==> exists i :: 0 <= i < |keys| && FailsAt(value, keys, i)
    decreases |keys|
  {
    if keys != [] {
      assert keys[..0] == [];
      match Step(value, keys[0])
      case None =>
        assert FailsAt(value, keys, 0);
      case Some(child) =>
        WalkNoneIff(child, keys[1..]);
        assert !FailsAt(value, keys, 0);
        forall j | 0 <= j < |keys| - 1
          ensures FailsAt(value, keys, j + 1) <==> FailsAt(child, keys[1..], j)
        {
          assert keys[..j + 1][0] == keys[0];
          assert keys[..j + 1][1..] == keys[1..][..j];
          assert keys[j + 1] == keys[1..][j];
        }
        if Walk(child, keys[1..]).None? {
          var j :| 0 <= j < |keys| - 1 && FailsAt(child, keys[1..], j);
          assert FailsAt(value, keys, j + 1);
        } else {
          forall i | 0 <= i < |keys| ensures !FailsAt(value, keys, i) {
            if i > 0 {
              assert !FailsAt(child, keys[1..], i - 1);
            }
          }
        }
    }
  }

  // ---- where the walk succeeds ----

  /** `chain` lists the values met along `keys`: it starts at `value` and each
      entry is the previous dict's entry for the next key. */
  ghost predicate IsChain(value: Json, keys: seq<string>, chain: seq<Json>)
  {
    && |chain| == |keys| + 1
    && chain[0] == value
    && forall i :: 0 <= i < |keys| ==>
         chain[i].JObject? && keys[i] in chain[i].fields && chain[i + 1] == chain[i].fields[keys[i]]
  }

  lemma {:induction false} ChainWalks(value: Json, keys: seq<string>, chain: seq<Json>)
    requires IsChain(value, keys, chain)
    ensures Walk(value, keys) == Some(chain[|keys|])
    decreases |keys|
  {
    if keys != [] {
      assert Step(value, keys[0]) == Some(chain[1]);
      var tail := chain[1..];
      assert IsChain(chain[1], keys[1..], tail) by {
        forall i | 0 <= i < |keys| - 1
          ensures tail[i].JObject? && keys[1..][i] in tail[i].fields
          ensures tail[i + 1] == tail[i].fields[keys[1..][i]]
        {
          assert tail[i] == chain[i + 1] && tail[i + 1] == chain[i + 2];
        }
      }
      ChainWalks(chain[1], keys[1..], tail);
    }
  }

  lemma {:induction false} WalkChain(value: Json, keys: seq<string>) returns (chain: seq<Json>)
    requires Walk(value, keys).Some?
    ensures IsChain(value, keys, chain) && chain[|keys|] == Walk(value, keys).value
    decreases |keys|
  {
    if keys == [] {
      chain := [value];
    } else {
      var child := value.fields[keys[0]];
      var tail := WalkChain(child, keys[1..]);
      chain := [value] + tail;
      forall i | 0 <= i < |keys|
        ensures chain[i].JObject? && keys[i] in chain[i].fields
        ensures chain[i + 1] == chain[i].fields[keys[i]]
      {
        if i > 0 {
          assert chain[i] == tail[i - 1] && chain[i + 1] == tail[i] && keys[i] == keys[1..][i - 1];
        }
      }
    }
  }

  /** The walk yields `leaf` exactly when there is a chain of dicts along the
      keys that ends in `leaf`: success gives the value at that path. */
  lemma WalkSomeIff(value: Json, keys: seq<string>, leaf: Json)
    ensures Walk(value, keys) == Some(leaf) <==>
      exists chain :: IsChain(value, keys, chain) && chain[|keys|] == leaf
  {
    if Walk(value, keys) == Some(leaf) {
      var chain := WalkChain(value, keys);
    }
    if exists chain :: IsChain(value, keys, chain) && chain[|keys|] == leaf {
      var chain :| IsChain(value, keys, chain) && chain[|keys|] == leaf;
      ChainWalks(value, keys, chain);
    }
  }

  /** A two-key path resolves through exactly two dict lookups. */
  lemma WalkTwoKeys(value: Json, outer: string, inner: string)
    ensures Walk(value, [outer, inner]) ==
      if value.JObject? && outer in value.fields
         && value.fields[outer].JObject? && inner in value.fields[outer].fields
      then Some(value.fields[outer].fields[inner])
      else None
  {
    assert [outer, inner][1..] == [inner];
    assert [inner][1..] == [];
    if value.JObject? && outer in value.fields {
      var mid := value.fields[outer];
      assert Walk(value, [outer, inner]) == Walk(mid, [inner]);
      if mid.JObject? && inner in mid.fields {
        assert Walk(mid.fields[inner], []) == Some(mid.fields[inner]);
      }
    }
  }
}
