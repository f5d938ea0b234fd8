/** Script variables: the insertion-ordered dictionary of string bindings the
    script expander threads through a script, and `${name}` substitution. */
module Env {
  import opened Text

  /** A Python `dict[str, str]`: keys in insertion order. */
  type Env = seq<(string, string)>

  function Keys(e: Env): (r: seq<string>)
    ensures |r| == |e| && forall i :: 0 <= i < |e| ==> r[i] == e[i].0
  {
    if e == [] then [] else [e[0].0] + Keys(e[1..])
  }

  /** `e.get(k)`: the value bound to `k`, if any. */
  function Get(e: Env, k: string): (r: Option<string>)
    ensures r.None? <==> k !in Keys(e)
  {
    if e == [] then None
    else if e[0].0 == k then Some(e[0].1)
    else Get(e[1..], k)
  }

  /** `e[k] = v`: an existing key keeps its position, a new key goes last. */
  function Put(e: Env, k: string, v: string): (r: Env)
    ensures Get(r, k) == Some(v)
    ensures forall k' :: k' != k ==> Get(r, k') == Get(e, k')
    ensures k in Keys(e) ==> Keys(r) == Keys(e)
    ensures k !in Keys(e) ==> Keys(r) == Keys(e) + [k]
  {
    if e == [] then [(k, v)]
    else if e[0].0 == k then [(k, v)] + e[1..]
    else [e[0]] + Put(e[1..], k, v)
  }

  /** Binds `keys[i]` to `values[i]` in turn, as `zip` does (a repeated key
      keeps the later value). */
  function PutAll(e: Env, keys: seq<string>, values: seq<string>): (r: Env)
    requires |keys| == |values|
    ensures forall k :: k !in keys ==> Get(r, k) == Get(e, k)
    decreases |keys|
  {
    if keys == [] then e
    else PutAll(Put(e, keys[0], values[0]), keys[1..], values[1..])
  }

  /** After `zip`-binding, each key holds the value paired with its last
      occurrence in the list. */
  lemma {:induction false} PutAllBinds(e: Env, keys: seq<string>, values: seq<string>, i: nat)
    requires |keys| == |values|
    requires i < |keys| && keys[i] !in keys[i + 1..]
    ensures Get(PutAll(e, keys, values), keys[i]) == Some(values[i])
    decreases |keys|
  {
    if i > 0 {
      assert keys[1..][i - 1 + 1..] == keys[i + 1..];
      PutAllBinds(Put(e, keys[0], values[0]), keys[1..], values[1..], i - 1);
    }
  }

  /** The placeholder text `${name}`. */
  function Placeholder(name: string): (r: string)
    ensures |r| == |name| + 3 && r[0] == '$' && r[1] == '{'
  {
    "${" + name + "}"
  }

  /** `_substitute_vars`: every `${name}` replaced by its value, one binding
      at a time in insertion order, so a value that itself holds a
      placeholder can be expanded by a later binding. */
  function Subst(s: string, e: Env): string
    decreases |e|
  {
    if e == [] then s else Subst(ReplaceAll(s, Placeholder(e[0].0), e[0].1), e[1..])
  }

  /** Text without any `${` comes out of substitution unchanged, whatever is bound. */
  lemma {:induction false} SubstNoPlaceholder(s: string, e: Env)
    requires NoPlaceholder(s)
    ensures Subst(s, e) == s
    decreases |e|
  {
    if e != [] {
      ReplaceAllNoPlaceholder(s, Placeholder(e[0].0), e[0].1);
      SubstNoPlaceholder(s, e[1..]);
    }
  }

  /** A placeholder replaced by its own pattern becomes the replacement. */
  lemma ReplaceWhole(k: string, v: string)
    ensures ReplaceAll(Placeholder(k), Placeholder(k), v) == v
  {
    var p := Placeholder(k);
    assert p[..|p|] == p && p[|p|..] == [];
  }

  /** No other name's placeholder is a prefix of the placeholder of a name
      without `}`. */
  lemma PlaceholderNotPrefix(k: string, j: string)
    requires j != k && '}' !in k && |Placeholder(j)| <= |Placeholder(k)|
    ensures Placeholder(k)[..|Placeholder(j)|] != Placeholder(j)
  {
    var pk, pj := Placeholder(k), Placeholder(j);
    if |j| < |k| {
      assert k[|j|] == pk[..|pj|][|j| + 2];
    } else {
      assert pk[..|pj|] == pk;
      assert j == pj[2..|pj| - 1];
    }
  }

  /** The placeholder of `k` is untouched by replacing that of another name. */
  lemma ReplaceOther(k: string, j: string, w: string)
    requires j != k && '}' !in k && NoPlaceholder(k)
    ensures ReplaceAll(Placeholder(k), Placeholder(j), w) == Placeholder(k)
  {
    var pk, pj := Placeholder(k), Placeholder(j);
    if |pk| >= |pj| {
      PlaceholderNotPrefix(k, j);
      var tail := pk[1..];
      assert tail == "{" + k + "}";
      assert NoPlaceholder(tail) by {
        forall i | 0 <= i < |tail| - 1 ensures !(tail[i] == '$' && tail[i + 1] == '{') {
          if 1 <= i < |tail| - 2 {
            assert tail[i] == k[i - 1] && tail[i + 1] == k[i];
          }
        }
      }
      ReplaceAllNoPlaceholder(tail, pj, w);
      assert [pk[0]] + tail == pk;
    }
  }

  /** A `${k}` whose name is bound to a value without placeholders comes out
      of substitution as exactly that value. */
  lemma {:induction false} SubstBound(e: Env, k: string, v: string)
    requires Get(e, k) == Some(v)
    requires '}' !in k && NoPlaceholder(k) && NoPlaceholder(v)
    ensures Subst(Placeholder(k), e) == v
    decreases |e|
  {
    if e[0].0 == k {
      ReplaceWhole(k, v);
      SubstNoPlaceholder(v, e[1..]);
    } else {
      ReplaceOther(k, e[0].0, e[0].1);
      SubstBound(e[1..], k, v);
    }
  }
}
