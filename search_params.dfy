// `URLSearchParams` as the browser keeps it: an ordered list of name-value
// pairs in which a name may repeat. Percent-encoding is not part of this
// model; only the list and the operations the shop uses on it are.

module SearchParams {
  import opened Common

  type Pairs = seq<(string, string)>

  /** `get(key)`: the value of the first pair with that name. */
  function Get(ps: Pairs, key: string): Option<string> {
    if |ps| == 0 then None
    else if ps[0].0 == key then Some(ps[0].1)
    else Get(ps[1..], key)
  }

  /** `getAll(key)`: the values of the pairs with that name, in order. */
  function Values(ps: Pairs, key: string): seq<string> {
    if |ps| == 0 then []
    else (if ps[0].0 == key then [ps[0].1] else []) + Values(ps[1..], key)
  }

  /** `get` reads the first of `getAll`. */
  lemma {:induction false} GetIsFirstValue(ps: Pairs, key: string)
    ensures Get(ps, key) == if Values(ps, key) == [] then None else Some(Values(ps, key)[0])
  {
    if |ps| > 0 && ps[0].0 != key {
      GetIsFirstValue(ps[1..], key);
    }
  }

  lemma {:induction false} ValuesAppend(a: Pairs, b: Pairs, key: string)
    ensures Values(a + b, key) == Values(a, key) + Values(b, key)
  {
    if |a| > 0 {
      assert (a + b)[1..] == a[1..] + b;
      ValuesAppend(a[1..], b, key);
    } else {
      assert a + b == b;
    }
  }

  /** The values of a single pair. */
  lemma SingleValues(key: string, value: string, other: string)
    ensures Values([(key, value)], other) == if other == key then [value] else []
  {
    assert [(key, value)][1..] == [];
  }

  /** `append(key, value)`. */
  function Append(ps: Pairs, key: string, value: string): Pairs {
    ps + [(key, value)]
  }

  /** `append` adds the value after the name's others and leaves every other
      name alone. */
  lemma AppendValues(ps: Pairs, key: string, value: string, other: string)
    ensures Values(Append(ps, key, value), key) == Values(ps, key) + [value]
    ensures other != key ==> Values(Append(ps, key, value), other) == Values(ps, other)
  {
    ValuesAppend(ps, [(key, value)], key);
    ValuesAppend(ps, [(key, value)], other);
    SingleValues(key, value, key);
    SingleValues(key, value, other);
  }

  /** `delete(key)`: every pair with that name goes. */
  function Delete(ps: Pairs, key: string): Pairs {
    if |ps| == 0 then []
    else (if ps[0].0 == key then [] else [ps[0]]) + Delete(ps[1..], key)
  }

  /** After `delete` the name has no value, and every other name keeps its
      values in order. */
  lemma {:induction false} DeleteValues(ps: Pairs, key: string, other: string)
    ensures Values(Delete(ps, key), key) == []
    ensures other != key ==> Values(Delete(ps, key), other) == Values(ps, other)
  {
    if |ps| > 0 {
      var head: Pairs := if ps[0].0 == key then [] else [ps[0]];
      DeleteValues(ps[1..], key, other);
      ValuesAppend(head, Delete(ps[1..], key), key);
      ValuesAppend(head, Delete(ps[1..], key), other);
    }
  }

  /** The position of the first pair with that name. */
  function FirstWith(ps: Pairs, key: string): (r: Option<nat>)
    ensures r.None? ==> Values(ps, key) == []
    ensures r.Some? ==> r.value < |ps| && ps[r.value].0 == key && Values(ps[..r.value], key) == []
  {
    if |ps| == 0 then None
    else if ps[0].0 == key then Some(0)
    else
      var rest := FirstWith(ps[1..], key);
      if rest.None? then None
      else
        assert ps[..rest.value + 1] == [ps[0]] + ps[1..][..rest.value];
        ValuesAppend([ps[0]], ps[1..][..rest.value], key);
        Some(rest.value + 1)
  }

  /** `set(key, value)`: the first pair with that name takes the value and
      the later ones go; without such a pair, the pair is appended. */
  function Set(ps: Pairs, key: string, value: string): Pairs {
    match FirstWith(ps, key)
    case Some(i) => ps[..i] + [(key, value)] + Delete(ps[i + 1..], key)
    case None => ps + [(key, value)]
  }

  /** After `set` the name has exactly the one value. */
  lemma SetValuesSame(ps: Pairs, key: string, value: string)
    ensures Values(Set(ps, key, value), key) == [value]
  {
    SingleValues(key, value, key);
    match FirstWith(ps, key) {
      case Some(i) =>
        var before, after := ps[..i], Delete(ps[i + 1..], key);
        DeleteValues(ps[i + 1..], key, key);
        ValuesAppend(before + [(key, value)], after, key);
        ValuesAppend(before, [(key, value)], key);
      case None =>
        AppendValues(ps, key, value, key);
    }
  }

  /** After `set` every other name keeps its values in order. */
  lemma SetValuesOther(ps: Pairs, key: string, value: string, other: string)
    requires other != key
    ensures Values(Set(ps, key, value), other) == Values(ps, other)
  {
    SingleValues(key, value, other);
    match FirstWith(ps, key) {
      case Some(i) =>
        var before, rest := ps[..i], ps[i + 1..];
        assert ps == before + ([ps[i]] + rest);
        SingleValues(ps[i].0, ps[i].1, other);
        DeleteValues(rest, key, other);
        ValuesAppend(before + [(key, value)], Delete(rest, key), other);
        ValuesAppend(before, [(key, value)], other);
        ValuesAppend(before, [ps[i]] + rest, other);
        ValuesAppend([ps[i]], rest, other);
      case None =>
        AppendValues(ps, key, value, other);
    }
  }
}
