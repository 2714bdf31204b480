/** The query of a URL as a `URLSearchParams` list of name-value pairs (section 6.2 of the WHATWG
    URL Standard). Percent-encoding and the string form of the query are not modelled. */
module UrlQuery {
  import opened Wrappers

  datatype Pair = Pair(name: string, value: string)

  /** The list of name-value pairs, in order. */
  type Query = seq<Pair>

  /** `getAll(name)`: the values of the pairs with that name, in order. */
  function GetAll(q: Query, name: string): seq<string> {
    if q == [] then []
    else (if q[0].name == name then [q[0].value] else []) + GetAll(q[1..], name)
  }

  /** `get(name)`: the value of the first pair with that name, or null. */
  function Get(q: Query, name: string): (r: Option<string>)
    ensures r.None? <==> GetAll(q, name) == []
    ensures r.Some? ==> r.value == GetAll(q, name)[0]
  {
    if q == [] then None
    else if q[0].name == name then Some(q[0].value)
    else Get(q[1..], name)
  }

  /** The pairs whose names are not in `names`, in their original order. */
  function Others(q: Query, names: set<string>): Query {
    if q == [] then []
    else (if q[0].name in names then [] else [q[0]]) + Others(q[1..], names)
  }

  /** `append(name, value)`: a new pair at the end. */
  function Appended(q: Query, name: string, value: string): Query {
    q + [Pair(name, value)]
  }

  /** `delete(name)`: every pair with that name goes. */
  function Deleted(q: Query, name: string): Query {
    Others(q, {name})
  }

  /** `set(name, value)`: the first pair with that name takes the value and the later ones go;
      when there is none, the pair is appended. */
  function WithSet(q: Query, name: string, value: string): Query {
    if q == [] then [Pair(name, value)]
    else if q[0].name == name then [Pair(name, value)] + Deleted(q[1..], name)
    else [q[0]] + WithSet(q[1..], name, value)
  }

  /** One pair per value, all with the given name. */
  function PairsOf(name: string, values: seq<string>): (r: Query)
    ensures |r| == |values|
  {
    seq(|values|, i requires 0 <= i < |values| => Pair(name, values[i]))
  }

  /** `values.forEach(v => params.append(name, v))`. */
  function AppendedAll(q: Query, name: string, values: seq<string>): Query {
    q + PairsOf(name, values)
  }

  /** `getAll` of a concatenation is the concatenation of the `getAll`s. */
  lemma {:induction false} GetAllConcat(q1: Query, q2: Query, name: string)
    ensures GetAll(q1 + q2, name) == GetAll(q1, name) + GetAll(q2, name)
  {
    if q1 != [] {
      assert (q1 + q2)[1..] == q1[1..] + q2;
      GetAllConcat(q1[1..], q2, name);
    } else {
      assert q1 + q2 == q2;
    }
  }

  /** `getAll` after `append` sees the new value last, and other names are unaffected. */
  lemma GetAllAppended(q: Query, n: string, v: string, m: string)
    ensures GetAll(Appended(q, n, v), m) == GetAll(q, m) + (if m == n then [v] else [])
  {
    GetAllConcat(q, [Pair(n, v)], m);
  }

  /** The pairs appended by a `forEach` are exactly the values, in order, under their name. */
  lemma {:induction false} GetAllPairsOf(n: string, values: seq<string>, m: string)
    ensures GetAll(PairsOf(n, values), m) == if m == n then values else []
  {
    if values != [] {
      assert PairsOf(n, values)[1..] == PairsOf(n, values[1..]);
      GetAllPairsOf(n, values[1..], m);
    }
  }

  /** `getAll` after a `forEach` of appends. */
  lemma GetAllAppendedAll(q: Query, n: string, values: seq<string>, m: string)
    ensures GetAll(AppendedAll(q, n, values), m) == GetAll(q, m) + (if m == n then values else [])
  {
    GetAllConcat(q, PairsOf(n, values), m);
    GetAllPairsOf(n, values, m);
  }

  /** Dropping the pairs named in `names` leaves the other names' values alone. */
  lemma {:induction false} GetAllOthers(q: Query, names: set<string>, m: string)
    ensures GetAll(Others(q, names), m) == if m in names then [] else GetAll(q, m)
  {
    if q != [] {
      GetAllOthers(q[1..], names, m);
      GetAllConcat(if q[0].name in names then [] else [q[0]], Others(q[1..], names), m);
    }
  }

  /** `getAll` after `delete`. */
  lemma GetAllDeleted(q: Query, n: string, m: string)
    ensures GetAll(Deleted(q, n), m) == if m == n then [] else GetAll(q, m)
  {
    GetAllOthers(q, {n}, m);
  }

  /** `getAll` after `set`: exactly the one new value under that name, the rest unaffected. */
  lemma {:induction false} GetAllWithSet(q: Query, n: string, v: string, m: string)
    ensures GetAll(WithSet(q, n, v), m) == if m == n then [v] else GetAll(q, m)
  {
    if q == [] {
    } else if q[0].name == n {
      GetAllConcat([Pair(n, v)], Deleted(q[1..], n), m);
      GetAllDeleted(q[1..], n, m);
    } else {
      GetAllConcat([q[0]], WithSet(q[1..], n, v), m);
      GetAllWithSet(q[1..], n, v, m);
    }
  }

  /** Dropping two sets of names one after the other drops their union. */
  lemma {:induction false} OthersOthers(q: Query, a: set<string>, b: set<string>)
    ensures Others(Others(q, a), b) == Others(q, a + b)
  {
    if q != [] {
      OthersConcat(if q[0].name in a then [] else [q[0]], Others(q[1..], a), b);
      OthersOthers(q[1..], a, b);
    }
  }

  /** `Others` of a concatenation is the concatenation of the `Others`. */
  lemma {:induction false} OthersConcat(q1: Query, q2: Query, names: set<string>)
    ensures Others(q1 + q2, names) == Others(q1, names) + Others(q2, names)
  {
    if q1 != [] {
      assert (q1 + q2)[1..] == q1[1..] + q2;
      OthersConcat(q1[1..], q2, names);
    } else {
      assert q1 + q2 == q2;
    }
  }

  /** `delete` of a name in `names` does not disturb the pairs outside `names`. */
  lemma OthersDeleted(q: Query, n: string, names: set<string>)
    requires n in names
    ensures Others(Deleted(q, n), names) == Others(q, names)
  {
    OthersOthers(q, {n}, names);
    assert {n} + names == names;
  }

  /** `append` under a name in `names` does not disturb the pairs outside `names`. */
  lemma OthersAppendedAll(q: Query, n: string, values: seq<string>, names: set<string>)
    requires n in names
    ensures Others(AppendedAll(q, n, values), names) == Others(q, names)
  {
    OthersConcat(q, PairsOf(n, values), names);
    OthersPairsOf(n, values, names);
  }

  lemma {:induction false} OthersPairsOf(n: string, values: seq<string>, names: set<string>)
    requires n in names
    ensures Others(PairsOf(n, values), names) == []
  {
    if values != [] {
      assert PairsOf(n, values)[1..] == PairsOf(n, values[1..]);
      OthersPairsOf(n, values[1..], names);
    }
  }

  /** `set` of a name in `names` does not disturb the pairs outside `names`. */
  lemma {:induction false} OthersWithSet(q: Query, n: string, v: string, names: set<string>)
    requires n in names
    ensures Others(WithSet(q, n, v), names) == Others(q, names)
  {
    if q == [] {
      assert Others([Pair(n, v)], names) == [];
    } else if q[0].name == n {
      OthersConcat([Pair(n, v)], Deleted(q[1..], n), names);
      OthersDeleted(q[1..], n, names);
    } else {
      OthersConcat([q[0]], WithSet(q[1..], n, v), names);
      OthersWithSet(q[1..], n, v, names);
    }
  }

  /** `set` keeps the position of the first pair with that name: before it, nothing changes. */
  lemma {:induction false} WithSetKeepsPosition(q: Query, n: string, v: string, k: nat)
    requires k < |q| && q[k].name == n
    requires forall i :: 0 <= i < k ==> q[i].name != n
    ensures k < |WithSet(q, n, v)| && WithSet(q, n, v)[..k] == q[..k] && WithSet(q, n, v)[k] == Pair(n, v)
  {
    if k > 0 {
      WithSetKeepsPosition(q[1..], n, v, k - 1);
    }
  }

  /** A mutable `URLSearchParams` object. */
  class SearchParams {
    var pairs: Query

    /** `new URLSearchParams(init)`: a copy of the given list. */
    constructor (init: Query)
      ensures pairs == init
    {
      pairs := init;
    }

    method Append(name: string, value: string)
      modifies this
      ensures pairs == Appended(old(pairs), name, value)
    {
      pairs := pairs + [Pair(name, value)];
    }

    method Delete(name: string)
      modifies this
      ensures pairs == Deleted(old(pairs), name)
    {
      pairs := Deleted(pairs, name);
    }

    method Set(name: string, value: string)
      modifies this
      ensures pairs == WithSet(old(pairs), name, value)
    {
      pairs := WithSet(pairs, name, value);
    }

    /** `values.forEach(v => this.append(name, v))`. */
    method AppendEach(name: string, values: seq<string>)
      modifies this
      ensures pairs == AppendedAll(old(pairs), name, values)
    {
      var i := 0;
      while i < |values|
        invariant 0 <= i <= |values|
        invariant pairs == AppendedAll(old(pairs), name, values[..i])
      {
        assert PairsOf(name, values[..i + 1]) == PairsOf(name, values[..i]) + [Pair(name, values[i])];
        Append(name, values[i]);
        i := i + 1;
      }
      assert values[..i] == values;
    }
  }
}
