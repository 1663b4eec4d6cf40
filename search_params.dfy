/** `URLSearchParams` as `getRecent` uses it: an ordered list of name/value
    pairs, `set` (WHATWG URL Standard, section 6.2) and `toString`, the
    form-urlencoded serialization of the list (section 5.2). */
module SearchParams {
  import opened Wrappers
  import opened UriEncoding

  type Pair = (string, string)

  /** What `get(name)` returns: the value of the first pair named `name`. */
  function Lookup(ps: seq<Pair>, name: string): Option<string> {
    if ps == [] then None
    else if ps[0].0 == name then Some(ps[0].1)
    else Lookup(ps[1..], name)
  }

  /** `get` on a concatenation looks in the second list only when the first
      has no pair of that name. */
  lemma {:induction false} LookupConcat(a: seq<Pair>, b: seq<Pair>, name: string)
    ensures Lookup(a + b, name) == if Lookup(a, name).Some? then Lookup(a, name) else Lookup(b, name)
  {
    if a == [] {
      assert a + b == b;
    } else {
      assert (a + b)[1..] == a[1..] + b;
      LookupConcat(a[1..], b, name);
    }
  }

  /** How many pairs are named `name`. */
  function Occurrences(ps: seq<Pair>, name: string): nat {
    if ps == [] then 0
    else (if ps[0].0 == name then 1 else 0) + Occurrences(ps[1..], name)
  }

  lemma {:induction false} OccurrencesConcat(a: seq<Pair>, b: seq<Pair>, name: string)
    ensures Occurrences(a + b, name) == Occurrences(a, name) + Occurrences(b, name)
  {
    if a == [] {
      assert a + b == b;
    } else {
      assert (a + b)[1..] == a[1..] + b;
      OccurrencesConcat(a[1..], b, name);
    }
  }

  /** The list without any pair named `name`, the others kept in order. */
  function RemoveAll(ps: seq<Pair>, name: string): (r: seq<Pair>)
    ensures Occurrences(r, name) == 0
    ensures forall n :: n != name ==> Lookup(r, n) == Lookup(ps, n)
    ensures forall n :: n != name ==> Occurrences(r, n) == Occurrences(ps, n)
    ensures Occurrences(ps, name) == 0 ==> r == ps
  {
    if ps == [] then []
    else if ps[0].0 == name then RemoveAll(ps[1..], name)
    else [ps[0]] + RemoveAll(ps[1..], name)
  }

  /** `set(name, value)`: the first pair named `name` takes the new value and
      the later ones are removed; without such a pair, one is appended. */
  function SetEntry(ps: seq<Pair>, name: string, value: string): (r: seq<Pair>)
    ensures Lookup(r, name) == Some(value)
    ensures Occurrences(r, name) == 1
    ensures forall n :: n != name ==> Lookup(r, n) == Lookup(ps, n)
    ensures forall n :: n != name ==> Occurrences(r, n) == Occurrences(ps, n)
    ensures Occurrences(ps, name) == 0 ==> r == ps + [(name, value)]
  {
    if ps == [] then [(name, value)]
    else if ps[0].0 == name then [(name, value)] + RemoveAll(ps[1..], name)
    else [ps[0]] + SetEntry(ps[1..], name, value)
  }

  function PairString(p: Pair): string {
    FormEncode(p.0) + "=" + FormEncode(p.1)
  }

  /** `toString()`: `name=value` pairs joined by `&`. It is empty exactly
      when the list is, and it never holds a `?`. */
  function Serialize(ps: seq<Pair>): (r: string)
    ensures (r == "") <==> (ps == [])
    ensures '?' !in r
  {
    if ps == [] then ""
    else if |ps| == 1 then PairString(ps[0])
    else PairString(ps[0]) + "&" + Serialize(ps[1..])
  }

  /** One pair whose name and value need no encoding serializes as `name=value`. */
  lemma SerializeSingle(name: string, value: string)
    requires FormEncode(name) == name && FormEncode(value) == value
    ensures Serialize([(name, value)]) == name + "=" + value
  {
  }

  /** A `URLSearchParams` object: its list of pairs, changed in place. */
  class UrlSearchParams {
    var entries: seq<Pair>

    /** `new URLSearchParams()`. */
    constructor ()
      ensures entries == []
    {
      entries := [];
    }

    method Set(name: string, value: string)
      modifies this
      ensures entries == SetEntry(old(entries), name, value)
    {
      entries := SetEntry(entries, name, value);
    }

    method ToString() returns (s: string)
      ensures s == Serialize(entries)
      ensures (s == "") <==> (entries == [])
    {
      s := Serialize(entries);
    }
  }
}
