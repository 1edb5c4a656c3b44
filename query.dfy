/** The parts of an ORM query the handlers use: listing a table's rows, `filter`,
    `first`, `offset`/`limit`, and `ilike '%term%'`. */
module Query {
  import opened Wrappers

  /** The rows of `m` whose keys lie in [k, n), in ascending key order. */
  function RowsFrom<T>(m: map<nat, T>, k: nat, n: nat): (r: seq<T>)
    ensures forall x :: x in r ==> exists j :: k <= j < n && j in m && m[j] == x
    ensures forall j :: k <= j < n && j in m ==> m[j] in r
    decreases if k <= n then n - k else 0
  {
    if k >= n then []
    else (if k in m then [m[k]] else []) + RowsFrom(m, k + 1, n)
  }

  /** A table's rows in the model's row order (ascending id). The database gives no
      order without ORDER BY; ids are allocated increasingly, so this is insertion order. */
  function Rows<T(==)>(m: map<nat, T>, n: nat): (r: seq<T>)
    ensures forall x :: x in r ==> x in m.Values
    ensures (forall j :: j in m ==> j < n) ==> forall x :: x in m.Values ==> x in r
  {
    RowsFrom(m, 0, n)
  }

  /** `query.filter(p)`: the rows satisfying `p`, in their original order. */
  function Filter<T(!new)>(s: seq<T>, p: T -> bool): (r: seq<T>)
    ensures |r| <= |s|
    ensures forall x :: x in r <==> x in s && p(x)
  {
    if s == [] then []
    else (if p(s[0]) then [s[0]] else []) + Filter(s[1..], p)
  }

  /** Two successive `filter` calls keep the rows that pass both, in the same order. */
  lemma {:induction false} FilterFilter<T(!new)>(s: seq<T>, p: T -> bool, q: T -> bool, both: T -> bool)
    requires forall x :: both(x) == (p(x) && q(x))
    ensures Filter(Filter(s, p), q) == Filter(s, both)
  {
    if s != [] {
      FilterFilter(s[1..], p, q, both);
      if p(s[0]) {
        var t := [s[0]] + Filter(s[1..], p);
        assert t[0] == s[0] && t[1..] == Filter(s[1..], p);
      } else {
        assert Filter(s, p) == Filter(s[1..], p);
      }
    }
  }

  /** A `filter` every row passes changes nothing. */
  lemma {:induction false} FilterAll<T(!new)>(s: seq<T>, p: T -> bool)
    requires forall x :: x in s ==> p(x)
    ensures Filter(s, p) == s
  {
    if s != [] {
      assert forall x :: x in s[1..] ==> x in s;
      FilterAll(s[1..], p);
      assert s == [s[0]] + s[1..];
    }
  }

  /** `query.filter(p).first()`: the first row satisfying `p`, if any. */
  function First<T(!new)>(s: seq<T>, p: T -> bool): (r: Option<T>)
    ensures r.Some? ==> r.value in s && p(r.value)
    ensures r.None? ==> forall x :: x in s ==> !p(x)
  {
    if s == [] then None
    else if p(s[0]) then Some(s[0])
    else First(s[1..], p)
  }

  /** `query.offset(skip).limit(limit)`: drop `skip` rows, keep at most `limit`. */
  function Page<T>(s: seq<T>, skip: nat, limit: nat): (r: seq<T>)
    ensures |r| == if skip >= |s| then 0 else if limit < |s| - skip then limit else |s| - skip
    ensures forall i :: 0 <= i < |r| ==> skip + i < |s| && r[i] == s[skip + i]
    ensures forall x :: x in r ==> x in s
  {
    var rest := if skip >= |s| then [] else s[skip..];
    if limit < |rest| then rest[..limit] else rest
  }

  /** ASCII lower-casing of one character. */
  function Lower(c: char): char
  {
    if 'A' <= c <= 'Z' then (c as int + 32) as char else c
  }

  function LowerAll(s: string): (r: string)
    ensures |r| == |s|
    ensures forall i :: 0 <= i < |s| ==> r[i] == Lower(s[i])
  {
    if s == [] then [] else [Lower(s[0])] + LowerAll(s[1..])
  }

  /** `term` occurs in `text` at position `i`, ignoring ASCII case. */
  predicate MatchesAt(text: string, term: string, i: nat)
  {
    i + |term| <= |text| && LowerAll(text)[i..i + |term|] == LowerAll(term)
  }

  /** `text ILIKE '%term%'` for a term without wildcard characters. */
  predicate ContainsIgnoreCase(text: string, term: string)
    ensures term == [] ==> ContainsIgnoreCase(text, term)
    ensures ContainsIgnoreCase(text, term) ==> |term| <= |text|
  {
    assert term == [] ==> MatchesAt(text, term, 0);
    exists i: nat :: i <= |text| && MatchesAt(text, term, i)
  }

  lemma {:induction false} ContainsIgnoreCaseOfSelf(text: string)
    ensures ContainsIgnoreCase(text, text)
  {
    assert MatchesAt(text, text, 0) by {
      assert LowerAll(text)[0..|text|] == LowerAll(text);
    }
  }
}
