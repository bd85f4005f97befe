/** Literal string operations: strpos, str_replace, explode and implode. */
module Strings {

  /** t occurs in s starting at position i. */
  predicate OccursAt(s: string, t: string, i: nat) {
    i <= |s| && t <= s[i..]
  }

  /** `strpos($s, $t) !== false`: t occurs somewhere in s. */
  predicate Contains(s: string, t: string) {
    exists i :: 0 <= i <= |s| && OccursAt(s, t, i)
  }

  /**
   * `str_replace($search, $replace, $s)`: every occurrence of search, found
   * left to right without overlap, becomes replace. An empty search leaves
   * the subject as it is.
   */
  function ReplaceAll(s: string, search: string, replace: string): string {
    if search == [] then s else ReplaceEach(s, search, replace)
  }

  function ReplaceEach(s: string, search: string, replace: string): string
    requires search != []
    decreases |s|
  {
    if s == [] then []
    else if search <= s then replace + ReplaceEach(s[|search|..], search, replace)
    else [s[0]] + ReplaceEach(s[1..], search, replace)
  }

  /** `explode($sep, $s)`: the pieces of s between non-overlapping separators. */
  function Explode(s: string, sep: string): (parts: seq<string>)
    requires sep != []
    ensures |parts| >= 1
    decreases |s|
  {
    if s == [] then [[]]
    else if sep <= s then [[]] + Explode(s[|sep|..], sep)
    else
      var rest := Explode(s[1..], sep);
      [[s[0]] + rest[0]] + rest[1..]
  }

  /** `implode($glue, $parts)`: the parts with glue between neighbours. */
  function Implode(glue: string, parts: seq<string>): string
    decreases |parts|
  {
    if parts == [] then []
    else if |parts| == 1 then parts[0]
    else parts[0] + glue + Implode(glue, parts[1..])
  }

  lemma {:induction false} ImplodeCons(glue: string, c: char, x: string, ys: seq<string>)
    ensures Implode(glue, [[c] + x] + ys) == [c] + Implode(glue, [x] + ys)
  {
    if ys != [] {
      assert ([[c] + x] + ys)[1..] == ys;
      assert ([x] + ys)[1..] == ys;
    }
  }

  /** str_replace is implode over explode: the separators become the replacement. */
  lemma {:induction false} ReplaceAllIsImplodeExplode(s: string, search: string, replace: string)
    requires search != []
    ensures ReplaceAll(s, search, replace) == Implode(replace, Explode(s, search))
    decreases |s|
  {
    if s == [] {
    } else if search <= s {
      ReplaceAllIsImplodeExplode(s[|search|..], search, replace);
      var rest := Explode(s[|search|..], search);
      assert ([[]] + rest)[1..] == rest;
    } else {
      ReplaceAllIsImplodeExplode(s[1..], search, replace);
      var rest := Explode(s[1..], search);
      assert rest == [rest[0]] + rest[1..];
      ImplodeCons(replace, s[0], rest[0], rest[1..]);
    }
  }

  /** str_replace leaves a subject that does not contain the search string unchanged. */
  lemma {:induction false} ReplaceAllAbsent(s: string, search: string, replace: string)
    requires !Contains(s, search)
    ensures ReplaceAll(s, search, replace) == s
    decreases |s|
  {
    if search != [] && s != [] {
      assert !OccursAt(s, search, 0);
      if Contains(s[1..], search) {
        var i :| 0 <= i <= |s[1..]| && OccursAt(s[1..], search, i);
        assert s[1..][i..] == s[i + 1..];
        assert OccursAt(s, search, i + 1);
      }
      ReplaceAllAbsent(s[1..], search, replace);
      assert s == [s[0]] + s[1..];
    }
  }

  /** The strings one after the other. */
  function Concat(parts: seq<string>): string
    decreases |parts|
  {
    if parts == [] then [] else parts[0] + Concat(parts[1..])
  }

  lemma {:induction false} ConcatCons(x: string, xs: seq<string>)
    ensures Concat([x] + xs) == x + Concat(xs)
  {
    assert ([x] + xs)[1..] == xs;
  }

  /** Concatenation distributes over joining the lists. */
  lemma {:induction false} ConcatAppend(xs: seq<string>, ys: seq<string>)
    ensures Concat(xs + ys) == Concat(xs) + Concat(ys)
    decreases |xs|
  {
    if xs != [] {
      ConcatAppend(xs[1..], ys);
      assert (xs + ys)[1..] == xs[1..] + ys;
    } else {
      assert xs + ys == ys;
    }
  }

  /** No character of t occurs in v. */
  predicate Disjoint(t: string, v: string) {
    forall i, j :: 0 <= i < |t| && 0 <= j < |v| ==> t[i] != v[j]
  }

  lemma {:induction false} ContainsLeft(s: string, u: string, t: string)
    requires Contains(s, t)
    ensures Contains(s + u, t)
  {
    var i :| 0 <= i <= |s| && OccursAt(s, t, i);
    assert (s + u)[i..] == s[i..] + u;
    assert OccursAt(s + u, t, i);
  }

  lemma {:induction false} ContainsRight(s: string, u: string, t: string)
    requires Contains(u, t)
    ensures Contains(s + u, t)
  {
    var i :| 0 <= i <= |u| && OccursAt(u, t, i);
    assert (s + u)[|s| + i..] == u[i..];
    assert OccursAt(s + u, t, |s| + i);
  }

  /** An occurrence of t that overlaps v matches one of v's characters. */
  lemma {:induction false} OverlapChar(a: string, v: string, b: string, t: string, i: nat, q: nat)
    requires OccursAt(a + v + b, t, i)
    requires i <= q < i + |t| && |a| <= q < |a| + |v|
    ensures t[q - i] == v[q - |a|]
  {
    var s := a + v + b;
    assert t[q - i] == s[i..][q - i] == s[q];
  }

  /**
   * An occurrence of t in a + v + b, where t shares no character with a
   * non-empty v, lies wholly in a or wholly in b.
   */
  lemma {:induction false} ContainsAround(a: string, v: string, b: string, t: string)
    requires v != [] && Disjoint(t, v)
    requires Contains(a + v + b, t)
    ensures Contains(a, t) || Contains(b, t)
  {
    var s := a + v + b;
    var i :| 0 <= i <= |s| && OccursAt(s, t, i);
    if t == [] {
      assert OccursAt(a, t, 0);
    } else if i + |t| <= |a| {
      assert a[i..][..|t|] == s[i..][..|t|];
      assert OccursAt(a, t, i);
    } else if i >= |a| + |v| {
      assert b[i - |a| - |v|..] == s[i..];
      assert OccursAt(b, t, i - |a| - |v|);
    } else {
      OverlapChar(a, v, b, t, i, if i < |a| then |a| else i);
    }
  }

  /**
   * Replacing v by w in a + v + b (and b by a b' that has every occurrence
   * b has) keeps an occurrence of a t that shares no character with v.
   */
  lemma {:induction false} ContainsReplacingMiddle(a: string, v: string, w: string, b: string, b': string, t: string)
    requires v != [] && Disjoint(t, v)
    requires Contains(a + v + b, t)
    requires Contains(b, t) ==> Contains(b', t)
    ensures Contains(a + w + b', t)
  {
    ContainsAround(a, v, b, t);
    if Contains(a, t) {
      ContainsLeft(a, w + b', t);
      assert a + (w + b') == a + w + b';
    } else {
      ContainsRight(a + w, b', t);
    }
  }
}
