/** The JavaScript value semantics the components rely on: nullable strings and
    ids, truthiness and `||` fallbacks, and the string methods `trim`,
    `toLowerCase`, `includes`, `split('@')[0]` and `substring(0, n)`. */
module Js {

  datatype Option<+T> = None | Some(value: T)

  type Str = seq<char>

  /** The settled state of an awaited promise: it resolved with a value or it
      rejected (threw). */
  datatype Fetch<+T> = Returned(value: T) | Threw

  /** A backend query's `{ data, error }` pair: `data` may be null, and
      `error` is set when the backend refused the request. */
  datatype Query<+T> = Query(data: Option<T>, error: bool)

  /** A nullable string (null, undefined or a string) is truthy when it is
      present and not the empty string. */
  predicate Truthy(s: Option<Str>)
  {
    s.Some? && s.value != []
  }

  /** `a || b` where both sides are nullable strings. */
  function Or(a: Option<Str>, b: Option<Str>): Option<Str>
  {
    if Truthy(a) then a else b
  }

  /** `a || fallback` where the fallback is a string literal. */
  function OrElse(a: Option<Str>, fallback: Str): Str
  {
    if Truthy(a) then a.value else fallback
  }

  /** A nullable numeric id is truthy when it is present and not 0. */
  predicate TruthyId(id: Option<int>)
  {
    id.Some? && id.value != 0
  }

  /** The characters `String.prototype.trim` removes: white space and line
      terminators as ECMAScript lists them. */
  predicate IsSpace(c: char)
  {
    || c == ' ' || c == '\t' || c == '\n' || c == '\r'
    || c == '\U{000B}' || c == '\U{000C}' || c == '\U{00A0}' || c == '\U{1680}'
    || ('\U{2000}' <= c <= '\U{200A}')
    || c == '\U{2028}' || c == '\U{2029}' || c == '\U{202F}' || c == '\U{205F}'
    || c == '\U{3000}' || c == '\U{FEFF}'
  }

  predicate AllSpace(s: Str)
  {
    forall i :: 0 <= i < |s| ==> IsSpace(s[i])
  }

  /** Drops leading white space: the result is the suffix of `s` that starts
      at its first non-space character. */
  function TrimStart(s: Str): (r: Str)
    ensures |r| <= |s| && r == s[|s| - |r|..]
    ensures AllSpace(s[..|s| - |r|])
    ensures r != [] ==> !IsSpace(r[0])
  {
    if s != [] && IsSpace(s[0]) then
      var r := TrimStart(s[1..]);
      assert s[..|s| - |r|] == [s[0]] + s[1..][..|s| - 1 - |r|];
      AllSpaceConcat([s[0]], s[1..][..|s| - 1 - |r|]);
      r
    else
      s
  }

  /** Drops trailing white space: the result is the prefix of `s` that ends
      at its last non-space character. */
  function TrimEnd(s: Str): (r: Str)
    ensures |r| <= |s| && r == s[..|r|]
    ensures AllSpace(s[|r|..])
    ensures r != [] ==> !IsSpace(r[|r| - 1])
  {
    if s != [] && IsSpace(s[|s| - 1]) then
      var r := TrimEnd(s[..|s| - 1]);
      assert s[|r|..] == s[..|s| - 1][|r|..] + [s[|s| - 1]];
      AllSpaceConcat(s[..|s| - 1][|r|..], [s[|s| - 1]]);
      r
    else
      s
  }

  /** `s.trim()`: empty exactly when `s` is all white space, and otherwise a
      slice of `s` that neither starts nor ends with white space. */
  function Trim(s: Str): (r: Str)
    ensures r == [] <==> AllSpace(s)
    ensures r != [] ==> !IsSpace(r[0]) && !IsSpace(r[|r| - 1])
    ensures exists k :: OccursAt(s, r, k) && AllSpace(s[..k]) && AllSpace(s[k + |r|..])
  {
    var t := TrimStart(s);
    var r := TrimEnd(t);
    TrimShape(s, t, r);
    r
  }

  /** What the two trims together leave: a slice of `s` with only white space
      around it, empty exactly when `s` is all white space. */
  lemma TrimShape(s: Str, t: Str, r: Str)
    requires |t| <= |s| && t == s[|s| - |t|..] && AllSpace(s[..|s| - |t|])
    requires t != [] ==> !IsSpace(t[0])
    requires |r| <= |t| && r == t[..|r|] && AllSpace(t[|r|..])
    requires r != [] ==> !IsSpace(r[|r| - 1])
    ensures r == [] <==> AllSpace(s)
    ensures r != [] ==> !IsSpace(r[0]) && !IsSpace(r[|r| - 1])
    ensures exists k :: OccursAt(s, r, k) && AllSpace(s[..k]) && AllSpace(s[k + |r|..])
  {
    var k := |s| - |t|;
    SliceOfSuffix(s, t, r);
    assert OccursAt(s, r, k);
    if r == [] {
      assert t == t[|r|..];
      assert s == s[..k] + t;
      AllSpaceConcat(s[..k], t);
    } else {
      assert r[0] == t[0];
      assert s[k] == t[0];
      assert !AllSpace(s);
    }
  }

  lemma AllSpaceConcat(a: Str, b: Str)
    requires AllSpace(a) && AllSpace(b)
    ensures AllSpace(a + b)
  {
    forall i | 0 <= i < |a + b|
      ensures IsSpace((a + b)[i])
    {
      if i < |a| {
        assert (a + b)[i] == a[i];
      } else {
        assert (a + b)[i] == b[i - |a|];
      }
    }
  }

  /** A prefix `r` of a suffix `t` of `s` is the slice of `s` that starts
      where `t` does, and what follows it in `t` is what follows it in `s`. */
  lemma SliceOfSuffix(s: Str, t: Str, r: Str)
    requires |t| <= |s| && t == s[|s| - |t|..]
    requires |r| <= |t| && r == t[..|r|]
    ensures r == s[|s| - |t|..|s| - |t| + |r|]
    ensures s[|s| - |t| + |r|..] == t[|r|..]
  {
  }

  lemma {:induction false} TrimIdempotent(s: Str)
    ensures Trim(Trim(s)) == Trim(s)
  {
    var r := Trim(s);
    if r != [] {
      assert !IsSpace(r[0]);
      assert TrimStart(r) == r;
      assert !IsSpace(r[|r| - 1]);
      assert TrimEnd(r) == r;
    }
  }

  /** ASCII `toLowerCase` of one character. */
  function LowerChar(c: char): char
  {
    if 'A' <= c <= 'Z' then (c as int + 32) as char else c
  }

  /** `s.toLowerCase()`, on the ASCII letters. */
  function ToLower(s: Str): (r: Str)
    ensures |r| == |s|
    ensures forall i :: 0 <= i < |s| ==> r[i] == LowerChar(s[i])
  {
    seq(|s|, i requires 0 <= i < |s| => LowerChar(s[i]))
  }

  predicate IsPrefix(p: Str, s: Str)
  {
    |p| <= |s| && s[..|p|] == p
  }

  /** `needle` occurs in `hay` starting at position `k`. */
  predicate OccursAt(hay: Str, needle: Str, k: int)
  {
    0 <= k && k + |needle| <= |hay| && hay[k..k + |needle|] == needle
  }

  /** `hay.includes(needle)`: `needle` occurs in `hay` at some position. */
  predicate Includes(hay: Str, needle: Str)
    decreases |hay|
  {
    IsPrefix(needle, hay) || (hay != [] && Includes(hay[1..], needle))
  }

  lemma {:induction false} IncludesAt(hay: Str, needle: Str, k: nat)
    requires k + |needle| <= |hay| && hay[k..k + |needle|] == needle
    ensures Includes(hay, needle)
    decreases k
  {
    if k > 0 {
      assert hay[1..][k - 1..k - 1 + |needle|] == needle;
      IncludesAt(hay[1..], needle, k - 1);
    }
  }

  lemma {:induction false} IncludesWitness(hay: Str, needle: Str)
    requires Includes(hay, needle)
    ensures exists k :: OccursAt(hay, needle, k)
    decreases |hay|
  {
    if IsPrefix(needle, hay) {
      assert OccursAt(hay, needle, 0);
    } else {
      IncludesWitness(hay[1..], needle);
      var k :| OccursAt(hay[1..], needle, k);
      assert hay[k + 1..k + 1 + |needle|] == hay[1..][k..k + |needle|];
      assert OccursAt(hay, needle, k + 1);
    }
  }

  /** `includes` means "occurs at some position", in both directions. */
  lemma IncludesIff(hay: Str, needle: Str)
    ensures Includes(hay, needle) <==> exists k :: OccursAt(hay, needle, k)
  {
    if Includes(hay, needle) {
      IncludesWitness(hay, needle);
    }
    if exists k :: OccursAt(hay, needle, k) {
      var k :| OccursAt(hay, needle, k);
      IncludesAt(hay, needle, k);
    }
  }

  /** Every string includes the empty string. */
  lemma IncludesEmpty(hay: Str)
    ensures Includes(hay, [])
  {
    assert IsPrefix([], hay);
  }

  /** `x?.toLowerCase().includes(q.toLowerCase())`: an absent value never
      matches; a present one matches when the query occurs in it ignoring
      ASCII case. */
  predicate IncludesIgnoringCase(s: Option<Str>, query: Str)
  {
    s.Some? && Includes(ToLower(s.value), ToLower(query))
  }

  /** `s.split('@')[0]`: the part of `s` before its first '@', or all of `s`. */
  function BeforeAt(s: Str): (r: Str)
    ensures IsPrefix(r, s)
    ensures '@' !in r
    ensures |r| < |s| ==> s[|r|] == '@'
  {
    if s == [] || s[0] == '@' then [] else [s[0]] + BeforeAt(s[1..])
  }

  /** `email?.split('@')[0]` on a nullable string. */
  function EmailLocalPart(email: Option<Str>): Option<Str>
  {
    if email.Some? then Some(BeforeAt(email.value)) else None
  }

  /** `s.substring(0, n)` for a non-negative `n`. */
  function Take(s: Str, n: nat): (r: Str)
    ensures |r| == if |s| <= n then |s| else n
    ensures IsPrefix(r, s)
  {
    if |s| <= n then s else s[..n]
  }
}
