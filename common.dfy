// Values and helpers shared by every part of the GPFL model: optional and
// error-carrying results, decimal rendering and parsing of numbers, Java's
// 32-bit string hash, string joining, and one stable sort that every ranking
// in the system is an instance of.
module Common {

  datatype Option<T> = None | Some(value: T)

  datatype Result<T> = Ok(value: T) | Err(error: string)

  function Min(a: int, b: int): int { if a <= b then a else b }

  /** The first `n` elements of `s`, or all of them when `s` is shorter
    * (Java's `subList(0, Math.min(n, size))`). */
  function Take<T>(s: seq<T>, n: nat): (r: seq<T>)
    ensures |r| == Min(n, |s|) && r == s[..|r|]
  {
    if n <= |s| then s[..n] else s
  }

  ghost predicate Distinct<T>(s: seq<T>)
  {
    forall i, j :: 0 <= i < j < |s| ==> s[i] != s[j]
  }

  /** `xs` lists the elements of `s` once each: the order in which a loop
    * over a Java hash set or key set visits them. */
  ghost predicate Enumerates<T>(xs: seq<T>, s: set<T>)
  {
    Distinct(xs) && s == set i | 0 <= i < |xs| :: xs[i]
  }

  /** Some iteration order of `s`; which one is left open, as the hash-based
    * collections of the modelled code leave it open. */
  method Enumerate<T(==)>(s: set<T>) returns (xs: seq<T>)
    ensures Enumerates(xs, s)
  {
    xs := [];
    var rest := s;
    while rest != {}
      invariant forall x :: x in s <==> x in xs || x in rest
      invariant forall x :: x in xs ==> x !in rest
      invariant Distinct(xs)
      decreases |rest|
    {
      var x :| x in rest;
      xs := xs + [x];
      rest := rest - {x};
    }
  }

  /** A listing holds exactly the members of the set it lists. */
  lemma EnumeratesMembers<T>(xs: seq<T>, s: set<T>)
    requires Enumerates(xs, s)
    ensures forall x :: x in xs <==> x in s
  {
    forall x | x in xs ensures x in s {
      var i :| 0 <= i < |xs| && xs[i] == x;
    }
  }

  /** Some element of a non-empty set. */
  lemma Pick<T>(s: set<T>) returns (x: T)
    requires s != {}
    ensures x in s
  {
    x :| x in s;
  }

  /** A listing of a set has exactly as many entries as the set has
    * elements. */
  lemma {:induction false} EnumeratesSize<T>(xs: seq<T>, s: set<T>)
    requires Enumerates(xs, s)
    ensures |xs| == |s|
    decreases |xs|
  {
    if xs == [] {
      assert s == {};
    } else {
      var n := |xs| - 1;
      var front := xs[..n];
      var rest := set i | 0 <= i < |front| :: front[i];
      assert s == rest + {xs[n]} by {
        forall x | x in s ensures x in rest + {xs[n]} {
          var i :| 0 <= i < |xs| && xs[i] == x;
          if i < n { assert front[i] == x; }
        }
      }
      assert xs[n] !in rest;
      EnumeratesSize(front, rest);
    }
  }

  /** In a listing without repeats every element occurs at most once. */
  lemma {:induction false} DistinctOnce<T>(xs: seq<T>)
    requires Distinct(xs)
    ensures forall x :: multiset(xs)[x] <= 1
    decreases |xs|
  {
    if xs != [] {
      var n := |xs| - 1;
      assert xs == xs[..n] + [xs[n]];
      DistinctOnce(xs[..n]);
      assert xs[n] !in xs[..n];
    }
  }

  /** An element found at two positions occurs at least twice. */
  lemma Twice<T>(xs: seq<T>, i: nat, j: nat)
    requires i < j < |xs| && xs[i] == xs[j]
    ensures multiset(xs)[xs[i]] >= 2
  {
    assert xs == xs[..i] + [xs[i]] + xs[i + 1..j] + [xs[j]] + xs[j + 1..];
  }

  /** Any rearrangement of a listing of `s` lists `s` too. */
  lemma EnumeratesPermutation<T>(xs: seq<T>, ys: seq<T>, s: set<T>)
    requires Enumerates(xs, s) && multiset(xs) == multiset(ys)
    ensures Enumerates(ys, s)
  {
    DistinctOnce(xs);
    forall i, j | 0 <= i < j < |ys| ensures ys[i] != ys[j] {
      if ys[i] == ys[j] {
        Twice(ys, i, j);
      }
    }
    forall x | x in s ensures x in ys {
      var i :| 0 <= i < |xs| && xs[i] == x;
      assert x in multiset(xs);
    }
    forall i | 0 <= i < |ys| ensures ys[i] in s {
      assert ys[i] in multiset(ys);
      assert ys[i] in xs;
    }
  }

  // ---------------------------------------------------------------------
  // Numbers rendered and parsed in decimal (String.valueOf / Long.parseLong)
  // ---------------------------------------------------------------------

  const MaxLong: int := 0x7fff_ffff_ffff_ffff
  const MinLong: int := -0x8000_0000_0000_0000

  predicate IsDigit(c: char) { '0' <= c <= '9' }

  predicate AllDigits(s: string) { forall i :: 0 <= i < |s| ==> IsDigit(s[i]) }

  function DigitChar(d: nat): (c: char)
    requires d < 10
    ensures IsDigit(c) && c as int - '0' as int == d
  {
    (('0' as int) + d) as char
  }

  /** The decimal rendering of a natural number, without sign or padding. */
  function NatToString(n: nat): (s: string)
    ensures |s| > 0 && AllDigits(s)
    ensures n >= 10 ==> s[0] != '0'
    decreases n
  {
    if n < 10 then [DigitChar(n)] else NatToString(n / 10) + [DigitChar(n % 10)]
  }

  /** The value of a string of decimal digits, most significant first. */
  function DigitsValue(s: string): nat
    requires AllDigits(s)
  {
    if s == [] then 0
    else DigitsValue(s[..|s| - 1]) * 10 + (s[|s| - 1] as int - '0' as int)
  }

  lemma {:induction false} DigitsValueOfNatToString(n: nat)
    ensures DigitsValue(NatToString(n)) == n
    decreases n
  {
    var s := NatToString(n);
    if n >= 10 {
      DigitsValueOfNatToString(n / 10);
      assert s[..|s| - 1] == NatToString(n / 10);
    }
  }

  /** Long.parseLong on a decimal string: an optional sign, at least one
    * digit, and a value within the 64-bit range; anything else is the
    * NumberFormatException, here `None`. */
  function ParseLong(s: string): (r: Option<int>)
    ensures r.Some? ==> MinLong <= r.value <= MaxLong
    ensures r.Some? ==> |s| > 0 && (AllDigits(s) || s[0] == '-' || s[0] == '+')
  {
    if |s| == 0 then None
    else
      var signed := s[0] == '-' || s[0] == '+';
      var digits := if signed then s[1..] else s;
      if |digits| == 0 || !AllDigits(digits) then None
      else
        var v := if s[0] == '-' then -(DigitsValue(digits) as int) else DigitsValue(digits);
        if MinLong <= v <= MaxLong then Some(v) else None
  }

  /** Parsing what String.valueOf wrote gives back the number. */
  lemma ParseLongOfNatToString(n: nat)
    requires n <= MaxLong
    ensures ParseLong(NatToString(n)) == Some(n)
  {
    DigitsValueOfNatToString(n);
  }

  // ---------------------------------------------------------------------
  // Strings
  // ---------------------------------------------------------------------

  /** String.join(sep, xs). */
  function Join(xs: seq<string>, sep: string): (r: string)
    ensures xs == [] ==> r == []
    ensures |xs| == 1 ==> r == xs[0]
    decreases |xs|
  {
    if xs == [] then []
    else if |xs| == 1 then xs[0]
    else xs[0] + sep + Join(xs[1..], sep)
  }

  /** `s` with its first character that belongs to `cs` removed; `s` itself
    * when it has none (String.replaceFirst with a one-character pattern and
    * an empty replacement). */
  function RemoveFirstOf(s: string, cs: set<char>): (r: string)
    ensures (forall i :: 0 <= i < |s| ==> s[i] !in cs) ==> r == s
    ensures (exists i :: 0 <= i < |s| && s[i] in cs) ==> |r| == |s| - 1
  {
    if s == [] then []
    else if s[0] in cs then s[1..]
    else [s[0]] + RemoveFirstOf(s[1..], cs)
  }

  function ToUpperAscii(c: char): char
  {
    if 'a' <= c <= 'z' then (c as int - 32) as char else c
  }

  /** String.toUpperCase restricted to ASCII letters. */
  function UpperAscii(s: string): (r: string)
    ensures |r| == |s|
    ensures forall i :: 0 <= i < |s| ==> r[i] == ToUpperAscii(s[i])
  {
    seq(|s|, i requires 0 <= i < |s| => ToUpperAscii(s[i]))
  }

  // ---------------------------------------------------------------------
  // Java's 32-bit hash codes
  // ---------------------------------------------------------------------

  const TwoTo32: int := 0x1_0000_0000
  const TwoTo31: int := 0x8000_0000

  predicate IsInt32(x: int) { -TwoTo31 <= x < TwoTo31 }

  /** Two's-complement wrap-around of an int product or sum into Java's int. */
  function Wrap32(x: int): (r: int)
    ensures IsInt32(r)
    ensures (r - x) % TwoTo32 == 0
    ensures IsInt32(x) ==> r == x
  {
    (x + TwoTo31) % TwoTo32 - TwoTo31
  }

  /** String.hashCode: h = 31 * h + c over the characters, with int
    * overflow. */
  function JavaStringHash(s: string): (h: int)
    ensures IsInt32(h)
  {
    if s == [] then 0
    else Wrap32(31 * JavaStringHash(s[..|s| - 1]) + s[|s| - 1] as int)
  }

  // ---------------------------------------------------------------------
  // Sorting
  // ---------------------------------------------------------------------

  /** `le(a, b)` says `a` may come before `b`. */
  predicate SortedBy<T>(s: seq<T>, le: (T, T) -> bool)
  {
    forall i, j :: 0 <= i < j < |s| ==> le(s[i], s[j])
  }

  /** `le` is a total preorder on the elements of `s`: what every Java
    * comparator the system sorts with must be for the sort to be sorted. */
  ghost predicate TotalPreorderOn<T>(s: seq<T>, le: (T, T) -> bool)
  {
    (forall a, b :: a in s && b in s ==> le(a, b) || le(b, a)) &&
    (forall a, b, c :: a in s && b in s && c in s && le(a, b) && le(b, c) ==> le(a, c))
  }

  function Insert<T>(x: T, s: seq<T>, le: (T, T) -> bool): (r: seq<T>)
    ensures multiset(r) == multiset(s) + multiset{x}
  {
    if s == [] then [x]
    else if le(x, s[0]) then [x] + s
    else
      assert s == [s[0]] + s[1..];
      [s[0]] + Insert(x, s[1..], le)
  }

  /** A stable insertion sort: the model of List.sort / Arrays.sort with a
    * comparator (both stable merge sorts in Java). */
  function SortBy<T>(s: seq<T>, le: (T, T) -> bool): (r: seq<T>)
    ensures multiset(r) == multiset(s)
    decreases |s|
  {
    if s == [] then []
    else
      assert s == [s[0]] + s[1..];
      Insert(s[0], SortBy(s[1..], le), le)
  }

  lemma {:induction false} InsertSorted<T>(x: T, s: seq<T>, le: (T, T) -> bool, all: seq<T>)
    requires TotalPreorderOn(all, le)
    requires x in all && forall y :: y in s ==> y in all
    requires SortedBy(s, le)
    ensures SortedBy(Insert(x, s, le), le)
    decreases |s|
  {
    if s != [] && !le(x, s[0]) {
      assert le(s[0], x);
      var t := s[1..];
      assert forall y :: y in t ==> y in s;
      InsertSorted(x, t, le, all);
      var r := Insert(x, t, le);
      assert multiset(r) == multiset(t) + multiset{x};
      forall k | 0 <= k < |r| ensures le(s[0], r[k]) {
        assert r[k] in multiset(r);
        if r[k] == x {
        } else {
          assert r[k] in multiset(t);
          var j :| 0 <= j < |t| && t[j] == r[k];
          assert s[j + 1] == r[k];
        }
      }
    }
  }

  lemma {:induction false} SortBySorted<T>(s: seq<T>, le: (T, T) -> bool)
    requires TotalPreorderOn(s, le)
    ensures SortedBy(SortBy(s, le), le)
    decreases |s|
  {
    if s != [] {
      var t := s[1..];
      assert forall y :: y in t ==> y in s;
      assert TotalPreorderOn(t, le);
      SortBySorted(t, le);
      var r := SortBy(t, le);
      forall y | y in r ensures y in s {
        assert y in multiset(r);
        assert y in multiset(t);
      }
      InsertSorted(s[0], r, le, s);
    }
  }

  /** The key-descending order every "sorted by sc / by frequency, highest
    * first" comparator in the system induces. */
  function ByKeyDesc<T>(key: T -> real): (T, T) -> bool
  {
    (a: T, b: T) => key(a) >= key(b)
  }

  lemma ByKeyDescIsTotalPreorder<T>(s: seq<T>, key: T -> real)
    ensures TotalPreorderOn(s, ByKeyDesc(key))
  {
  }

  /** Sorting by a key, highest first, yields a permutation whose keys never
    * increase. */
  lemma SortByKeyDesc<T>(s: seq<T>, key: T -> real)
    ensures multiset(SortBy(s, ByKeyDesc(key))) == multiset(s)
    ensures forall i, j :: 0 <= i < j < |SortBy(s, ByKeyDesc(key))| ==>
      key(SortBy(s, ByKeyDesc(key))[i]) >= key(SortBy(s, ByKeyDesc(key))[j])
  {
    ByKeyDescIsTotalPreorder(s, key);
    SortBySorted(s, ByKeyDesc(key));
  }
}
