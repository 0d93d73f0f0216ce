/**
 * The two pieces of SQLite's query semantics the bill listing depends on: the LIKE
 * operator (with its `%` and `_` wildcards, ASCII case-insensitive, no ESCAPE clause)
 * and ORDER BY ... DESC on TEXT under the BINARY collation.
 */
module Sql {
  import opened Strings

  /** `s LIKE p`: `%` matches any run of characters, `_` any one character, and every
      other pattern character matches itself ignoring ASCII case. */
  predicate Like(s: string, p: string)
    decreases |s| + |p|
  {
    if |p| == 0 then |s| == 0
    else if p[0] == '%' then Like(s, p[1..]) || (|s| > 0 && Like(s[1..], p))
    else |s| > 0 && (p[0] == '_' || LowerChar(p[0]) == LowerChar(s[0])) && Like(s[1..], p[1..])
  }

  /** A pattern fragment with no LIKE wildcard in it. */
  predicate WildcardFree(p: string) {
    forall i :: 0 <= i < |p| ==> p[i] != '%' && p[i] != '_'
  }

  lemma {:induction false} LikeAnything(s: string)
    ensures Like(s, "%")
  {
    if |s| > 0 {
      LikeAnything(s[1..]);
    }
  }

  /** Occurrence at offset 0 peels off one character at a time. */
  lemma OccursAtZeroStep(s: string, lit: string)
    requires |s| > 0 && |lit| > 0
    ensures OccursAt(s, lit, 0) <==> LowerChar(s[0]) == LowerChar(lit[0]) && OccursAt(s[1..], lit[1..], 0)
  {
    if OccursAt(s, lit, 0) {
      assert AsciiLower(s[..|lit|])[0] == AsciiLower(lit)[0];
      assert AsciiLower(s[1..][..|lit| - 1]) == AsciiLower(lit[1..]) by {
        forall i | 0 <= i < |lit| - 1
          ensures AsciiLower(s[1..][..|lit| - 1])[i] == AsciiLower(lit[1..])[i]
        {
          assert AsciiLower(s[..|lit|])[i + 1] == AsciiLower(lit)[i + 1];
        }
      }
    }
    if LowerChar(s[0]) == LowerChar(lit[0]) && OccursAt(s[1..], lit[1..], 0) {
      assert AsciiLower(s[..|lit|]) == AsciiLower(lit) by {
        forall i | 0 <= i < |lit| ensures AsciiLower(s[..|lit|])[i] == AsciiLower(lit)[i] {
          if i > 0 {
            assert AsciiLower(s[1..][..|lit| - 1])[i - 1] == AsciiLower(lit[1..])[i - 1];
          }
        }
      }
    }
  }

  /** `s LIKE lit || '%'` holds exactly when `s` starts with `lit`, ignoring case. */
  lemma {:induction false} LikePrefix(s: string, lit: string)
    requires WildcardFree(lit)
    ensures Like(s, lit + "%") <==> OccursAt(s, lit, 0)
  {
    if |lit| == 0 {
      assert lit + "%" == "%";
      LikeAnything(s);
      assert AsciiLower(s[0..0]) == AsciiLower(lit);
    } else {
      var p := lit + "%";
      assert p[0] == lit[0] && p[1..] == lit[1..] + "%";
      assert p[0] != '%' && p[0] != '_';
      if |s| > 0 {
        LikePrefix(s[1..], lit[1..]);
        OccursAtZeroStep(s, lit);
      }
    }
  }

  /** An occurrence either starts at offset 0 or lies in the tail. */
  lemma ContainsStep(s: string, lit: string)
    requires |s| > 0
    ensures ContainsIgnoringCase(s, lit) <==> OccursAt(s, lit, 0) || ContainsIgnoringCase(s[1..], lit)
  {
    if ContainsIgnoringCase(s, lit) {
      var k :| OccursAt(s, lit, k);
      if k > 0 {
        assert s[1..][k - 1..k - 1 + |lit|] == s[k..k + |lit|];
        assert OccursAt(s[1..], lit, k - 1);
      }
    }
    if OccursAt(s, lit, 0) {
      assert ContainsIgnoringCase(s, lit);
    }
    if ContainsIgnoringCase(s[1..], lit) {
      var k :| OccursAt(s[1..], lit, k);
      assert s[1..][k..k + |lit|] == s[k + 1..k + 1 + |lit|];
      assert OccursAt(s, lit, k + 1);
    }
  }

  /** `s LIKE '%' || lit || '%'` is a case-insensitive substring test when `lit` has no wildcard. */
  lemma {:induction false} LikeContains(s: string, lit: string)
    requires WildcardFree(lit)
    ensures Like(s, "%" + lit + "%") <==> ContainsIgnoringCase(s, lit)
  {
    var p := "%" + lit + "%";
    assert p[0] == '%' && p[1..] == lit + "%";
    LikePrefix(s, lit);
    if |s| > 0 {
      LikeContains(s[1..], lit);
      ContainsStep(s, lit);
    } else if ContainsIgnoringCase(s, lit) {
      var k :| OccursAt(s, lit, k);
      assert k == 0;
    } else {
      assert !OccursAt(s, lit, 0);
    }
  }

  /** LIKE compares case-insensitively, so lower-casing either side first changes nothing. */
  lemma LowerCharIdempotent(c: char)
    ensures LowerChar(LowerChar(c)) == LowerChar(c)
  {
  }

  lemma LowerSlice(s: string, a: int, b: int)
    requires 0 <= a <= b <= |s|
    ensures AsciiLower(AsciiLower(s)[a..b]) == AsciiLower(s[a..b])
  {
    forall i | 0 <= i < b - a ensures AsciiLower(AsciiLower(s)[a..b])[i] == AsciiLower(s[a..b])[i] {
      LowerCharIdempotent(s[a + i]);
    }
  }

  lemma ContainsLowered(hay: string, needle: string)
    ensures ContainsIgnoringCase(AsciiLower(hay), AsciiLower(needle)) <==> ContainsIgnoringCase(hay, needle)
  {
    var n := |needle|;
    assert AsciiLower(AsciiLower(needle)) == AsciiLower(needle) by {
      LowerSlice(needle, 0, n);
      assert needle[0..n] == needle;
      assert AsciiLower(needle)[0..n] == AsciiLower(needle);
    }
    if ContainsIgnoringCase(AsciiLower(hay), AsciiLower(needle)) {
      var k :| OccursAt(AsciiLower(hay), AsciiLower(needle), k);
      LowerSlice(hay, k, k + n);
      assert OccursAt(hay, needle, k);
    }
    if ContainsIgnoringCase(hay, needle) {
      var k :| OccursAt(hay, needle, k);
      LowerSlice(hay, k, k + n);
      assert OccursAt(AsciiLower(hay), AsciiLower(needle), k);
    }
  }

  lemma WildcardFreeLowered(p: string)
    ensures WildcardFree(AsciiLower(p)) <==> WildcardFree(p)
  {
    if WildcardFree(p) {
      forall i | 0 <= i < |p| ensures AsciiLower(p)[i] != '%' && AsciiLower(p)[i] != '_' {
        assert 'A' <= p[i] <= 'Z' ==> 'a' <= LowerChar(p[i]) <= 'z';
      }
    }
    if WildcardFree(AsciiLower(p)) {
      forall i | 0 <= i < |p| ensures p[i] != '%' && p[i] != '_' {
        assert AsciiLower(p)[i] == LowerChar(p[i]);
      }
    }
  }

  /** The buyer-name condition of the listing: `LOWER(name) LIKE '%' || lower(needle) || '%'`
      is a case-insensitive substring test whenever `needle` holds no `%` and no `_`. */
  lemma {:induction false} LoweredLikeIsSubstring(name: string, needle: string)
    requires WildcardFree(needle)
    ensures Like(AsciiLower(name), "%" + AsciiLower(needle) + "%") <==> ContainsIgnoringCase(name, needle)
  {
    WildcardFreeLowered(needle);
    LikeContains(AsciiLower(name), AsciiLower(needle));
    ContainsLowered(name, needle);
  }

  /** ORDER BY key DESC: the sequence is non-increasing in its keys. */
  ghost predicate SortedDesc<T>(s: seq<T>, key: T -> string) {
    forall i, j :: 0 <= i < j < |s| ==> LexLe(key(s[j]), key(s[i]))
  }

  /** Inserts x before the first element whose key is not above x's. */
  function InsertDesc<T>(x: T, s: seq<T>, key: T -> string): seq<T> {
    if |s| == 0 then [x]
    else if LexLe(key(s[0]), key(x)) then [x] + s
    else [s[0]] + InsertDesc(x, s[1..], key)
  }

  /** The order this model gives to ORDER BY ... DESC: an insertion sort that keeps rows with
      equal keys in storage order (SQLite leaves the order of ties unspecified). */
  function SortDesc<T>(s: seq<T>, key: T -> string): seq<T> {
    if |s| == 0 then [] else InsertDesc(s[0], SortDesc(s[1..], key), key)
  }

  lemma {:induction false} InsertDescPermutes<T>(x: T, s: seq<T>, key: T -> string)
    ensures multiset(InsertDesc(x, s, key)) == multiset(s) + multiset{x}
  {
    if |s| > 0 && !LexLe(key(s[0]), key(x)) {
      InsertDescPermutes(x, s[1..], key);
      assert s == [s[0]] + s[1..];
    }
  }

  /** A bound on every key of s and on x's key bounds every key after the insertion. */
  lemma {:induction false} InsertDescBounded<T>(x: T, s: seq<T>, key: T -> string, b: string)
    requires forall j :: 0 <= j < |s| ==> LexLe(key(s[j]), b)
    requires LexLe(key(x), b)
    ensures forall j :: 0 <= j < |InsertDesc(x, s, key)| ==> LexLe(key(InsertDesc(x, s, key)[j]), b)
  {
    if |s| > 0 && !LexLe(key(s[0]), key(x)) {
      InsertDescBounded(x, s[1..], key, b);
    }
  }

  lemma {:induction false} InsertDescSorted<T>(x: T, s: seq<T>, key: T -> string)
    requires SortedDesc(s, key)
    ensures SortedDesc(InsertDesc(x, s, key), key)
  {
    if |s| == 0 {
    } else if LexLe(key(s[0]), key(x)) {
      var r := [x] + s;
      forall i, j | 0 <= i < j < |r| ensures LexLe(key(r[j]), key(r[i])) {
        if i == 0 && j > 1 {
          LexLeTransitive(key(s[j - 1]), key(s[0]), key(x));
        }
      }
    } else {
      LexLeTotal(key(s[0]), key(x));
      var t := InsertDesc(x, s[1..], key);
      InsertDescSorted(x, s[1..], key);
      InsertDescBounded(x, s[1..], key, key(s[0]));
      var r := [s[0]] + t;
      forall i, j | 0 <= i < j < |r| ensures LexLe(key(r[j]), key(r[i])) {
        if i > 0 {
          assert r[i] == t[i - 1] && r[j] == t[j - 1];
        }
      }
    }
  }

  /** The listing order is descending and loses or adds no row. */
  lemma {:induction false} SortDescCorrect<T>(s: seq<T>, key: T -> string)
    ensures SortedDesc(SortDesc(s, key), key)
    ensures multiset(SortDesc(s, key)) == multiset(s)
  {
    if |s| > 0 {
      SortDescCorrect(s[1..], key);
      InsertDescSorted(s[0], SortDesc(s[1..], key), key);
      InsertDescPermutes(s[0], SortDesc(s[1..], key), key);
      assert s == [s[0]] + s[1..];
    }
  }
}
