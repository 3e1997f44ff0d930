/** String handling used by the search endpoint: the whitespace that
    String.prototype.trim strips, ASCII lower-casing, and substring
    containment (the meaning given here to a case-insensitive `$regex`
    whose pattern holds no metacharacters). */
module Text {

  /** ECMAScript WhiteSpace and LineTerminator code points: tab, line feed,
      vertical tab, form feed, carriage return, space, no-break space, the
      Unicode space separators, line and paragraph separators, and the byte
      order mark. These are exactly the characters `trim()` removes. */
  predicate IsWhitespace(c: char) {
    var n := c as int;
    (0x09 <= n <= 0x0D) || n == 0x20 || n == 0xA0 || n == 0x1680 ||
    (0x2000 <= n <= 0x200A) || n == 0x2028 || n == 0x2029 ||
    n == 0x202F || n == 0x205F || n == 0x3000 || n == 0xFEFF
  }

  predicate AllWhitespace(s: string) {
    forall k :: 0 <= k < |s| ==> IsWhitespace(s[k])
  }

  predicate IsUpper(c: char) {
    'A' <= c <= 'Z'
  }

  /** ASCII lower-casing of one character; every other character is kept. */
  function LowerChar(c: char): (d: char)
    ensures !IsUpper(d)
    ensures IsWhitespace(d) == IsWhitespace(c)
    ensures !IsUpper(c) ==> d == c
  {
    if IsUpper(c) then (c as int + 32) as char else c
  }

  /** `toLowerCase()`, restricted to ASCII letters. */
  function Lower(s: string): (r: string)
    ensures |r| == |s|
    ensures forall k :: 0 <= k < |s| ==> r[k] == LowerChar(s[k])
  {
    if s == [] then [] else [LowerChar(s[0])] + Lower(s[1..])
  }

  /** Removes the leading whitespace: the result is the suffix of `s` that
      starts at the first non-whitespace character. */
  function TrimStart(s: string): (r: string)
    ensures |r| <= |s| && r == s[|s| - |r|..]
    ensures forall k :: 0 <= k < |s| - |r| ==> IsWhitespace(s[k])
    ensures r != [] ==> !IsWhitespace(r[0])
  {
    if s != [] && IsWhitespace(s[0]) then TrimStart(s[1..]) else s
  }

  /** Removes the trailing whitespace: the result is the prefix of `s` that
      ends at the last non-whitespace character. */
  function TrimEnd(s: string): (r: string)
    ensures |r| <= |s| && r == s[..|r|]
    ensures forall k :: |r| <= k < |s| ==> IsWhitespace(s[k])
    ensures r != [] ==> !IsWhitespace(r[|r| - 1])
  {
    if s != [] && IsWhitespace(s[|s| - 1]) then TrimEnd(s[..|s| - 1]) else s
  }

  /** `r` is `s` with a whitespace-only prefix of length `i` and a
      whitespace-only suffix cut off. */
  predicate StrippedAt(s: string, r: string, i: int) {
    0 <= i <= |s| - |r| && r == s[i..i + |r|] &&
    (forall k :: 0 <= k < i ==> IsWhitespace(s[k])) &&
    (forall k :: i + |r| <= k < |s| ==> IsWhitespace(s[k]))
  }

  /** `trim()`: `s` with leading and trailing whitespace cut off, so that
      what remains neither starts nor ends with whitespace, and is empty
      exactly when `s` is whitespace only. */
  function Trim(s: string): (r: string)
    ensures r == [] <==> AllWhitespace(s)
    ensures r != [] ==> !IsWhitespace(r[0]) && !IsWhitespace(r[|r| - 1])
    ensures exists i :: StrippedAt(s, r, i)
  {
    TrimStripped(s);
    TrimEmpty(s);
    TrimEnd(TrimStart(s))
  }

  /** The contract of `Trim` leaves it no choice: a stretch of `s` cut
      out between whitespace-only ends, which itself neither starts nor ends
      with whitespace, is `Trim(s)`. */
  lemma TrimUnique(s: string, r: string, i: int)
    requires StrippedAt(s, r, i)
    requires r != [] ==> !IsWhitespace(r[0]) && !IsWhitespace(r[|r| - 1])
    ensures r == Trim(s)
  {
    var t := Trim(s);
    if r == [] {
      assert AllWhitespace(s) by {
        forall k | 0 <= k < |s| ensures IsWhitespace(s[k]) {
          if k >= i { assert i + |r| <= k; }
        }
      }
    } else {
      assert s[i] == r[0];
      assert t != [];
      var j :| StrippedAt(s, t, j);
      assert s[j] == t[0];
      assert i == j;
      assert s[i + |r| - 1] == r[|r| - 1];
      assert s[j + |t| - 1] == t[|t| - 1];
      assert |r| == |t|;
    }
  }

  lemma TrimStripped(s: string)
    ensures StrippedAt(s, TrimEnd(TrimStart(s)), |s| - |TrimStart(s)|)
  {
    var t := TrimStart(s);
    StrippedFromSuffix(s, t, TrimEnd(t));
  }

  /** Cutting a whitespace prefix off `s`, giving `t`, and then a
      whitespace suffix off `t`, giving `r`, strips `s` down to `r`. */
  lemma StrippedFromSuffix(s: string, t: string, r: string)
    requires |t| <= |s| && t == s[|s| - |t|..]
    requires forall k :: 0 <= k < |s| - |t| ==> IsWhitespace(s[k])
    requires |r| <= |t| && r == t[..|r|]
    requires forall k :: |r| <= k < |t| ==> IsWhitespace(t[k])
    ensures StrippedAt(s, r, |s| - |t|)
  {
    var i := |s| - |t|;
    forall j | 0 <= j < |r| ensures r[j] == s[i + j] {
      assert r[j] == t[j];
    }
    assert r == s[i..i + |r|];
    forall k | i + |r| <= k < |s| ensures IsWhitespace(s[k]) {
      assert s[k] == t[k - i];
    }
  }

  lemma TrimEmpty(s: string)
    ensures TrimEnd(TrimStart(s)) == [] <==> AllWhitespace(s)
  {
    if AllWhitespace(s) {
      TrimStartAllWhitespace(s);
    }
  }

  lemma AllWhitespaceConcat(a: string, b: string)
    ensures AllWhitespace(a + b) <==> AllWhitespace(a) && AllWhitespace(b)
  {
    if AllWhitespace(a + b) {
      forall k | 0 <= k < |a| ensures IsWhitespace(a[k]) {
        assert (a + b)[k] == a[k];
      }
      forall k | 0 <= k < |b| ensures IsWhitespace(b[k]) {
        assert (a + b)[|a| + k] == b[k];
      }
    }
  }

  predicate OccursAt(hay: string, needle: string, i: int)
    requires 0 <= i <= |hay| - |needle|
  {
    hay[i..i + |needle|] == needle
  }

  /** True when `needle` occurs in `hay` as a run of consecutive characters. */
  function Contains(hay: string, needle: string): (b: bool)
    ensures b <==> exists i :: 0 <= i <= |hay| - |needle| && OccursAt(hay, needle, i)
    decreases |hay|
  {
    if |needle| > |hay| then false
    else if hay[..|needle|] == needle then assert OccursAt(hay, needle, 0); true
    else
      OccursAtShift(hay, needle);
      Contains(hay[1..], needle)
  }

  lemma OccursAtShift(hay: string, needle: string)
    requires |needle| <= |hay| && hay[..|needle|] != needle
    ensures (exists i :: 0 <= i <= |hay| - |needle| && OccursAt(hay, needle, i)) <==>
            (exists j :: 0 <= j <= |hay| - 1 - |needle| && OccursAt(hay[1..], needle, j))
  {
    if exists i :: 0 <= i <= |hay| - |needle| && OccursAt(hay, needle, i) {
      var i :| 0 <= i <= |hay| - |needle| && OccursAt(hay, needle, i);
      assert i != 0;
      OccursAtTail(hay, needle, i);
    }
    if exists j :: 0 <= j <= |hay| - 1 - |needle| && OccursAt(hay[1..], needle, j) {
      var j :| 0 <= j <= |hay| - 1 - |needle| && OccursAt(hay[1..], needle, j);
      OccursAtTail(hay, needle, j + 1);
    }
  }

  /** An occurrence at `i > 0` is an occurrence at `i - 1` in the tail. */
  lemma OccursAtTail(hay: string, needle: string, i: int)
    requires 1 <= i <= |hay| - |needle|
    ensures OccursAt(hay, needle, i) == OccursAt(hay[1..], needle, i - 1)
  {
    var a := hay[1..][i - 1..i - 1 + |needle|];
    var b := hay[i..i + |needle|];
    forall k | 0 <= k < |needle| ensures a[k] == b[k] {
      assert a[k] == hay[1..][i - 1 + k];
    }
    assert a == b;
  }

  /** Whitespace added around a string is removed again by `Trim`. */
  lemma {:induction false} TrimPadded(pre: string, s: string, post: string)
    requires AllWhitespace(pre) && AllWhitespace(post)
    ensures Trim(pre + s + post) == Trim(s)
  {
    if AllWhitespace(s) {
      AllWhitespaceConcat(pre, s);
      AllWhitespaceConcat(pre + s, post);
    } else {
      TrimPaddedContent(pre, s, post);
    }
  }

  lemma {:induction false} TrimPaddedContent(pre: string, s: string, post: string)
    requires AllWhitespace(pre) && AllWhitespace(post) && !AllWhitespace(s)
    ensures TrimEnd(TrimStart(pre + s + post)) == TrimEnd(TrimStart(s))
  {
    var x := s + post;
    assert pre + s + post == pre + x;
    TrimStartPadded(pre, x);
    assert A: TrimStart(pre + x) == TrimStart(x);
    TrimStartAppend(s, post);
    assert B: TrimStart(x) == TrimStart(s) + post;
    TrimEndPadded(TrimStart(s), post);
    assert C: TrimEnd(TrimStart(s) + post) == TrimEnd(TrimStart(s));
  }

  lemma TrimStartCons(c: char, rest: string)
    requires IsWhitespace(c)
    ensures TrimStart([c] + rest) == TrimStart(rest)
  {
    assert ([c] + rest)[1..] == rest;
  }

  lemma {:induction false} TrimStartPadded(pre: string, s: string)
    requires AllWhitespace(pre)
    ensures TrimStart(pre + s) == TrimStart(s)
    decreases |pre|
  {
    if pre == [] {
      assert pre + s == s;
    } else {
      var rest := pre[1..] + s;
      assert pre + s == [pre[0]] + rest;
      TrimStartCons(pre[0], rest);
      assert AllWhitespace(pre[1..]) by {
        forall k | 0 <= k < |pre| - 1 ensures IsWhitespace(pre[1..][k]) {
          assert pre[1..][k] == pre[k + 1];
        }
      }
      TrimStartPadded(pre[1..], s);
    }
  }

  lemma {:induction false} TrimStartAllWhitespace(s: string)
    requires AllWhitespace(s)
    ensures TrimStart(s) == []
    decreases |s|
  {
    if s != [] {
      assert AllWhitespace(s[1..]) by {
        forall k | 0 <= k < |s| - 1 ensures IsWhitespace(s[1..][k]) {
          assert s[1..][k] == s[k + 1];
        }
      }
      TrimStartAllWhitespace(s[1..]);
    }
  }

  /** Trimming the front of `s + post` leaves `post` alone once `s`
      holds a non-whitespace character. */
  lemma {:induction false} TrimStartAppend(s: string, post: string)
    requires !AllWhitespace(s)
    ensures TrimStart(s + post) == TrimStart(s) + post
    decreases |s|
  {
    assert s != [];
    if IsWhitespace(s[0]) {
      assert (s + post)[1..] == s[1..] + post;
      assert !AllWhitespace(s[1..]) by {
        var k :| 0 <= k < |s| && !IsWhitespace(s[k]);
        assert s[1..][k - 1] == s[k];
      }
      TrimStartAppend(s[1..], post);
    }
  }

  lemma {:induction false} TrimEndPadded(s: string, post: string)
    requires AllWhitespace(post)
    ensures TrimEnd(s + post) == TrimEnd(s)
    decreases |post|
  {
    if post != [] {
      var n := |post| - 1;
      var sp := s + post;
      assert sp[|sp| - 1] == post[n];
      assert TrimEnd(sp) == TrimEnd(sp[..|sp| - 1]);
      assert sp[..|sp| - 1] == s + post[..n];
      assert AllWhitespace(post[..n]) by {
        forall k | 0 <= k < n ensures IsWhitespace(post[..n][k]) {
          assert post[..n][k] == post[k];
        }
      }
      TrimEndPadded(s, post[..n]);
    } else {
      assert s + post == s;
    }
  }

  /** Lower-casing and trimming can be applied in either order, because
      lower-casing never turns whitespace into non-whitespace or back. */
  lemma {:induction false} LowerTrimCommute(s: string)
    ensures Lower(Trim(s)) == Trim(Lower(s))
  {
    LowerTrimStart(s);
    LowerTrimEnd(TrimStart(s));
  }

  lemma {:induction false} LowerSlice(s: string, i: int, j: int)
    requires 0 <= i <= j <= |s|
    ensures Lower(s[i..j]) == Lower(s)[i..j]
  {
    var a := Lower(s[i..j]);
    var b := Lower(s)[i..j];
    forall k | 0 <= k < |a| ensures a[k] == b[k] {
      assert s[i..j][k] == s[i + k];
    }
  }

  lemma {:induction false} LowerTrimStart(s: string)
    ensures Lower(TrimStart(s)) == TrimStart(Lower(s))
    decreases |s|
  {
    if s != [] {
      var l := Lower(s);
      assert l[0] == LowerChar(s[0]);
      assert l[1..] == Lower(s[1..]);
      if IsWhitespace(s[0]) {
        LowerTrimStart(s[1..]);
      }
    }
  }

  lemma {:induction false} LowerTrimEnd(s: string)
    ensures Lower(TrimEnd(s)) == TrimEnd(Lower(s))
    decreases |s|
  {
    if s != [] {
      var l := Lower(s);
      var n := |s| - 1;
      assert l[n] == LowerChar(s[n]);
      LowerSlice(s, 0, n);
      if IsWhitespace(s[n]) {
        LowerTrimEnd(s[..n]);
      }
    }
  }
}
