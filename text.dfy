/**
 * String helpers used by the handlers. JavaScript's `trim` and `toUpperCase`
 * are Unicode-aware; this model restricts them to ASCII: the six ASCII
 * white-space characters are trimmed and only `a`..`z` are upper-cased.
 */
module Text {

  /** ASCII white space as recognised by `String.prototype.trim`. */
  predicate IsSpace(c: char)
  {
    c == ' ' || c == '\t' || c == '\n' || c == '\r' || c == '\U{B}' || c == '\U{C}'
  }

  predicate AllSpace(s: string)
  {
    forall i :: 0 <= i < |s| ==> IsSpace(s[i])
  }

  /** Drops leading white space. */
  function TrimStart(s: string): (r: string)
    ensures |r| <= |s| && r == s[|s| - |r|..]
    ensures r == [] || !IsSpace(r[0])
    ensures AllSpace(s[..|s| - |r|])
  {
    if s != [] && IsSpace(s[0]) then
      var r := TrimStart(s[1..]);
      assert s[..|s| - |r|] == [s[0]] + s[1..][..|s| - 1 - |r|];
      r
    else s
  }

  /** Drops trailing white space. */
  function TrimEnd(s: string): (r: string)
    ensures |r| <= |s| && r == s[..|r|]
    ensures r == [] || !IsSpace(r[|r| - 1])
    ensures AllSpace(s[|r|..])
  {
    if s != [] && IsSpace(s[|s| - 1]) then
      var r := TrimEnd(s[..|s| - 1]);
      assert s[|r|..] == s[..|s| - 1][|r|..] + [s[|s| - 1]];
      r
    else s
  }

  /** `s.trim()`. */
  function Trim(s: string): string
  {
    TrimEnd(TrimStart(s))
  }

  /** A string trims to the empty string exactly when it is all white space. */
  lemma TrimEmptyIffAllSpace(s: string)
    ensures Trim(s) == [] <==> AllSpace(s)
  {
    var t := TrimStart(s);
    if Trim(s) == [] {
      assert t[|Trim(s)|..] == t;
      assert t == [];
      assert s[..|s|] == s;
    }
  }

  /** Leading white space does not change what `TrimStart` keeps. */
  lemma {:induction false} TrimStartSkipsSpace(p: string, s: string)
    requires AllSpace(p)
    ensures TrimStart(p + s) == TrimStart(s)
    decreases |p|
  {
    if p != [] {
      var whole, rest := p + s, p[1..] + s;
      assert whole[0] == p[0] && IsSpace(p[0]);
      assert whole[1..] == rest;
      assert AllSpace(p[1..]) by {
        assert forall i :: 0 <= i < |p| - 1 ==> p[1..][i] == p[i + 1];
      }
      TrimStartSkipsSpace(p[1..], s);
      calc {
        TrimStart(whole);
        TrimStart(whole[1..]);
        TrimStart(rest);
        TrimStart(s);
      }
    } else {
      assert p + s == s;
    }
  }

  /** Once a non-space character is kept, whatever follows is kept too. */
  lemma {:induction false} TrimStartAppend(s: string, q: string)
    requires TrimStart(s) != []
    ensures TrimStart(s + q) == TrimStart(s) + q
    decreases |s|
  {
    if IsSpace(s[0]) {
      assert (s + q)[1..] == s[1..] + q;
      TrimStartAppend(s[1..], q);
    }
  }

  /** Trailing white space does not change what `TrimEnd` keeps. */
  lemma {:induction false} TrimEndSkipsSpace(s: string, q: string)
    requires AllSpace(q)
    ensures TrimEnd(s + q) == TrimEnd(s)
    decreases |q|
  {
    if q != [] {
      var whole, rest := s + q, s + q[..|q| - 1];
      assert whole[|whole| - 1] == q[|q| - 1] && IsSpace(q[|q| - 1]);
      assert whole[..|whole| - 1] == rest;
      assert AllSpace(q[..|q| - 1]) by {
        assert forall i :: 0 <= i < |q| - 1 ==> q[..|q| - 1][i] == q[i];
      }
      TrimEndSkipsSpace(s, q[..|q| - 1]);
      calc {
        TrimEnd(whole);
        TrimEnd(whole[..|whole| - 1]);
        TrimEnd(rest);
        TrimEnd(s);
      }
    } else {
      assert s + q == s;
    }
  }

  /** A string that neither starts nor ends with white space is its own trimmed form. */
  lemma TrimUnpadded(s: string)
    requires s != [] && !IsSpace(s[0]) && !IsSpace(s[|s| - 1])
    ensures Trim(s) == s
  {
    assert TrimStart(s) == s;
  }

  /** White space around a string is removed by `Trim`. */
  lemma TrimIgnoresPadding(p: string, s: string, q: string)
    requires AllSpace(p) && AllSpace(q)
    ensures Trim(p + s + q) == Trim(s)
  {
    var rest := s + q;
    assert p + s + q == p + rest;
    calc {
      Trim(p + rest);
      TrimEnd(TrimStart(p + rest));
      { TrimStartSkipsSpace(p, rest); }
      TrimEnd(TrimStart(rest));
      { TrimIgnoresTrailingSpace(s, q); }
      Trim(s);
    }
  }

  /** White space after a string is removed by `Trim`. */
  lemma TrimIgnoresTrailingSpace(s: string, q: string)
    requires AllSpace(q)
    ensures TrimEnd(TrimStart(s + q)) == Trim(s)
  {
    var t := TrimStart(s);
    if t != [] {
      TrimStartAppend(s, q);
      TrimEndSkipsSpace(t, q);
    } else {
      TrimEmptyIffAllSpace(s);
      AllSpaceAppend(s, q);
      TrimEmptyIffAllSpace(s + q);
    }
  }

  lemma AllSpaceAppend(s: string, q: string)
    requires AllSpace(s) && AllSpace(q)
    ensures AllSpace(s + q)
  {
    forall i | 0 <= i < |s + q| ensures IsSpace((s + q)[i]) {
      if i < |s| { assert (s + q)[i] == s[i]; } else { assert (s + q)[i] == q[i - |s|]; }
    }
  }

  function UpperChar(c: char): char
  {
    if 'a' <= c <= 'z' then (c as int - 32) as char else c
  }

  /** `s.toUpperCase()`, ASCII only. */
  function Upper(s: string): (r: string)
    ensures |r| == |s|
    ensures forall i :: 0 <= i < |s| ==> r[i] == UpperChar(s[i])
  {
    seq(|s|, i requires 0 <= i < |s| => UpperChar(s[i]))
  }

  /** Upper-casing twice is upper-casing once. */
  lemma UpperIdempotent(s: string)
    ensures Upper(Upper(s)) == Upper(s)
  {
  }

  /** Upper-casing works character by character, so it distributes over concatenation. */
  lemma UpperAppend(a: string, b: string)
    ensures Upper(a + b) == Upper(a) + Upper(b)
  {
  }

  /** `s.startsWith(p)`. */
  predicate StartsWith(s: string, p: string)
  {
    |p| <= |s| && s[..|p|] == p
  }

  /** `s.includes(sub)`, by scanning start positions from the left. */
  predicate Contains(s: string, sub: string)
    decreases |s|
  {
    StartsWith(s, sub) || (s != [] && Contains(s[1..], sub))
  }

  /** `Contains` holds exactly when `sub` occurs at some position of `s`. */
  lemma {:induction false} ContainsIffOccurs(s: string, sub: string)
    ensures Contains(s, sub) <==> exists k :: 0 <= k <= |s| && StartsWith(s[k..], sub)
    decreases |s|
  {
    if StartsWith(s, sub) {
      assert s[0..] == s;
    } else if s == [] {
      forall k | 0 <= k <= |s| ensures !StartsWith(s[k..], sub) {
        assert s[k..] == s;
      }
    } else {
      ContainsIffOccurs(s[1..], sub);
      if Contains(s[1..], sub) {
        var k :| 0 <= k <= |s| - 1 && StartsWith(s[1..][k..], sub);
        assert s[1..][k..] == s[k + 1..];
      } else {
        forall k | 0 <= k <= |s| ensures !StartsWith(s[k..], sub) {
          if k > 0 {
            assert s[1..][k - 1..] == s[k..];
          } else {
            assert s[0..] == s;
          }
        }
      }
    }
  }

  function DigitChar(d: nat): char
    requires d < 10
  {
    ('0' as int + d) as char
  }

  /** Decimal digits of a natural number, most significant first. */
  function NatDigits(n: nat): (r: string)
    ensures r != []
    ensures forall i :: 0 <= i < |r| ==> '0' <= r[i] <= '9'
  {
    if n < 10 then [DigitChar(n)] else NatDigits(n / 10) + [DigitChar(n % 10)]
  }

  /** `String(n)` for an integral JavaScript number. */
  function IntString(n: int): string
  {
    if n < 0 then "-" + NatDigits(-n) else NatDigits(n)
  }
}
