/**
 * The parts of JavaScript's string semantics that the checker relies on:
 * `length` in UTF-16 code units, `String.prototype.trim`, the rendering of an
 * integer by a template literal, and `split` on a single character.
 */
module JsString {

  /** Number of UTF-16 code units of `s`, which is what `s.length` reports. */
  function Utf16Length(s: string): (n: nat)
    ensures |s| <= n <= 2 * |s|
    ensures (forall i :: 0 <= i < |s| ==> s[i] as int <= 0xFFFF) ==> n == |s|
  {
    if |s| == 0 then 0
    else (if s[0] as int > 0xFFFF then 2 else 1) + Utf16Length(s[1..])
  }

  lemma {:induction false} Utf16LengthAppend(a: string, b: string)
    ensures Utf16Length(a + b) == Utf16Length(a) + Utf16Length(b)
  {
    if |a| == 0 {
      assert a + b == b;
    } else {
      assert (a + b)[1..] == a[1..] + b;
      Utf16LengthAppend(a[1..], b);
    }
  }

  /**
   * The characters `trim` removes: WhiteSpace (tab, vertical tab, form feed,
   * space, no-break space, byte-order mark and the Space_Separator category)
   * and LineTerminator (line feed, carriage return, line and paragraph separator).
   * Written as a comprehension so that the verifier does not treat the set
   * as a literal and unfold stripping on literal text without end.
   */
  const WhiteSpace: set<char> := set c | c in {
    '\t', '\n', '\U{000B}', '\U{000C}', '\r', ' ', '\U{00A0}', '\U{1680}',
    '\U{2000}', '\U{2001}', '\U{2002}', '\U{2003}', '\U{2004}', '\U{2005}',
    '\U{2006}', '\U{2007}', '\U{2008}', '\U{2009}', '\U{200A}',
    '\U{2028}', '\U{2029}', '\U{202F}', '\U{205F}', '\U{3000}', '\U{FEFF}'
  }

  lemma WhiteSpaceRange(c: char)
    ensures c in WhiteSpace ==> c <= ' ' || c == '\U{00A0}' || c == '\U{1680}' || '\U{2000}' <= c
  {
  }

  /** Every character of `s` is in `ws`. */
  predicate AllIn(s: string, ws: set<char>)
    decreases |s|
  {
    |s| == 0 || (s[0] in ws && AllIn(s[1..], ws))
  }

  predicate AllWhiteSpace(s: string) {
    AllIn(s, WhiteSpace)
  }

  /** Neither the first nor the last character of `s` is white space. */
  predicate Solid(s: string) {
    |s| > 0 && s[0] !in WhiteSpace && s[|s| - 1] !in WhiteSpace
  }

  lemma {:induction false} AllInAppend(a: string, b: string, ws: set<char>)
    ensures AllIn(a + b, ws) <==> AllIn(a, ws) && AllIn(b, ws)
    decreases |a|
  {
    if |a| == 0 {
      assert a + b == b;
    } else {
      assert (a + b)[0] == a[0];
      assert (a + b)[1..] == a[1..] + b;
      AllInAppend(a[1..], b, ws);
    }
  }

  /** A character of `ws` in front of a prefix of the rest drawn from `ws`. */
  lemma AllInCons(s: string, k: nat, ws: set<char>)
    requires |s| > 0 && s[0] in ws && k < |s| && AllIn(s[1..][..k], ws)
    ensures AllIn(s[..k + 1], ws)
  {
    assert s[..k + 1][0] == s[0];
    assert s[..k + 1][1..] == s[1..][..k];
  }

  /** A character of `ws` after a suffix of the rest drawn from `ws`. */
  lemma AllInSnoc(s: string, k: nat, ws: set<char>)
    requires |s| > 0 && s[|s| - 1] in ws && k <= |s| - 1 && AllIn(s[..|s| - 1][k..], ws)
    ensures AllIn(s[k..], ws)
  {
    var last := [s[|s| - 1]];
    assert AllIn(last[1..], ws);
    assert s[k..] == s[..|s| - 1][k..] + last;
    AllInAppend(s[..|s| - 1][k..], last, ws);
  }

  /** `s` without its longest prefix drawn from `ws`; `StripStartRemoved` says what goes. */
  function StripStart(s: string, ws: set<char>): (r: string)
    ensures |r| <= |s| && r == s[|s| - |r|..]
    ensures |r| == 0 || r[0] !in ws
  {
    if |s| > 0 && s[0] in ws then StripStart(s[1..], ws) else s
  }

  /** `s` without its longest suffix drawn from `ws`; `StripEndRemoved` says what goes. */
  function StripEnd(s: string, ws: set<char>): (r: string)
    ensures |r| <= |s| && r == s[..|r|]
    ensures |r| == 0 || r[|r| - 1] !in ws
  {
    if |s| > 0 && s[|s| - 1] in ws then StripEnd(s[..|s| - 1], ws) else s
  }

  /** Only characters of `ws` are stripped from the front. */
  lemma {:induction false} StripStartRemoved(s: string, ws: set<char>)
    ensures AllIn(s[..|s| - |StripStart(s, ws)|], ws)
  {
    if |s| > 0 && s[0] in ws {
      var rest := s[1..];
      var k := |rest| - |StripStart(rest, ws)|;
      assert StripStart(s, ws) == StripStart(rest, ws);
      StripStartRemoved(rest, ws);
      AllInCons(s, k, ws);
    } else {
      assert |s[..|s| - |StripStart(s, ws)|]| == 0;
    }
  }

  /** Only characters of `ws` are stripped from the back. */
  lemma {:induction false} StripEndRemoved(s: string, ws: set<char>)
    ensures AllIn(s[|StripEnd(s, ws)|..], ws)
  {
    if |s| > 0 && s[|s| - 1] in ws {
      var init := s[..|s| - 1];
      var k := |StripEnd(init, ws)|;
      assert StripEnd(s, ws) == StripEnd(init, ws);
      StripEndRemoved(init, ws);
      AllInSnoc(s, k, ws);
    } else {
      assert |s[|StripEnd(s, ws)|..]| == 0;
    }
  }

  /** `r` is an infix of `s` with nothing but white space on either side of it. */
  predicate PaddedInfix(s: string, r: string) {
    exists i :: 0 <= i <= |s| - |r| && r == s[i..i + |r|]
                && AllWhiteSpace(s[..i]) && AllWhiteSpace(s[i + |r|..])
  }

  /**
   * `String.prototype.trim`: the text left after removing white space at both
   * ends. `TrimRemovesPadding` says what it removes.
   */
  function Trim(s: string): (r: string)
    ensures |r| <= |s|
    ensures |r| == 0 || Solid(r)
  {
    StripEnd(StripStart(s, WhiteSpace), WhiteSpace)
  }

  lemma PaddedInfixAt(s: string, i: int, r: string)
    requires 0 <= i <= |s| - |r| && r == s[i..i + |r|]
    requires AllWhiteSpace(s[..i]) && AllWhiteSpace(s[i + |r|..])
    ensures PaddedInfix(s, r)
  {
  }

  /** `trim` keeps an infix of its input and removes only white space around it. */
  lemma TrimRemovesPadding(s: string)
    ensures PaddedInfix(s, Trim(s))
  {
    var t := StripStart(s, WhiteSpace);
    var i := |s| - |t|;
    var r := StripEnd(t, WhiteSpace);
    StripStartRemoved(s, WhiteSpace);
    StripEndRemoved(t, WhiteSpace);
    assert t == s[i..];
    assert r == s[i..i + |r|];
    assert s[i + |r|..] == t[|r|..];
    assert Trim(s) == r;
    PaddedInfixAt(s, i, r);
  }

  lemma {:induction false} StripStartPadded(pre: string, rest: string, ws: set<char>)
    requires AllIn(pre, ws) && (|rest| == 0 || rest[0] !in ws)
    ensures StripStart(pre + rest, ws) == rest
  {
    if |pre| == 0 {
      assert pre + rest == rest;
    } else {
      assert (pre + rest)[1..] == pre[1..] + rest;
      StripStartPadded(pre[1..], rest, ws);
    }
  }

  lemma {:induction false} StripEndPadded(rest: string, post: string, ws: set<char>)
    requires AllIn(post, ws) && (|rest| == 0 || rest[|rest| - 1] !in ws)
    ensures StripEnd(rest + post, ws) == rest
  {
    if |post| == 0 {
      assert rest + post == rest;
    } else {
      var s := rest + post;
      var init := post[..|post| - 1];
      assert post == init + [post[|post| - 1]];
      AllInAppend(init, [post[|post| - 1]], ws);
      assert s[|s| - 1] == post[|post| - 1];
      assert s[..|s| - 1] == rest + init;
      StripEndPadded(rest, init, ws);
    }
  }

  /** Trimming a padded infix yields the infix: the padding is removed and nothing else. */
  lemma TrimPadded(pre: string, core: string, post: string)
    requires AllWhiteSpace(pre) && AllWhiteSpace(post) && Solid(core)
    ensures Trim(pre + core + post) == core
  {
    assert pre + core + post == pre + (core + post);
    StripStartPadded(pre, core + post, WhiteSpace);
    StripEndPadded(core, post, WhiteSpace);
  }

  /** Text that is empty or neither starts nor ends in white space is left as it is. */
  lemma TrimSolid(s: string)
    requires |s| == 0 || Solid(s)
    ensures Trim(s) == s
  {
    if |s| == 0 {
      assert |Trim(s)| == 0;
    } else {
      TrimPadded("", s, "");
      assert "" + s + "" == s;
    }
  }

  lemma TrimIdempotent(s: string)
    ensures Trim(Trim(s)) == Trim(s)
  {
    TrimSolid(Trim(s));
  }

  predicate IsDigit(c: char) {
    '0' <= c <= '9'
  }

  predicate AllDigits(s: string) {
    forall i :: 0 <= i < |s| ==> IsDigit(s[i])
  }

  function DigitChar(d: nat): (c: char)
    requires d < 10
    ensures IsDigit(c) && c as int - '0' as int == d
  {
    (d + '0' as int) as char
  }

  /** Decimal rendering of a natural number, as `String(n)` produces it. */
  function NatToString(n: nat): (s: string)
    decreases n
  {
    if n < 10 then [DigitChar(n)] else NatToString(n / 10) + [DigitChar(n % 10)]
  }

  /** Decimal rendering of an integer, as a template literal `${n}` produces it. */
  function IntToString(n: int): (s: string)
  {
    if n < 0 then "-" + NatToString(-n) else NatToString(n)
  }

  /** The value of a string of decimal digits: the reference definition `NatToString` inverts. */
  function DigitsValue(s: string): (n: nat)
    requires AllDigits(s)
  {
    if |s| == 0 then 0
    else DigitsValue(s[..|s| - 1]) * 10 + (s[|s| - 1] as int - '0' as int)
  }

  lemma {:induction false} NatToStringDigits(n: nat)
    ensures |NatToString(n)| > 0 && AllDigits(NatToString(n))
    ensures DigitsValue(NatToString(n)) == n
    decreases n
  {
    if n >= 10 {
      NatToStringDigits(n / 10);
      var s := NatToString(n);
      assert s[..|s| - 1] == NatToString(n / 10);
    }
  }

  /** The rendering starts with a minus sign exactly for negative integers. */
  lemma IntToStringSign(n: int)
    ensures |IntToString(n)| > 0
    ensures IntToString(n)[0] == '-' <==> n < 0
    ensures IntToString(n)[0] == '-' || IsDigit(IntToString(n)[0])
  {
    NatToStringDigits(if n < 0 then -n else n);
  }

  /** Distinct integers render as distinct strings. */
  lemma IntToStringInjective(a: int, b: int)
    requires IntToString(a) == IntToString(b)
    ensures a == b
  {
    IntToStringSign(a);
    IntToStringSign(b);
    assert a < 0 <==> b < 0;
    var ma := if a < 0 then -a else a;
    var mb := if b < 0 then -b else b;
    NatToStringDigits(ma);
    NatToStringDigits(mb);
    if a < 0 {
      assert NatToString(ma) == IntToString(a)[1..];
      assert NatToString(mb) == IntToString(b)[1..];
    }
  }

  /** Equal texts with equal prefixes have equal remainders. */
  lemma CancelPrefix(a: string, x: string, y: string)
    requires a + x == a + y
    ensures x == y
  {
    assert x == (a + x)[|a|..];
  }

  /** Equal texts with equal suffixes have equal beginnings. */
  lemma CancelSuffix(x: string, y: string, b: string)
    requires x + b == y + b
    ensures x == y
  {
    assert x == (x + b)[..|x|];
    assert y == (y + b)[..|y|];
  }

  /** `s.split(sep)` for a one-character separator. */
  function Split(s: string, sep: char): (parts: seq<string>)
    ensures |parts| >= 1
  {
    if |s| == 0 then [""]
    else
      var rest := Split(s[1..], sep);
      if s[0] == sep then [""] + rest else [[s[0]] + rest[0]] + rest[1..]
  }

  /** `parts.join(sep)`: the reference definition `Split` inverts. */
  function Join(parts: seq<string>, sep: char): string
    requires |parts| >= 1
  {
    if |parts| == 1 then parts[0] else parts[0] + [sep] + Join(parts[1..], sep)
  }

  function Count(s: string, c: char): nat {
    if |s| == 0 then 0 else (if s[0] == c then 1 else 0) + Count(s[1..], c)
  }

  /** Splitting loses nothing: joining the pieces back restores the input. */
  lemma {:induction false} SplitJoin(s: string, sep: char)
    ensures Join(Split(s, sep), sep) == s
  {
    if |s| > 0 {
      SplitJoin(s[1..], sep);
      var rest := Split(s[1..], sep);
      if s[0] == sep {
        assert Split(s, sep)[1..] == rest;
      } else {
        var parts := Split(s, sep);
        if |rest| == 1 {
          assert parts == [[s[0]] + rest[0]];
        } else {
          assert parts[1..] == rest[1..];
          assert Join(rest, sep) == rest[0] + [sep] + Join(rest[1..], sep);
        }
      }
    }
  }

  /** There is one more piece than there are separators, and no piece holds a separator. */
  lemma {:induction false} SplitCount(s: string, sep: char)
    ensures |Split(s, sep)| == Count(s, sep) + 1
    ensures forall k :: 0 <= k < |Split(s, sep)| ==> sep !in Split(s, sep)[k]
  {
    if |s| > 0 {
      SplitCount(s[1..], sep);
      var rest := Split(s[1..], sep);
      var parts := Split(s, sep);
      if s[0] == sep {
        assert parts == [""] + rest;
        forall k | 0 <= k < |parts| ensures sep !in parts[k] {
          if k > 0 { assert parts[k] == rest[k - 1]; }
        }
      } else {
        forall k | 0 <= k < |parts| ensures sep !in parts[k] {
          if k > 0 { assert parts[k] == rest[k]; }
          else { assert parts[0] == [s[0]] + rest[0]; }
        }
      }
    }
  }
}
