/** String operations of Python's `str` that the services rely on, written
    out so that their edge cases are explicit: `lower`, `in`, `strip`,
    slicing with `[:n]` and `[-n:]`, `join`, `split` and decimal formatting. */
module Text {

  /** The characters Python's `str.isspace` accepts, i.e. what `strip()` removes. */
  predicate IsSpaceChar(c: char)
  {
    c == ' ' || c == '\t' || c == '\n' || c == '\r' || c == '\U{0b}' || c == '\U{0c}'
    || ('\U{1c}' <= c <= '\U{1f}') || c == '\U{85}' || c == '\U{a0}' || c == '\U{1680}'
    || ('\U{2000}' <= c <= '\U{200a}') || c == '\U{2028}' || c == '\U{2029}'
    || c == '\U{202f}' || c == '\U{205f}' || c == '\U{3000}'
  }

  predicate IsBlank(s: string)
  {
    forall i :: 0 <= i < |s| ==> IsSpaceChar(s[i])
  }

  /** ASCII lower-casing. */
  function LowerChar(c: char): char
  {
    if 'A' <= c <= 'Z' then (c as int + 32) as char else c
  }

  function Lower(s: string): (r: string)
    ensures |r| == |s|
    ensures forall i :: 0 <= i < |s| ==> r[i] == LowerChar(s[i])
  {
    if s == [] then [] else [LowerChar(s[0])] + Lower(s[1..])
  }

  ghost predicate OccursAt(s: string, sub: string, i: int)
  {
    0 <= i && i + |sub| <= |s| && s[i..i + |sub|] == sub
  }

  /** Python's `sub in s`. */
  predicate Contains(s: string, sub: string)
    decreases |s|
  {
    |sub| <= |s| && (s[..|sub|] == sub || Contains(s[1..], sub))
  }

  lemma OccursShift(s: string, sub: string, i: nat)
    requires |s| >= 1
    ensures OccursAt(s, sub, i + 1) <==> OccursAt(s[1..], sub, i)
  {
    if i + 1 + |sub| <= |s| {
      assert s[1..][i..i + |sub|] == s[i + 1..i + 1 + |sub|];
    }
  }

  /** `Contains` agrees with the positional definition of a substring. */
  lemma {:induction false} ContainsIffOccurs(s: string, sub: string)
    ensures Contains(s, sub) <==> exists i :: OccursAt(s, sub, i)
    decreases |s|
  {
    if |sub| <= |s| {
      if s[..|sub|] == sub {
        assert OccursAt(s, sub, 0);
      } else {
        ContainsIffOccurs(s[1..], sub);
        if Contains(s[1..], sub) {
          var i :| OccursAt(s[1..], sub, i);
          OccursShift(s, sub, i);
        } else {
          forall i | OccursAt(s, sub, i)
            ensures false
          {
            if i > 0 {
              OccursShift(s, sub, i - 1);
            }
          }
        }
      }
    }
  }

  /** Python's `any(word in s for word in words)`. */
  predicate ContainsAny(s: string, words: seq<string>)
  {
    exists k :: 0 <= k < |words| && Contains(s, words[k])
  }

  function TrimLeft(s: string): (r: string)
    ensures |r| <= |s|
  {
    if s != [] && IsSpaceChar(s[0]) then TrimLeft(s[1..]) else s
  }

  /** `lstrip()` drops the leading spaces and nothing else. */
  lemma {:induction false} TrimLeftProperties(s: string)
    ensures var r := TrimLeft(s);
            r == s[|s| - |r|..] && (r != [] ==> !IsSpaceChar(r[0]))
            && forall i :: 0 <= i < |s| - |r| ==> IsSpaceChar(s[i])
    decreases |s|
  {
    if s != [] && IsSpaceChar(s[0]) {
      TrimLeftProperties(s[1..]);
      var r := TrimLeft(s);
      forall i | 0 <= i < |s| - |r| ensures IsSpaceChar(s[i]) {
        if i > 0 { assert s[i] == s[1..][i - 1]; }
      }
    }
  }

  function TrimRight(s: string): (r: string)
    ensures |r| <= |s|
  {
    if s != [] && IsSpaceChar(s[|s| - 1]) then TrimRight(s[..|s| - 1]) else s
  }

  /** `rstrip()` drops the trailing spaces and nothing else. */
  lemma {:induction false} TrimRightProperties(s: string)
    ensures var r := TrimRight(s);
            r == s[..|r|] && (r != [] ==> !IsSpaceChar(r[|r| - 1]))
            && forall i :: |r| <= i < |s| ==> IsSpaceChar(s[i])
    decreases |s|
  {
    if s != [] && IsSpaceChar(s[|s| - 1]) {
      TrimRightProperties(s[..|s| - 1]);
      var r := TrimRight(s);
      forall i | |r| <= i < |s| ensures IsSpaceChar(s[i]) {
        if i < |s| - 1 { assert s[i] == s[..|s| - 1][i]; }
      }
    }
  }

  /** Python's `str.strip()`. */
  function Strip(s: string): string
  {
    TrimRight(TrimLeft(s))
  }

  /** `strip()` returns exactly the slice between the first and the last
      non-space character, and is empty exactly for blank strings. */
  lemma StripIsCore(s: string)
    ensures |s| - |TrimLeft(s)| + |Strip(s)| <= |s|
    ensures Strip(s) == s[|s| - |TrimLeft(s)|..|s| - |TrimLeft(s)| + |Strip(s)|]
    ensures Strip(s) != [] ==> !IsSpaceChar(Strip(s)[0]) && !IsSpaceChar(Strip(s)[|Strip(s)| - 1])
    ensures Strip(s) == [] <==> IsBlank(s)
  {
    StripIsSlice(s);
    StripEnds(s);
    StripEmptyIffBlank(s);
  }

  lemma StripIsSlice(s: string)
    ensures |s| - |TrimLeft(s)| + |Strip(s)| <= |s|
    ensures Strip(s) == s[|s| - |TrimLeft(s)|..|s| - |TrimLeft(s)| + |Strip(s)|]
  {
    var l := TrimLeft(s);
    var a := |s| - |l|;
    var r := TrimRight(l);
    TrimLeftProperties(s);
    TrimRightProperties(l);
    assert l == s[a..];
    assert r == l[..|r|];
  }

  lemma StripEnds(s: string)
    ensures Strip(s) != [] ==> !IsSpaceChar(Strip(s)[0]) && !IsSpaceChar(Strip(s)[|Strip(s)| - 1])
  {
    var l := TrimLeft(s);
    var r := TrimRight(l);
    TrimLeftProperties(s);
    TrimRightProperties(l);
    if r != [] {
      assert r[0] == l[0];
    }
  }

  lemma StripEmptyIffBlank(s: string)
    ensures Strip(s) == [] <==> IsBlank(s)
  {
    TrimLeftProperties(s);
    TrimRightProperties(TrimLeft(s));
  }

  lemma {:induction false} TrimLeftAppend(s: string, c: char)
    requires !IsBlank(s)
    ensures TrimLeft(s + [c]) == TrimLeft(s) + [c]
    decreases |s|
  {
    if IsSpaceChar(s[0]) {
      assert (s + [c])[1..] == s[1..] + [c];
      assert !IsBlank(s[1..]) by {
        var i :| 0 <= i < |s| && !IsSpaceChar(s[i]);
        assert s[1..][i - 1] == s[i];
      }
      TrimLeftAppend(s[1..], c);
    }
  }

  /** A trailing space never changes the result of `strip()`. */
  lemma StripTrailingSpace(s: string)
    ensures Strip(s + " ") == Strip(s)
  {
    if IsBlank(s) {
      assert IsBlank(s + " ") by {
        forall i | 0 <= i < |s| + 1 ensures IsSpaceChar((s + " ")[i]) {
          if i < |s| { assert (s + " ")[i] == s[i]; }
        }
      }
      StripIsCore(s);
      StripIsCore(s + " ");
    } else {
      TrimLeftAppend(s, ' ');
      var l := TrimLeft(s);
      assert TrimRight(l + " ") == TrimRight((l + " ")[..|l|]);
      assert (l + " ")[..|l|] == l;
    }
  }

  /** Python's `xs[:k]` for any integer `k`. */
  function Prefix<T>(xs: seq<T>, k: int): (r: seq<T>)
    ensures |r| <= |xs| && r == xs[..|r|]
    ensures 0 <= k ==> |r| == if k < |xs| then k else |xs|
    ensures k < 0 ==> |r| == if |xs| + k < 0 then 0 else |xs| + k
  {
    if k >= |xs| then xs
    else if k >= 0 then xs[..k]
    else if |xs| + k < 0 then []
    else xs[..|xs| + k]
  }

  /** Python's `xs[-n:]` for a positive `n`: the last `n` entries, or all of them. */
  function Suffix<T>(xs: seq<T>, n: nat): (r: seq<T>)
    ensures |r| == if n < |xs| then n else |xs|
    ensures r == xs[|xs| - |r|..]
  {
    if n < |xs| then xs[|xs| - n..] else xs
  }

  /** Python's `sep.join(parts)`. */
  function Join(parts: seq<string>, sep: string): string
  {
    if |parts| == 0 then ""
    else if |parts| == 1 then parts[0]
    else parts[0] + sep + Join(parts[1..], sep)
  }

  /** Python's `s.split(sep)` for a one-character separator. */
  function Split(s: string, sep: char): (r: seq<string>)
    ensures |r| >= 1
    ensures forall i :: 0 <= i < |r| ==> sep !in r[i]
  {
    if s == [] then [""]
    else
      var rest := Split(s[1..], sep);
      if s[0] == sep then [""] + rest
      else [[s[0]] + rest[0]] + rest[1..]
  }

  /** Joining the fields of a split with the separator gives the string back. */
  lemma {:induction false} JoinSplit(s: string, sep: char)
    ensures Join(Split(s, sep), [sep]) == s
  {
    if s != [] {
      var rest := Split(s[1..], sep);
      JoinSplit(s[1..], sep);
      if s[0] == sep {
        assert Split(s, sep) == [""] + rest;
        assert ([""] + rest)[1..] == rest;
      } else {
        var r := Split(s, sep);
        assert r == [[s[0]] + rest[0]] + rest[1..];
        if |rest| == 1 {
          assert r == [[s[0]] + rest[0]];
        } else {
          assert r[1..] == rest[1..];
          assert Join(rest, [sep]) == rest[0] + [sep] + Join(rest[1..], [sep]);
        }
      }
    }
  }

  function DigitChar(d: nat): char
    requires d < 10
  {
    ('0' as int + d) as char
  }

  predicate IsDigitChar(c: char)
  {
    '0' <= c <= '9'
  }

  /** Python's `str(n)` for a natural number. */
  function NatToString(n: nat): (r: string)
    ensures |r| >= 1
    ensures forall i :: 0 <= i < |r| ==> IsDigitChar(r[i])
    decreases n
  {
    if n < 10 then [DigitChar(n)] else NatToString(n / 10) + [DigitChar(n % 10)]
  }

  /** Python's `str(i)` for any integer. */
  function IntToString(i: int): string
  {
    if i < 0 then "-" + NatToString(-i) else NatToString(i)
  }

  function ParseDecimal(s: string): nat
    requires forall i :: 0 <= i < |s| ==> IsDigitChar(s[i])
  {
    if s == [] then 0
    else
      assert IsDigitChar(s[|s| - 1]);
      ParseDecimal(s[..|s| - 1]) * 10 + (s[|s| - 1] as int - '0' as int)
  }

  /** Decimal formatting loses nothing: reading the digits back gives the number. */
  lemma {:induction false} ParseNatToString(n: nat)
    ensures ParseDecimal(NatToString(n)) == n
    decreases n
  {
    if n >= 10 {
      var s := NatToString(n / 10) + [DigitChar(n % 10)];
      assert s[..|s| - 1] == NatToString(n / 10);
      ParseNatToString(n / 10);
    }
  }
}
