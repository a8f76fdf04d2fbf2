/**
 * String helpers with the semantics of the Python built-ins the importer and the
 * sidecar helpers rely on: `str.isdigit`, `int`, `str`, `str.lower`, `str.startswith`,
 * `str.endswith`, `in` on strings, `str.split`, `str.join` and `str.strip`.
 * Characters are compared as code points; `isdigit` and `lower` cover ASCII only.
 */
module Text {

  predicate IsDigit(c: char)
  {
    '0' <= c <= '9'
  }

  /** `s.isdigit()` for ASCII text: non-empty and made only of decimal digits. */
  predicate IsDigits(s: string)
  {
    |s| > 0 && forall i :: 0 <= i < |s| ==> IsDigit(s[i])
  }

  function DigitChar(d: nat): (c: char)
    requires d < 10
    ensures IsDigit(c)
  {
    ('0' as int + d) as char
  }

  /** `int(s)` for a string of decimal digits (leading zeros allowed, as in Python). */
  function ParseDigits(s: string): nat
    requires forall i :: 0 <= i < |s| ==> IsDigit(s[i])
  {
    if s == [] then 0
    else
      assert IsDigit(s[|s| - 1]);
      ParseDigits(s[..|s| - 1]) * 10 + (s[|s| - 1] as int - '0' as int)
  }

  /** `str(n)` for a natural number: its shortest decimal rendering. */
  function DecimalString(n: nat): (s: string)
    ensures IsDigits(s)
    ensures n >= 10 ==> s[0] != '0'
  {
    if n < 10 then [DigitChar(n)] else DecimalString(n / 10) + [DigitChar(n % 10)]
  }

  /** Reading back the decimal rendering of `n` gives `n`: `int(str(n)) == n`. */
  lemma {:induction false} ParseDecimalString(n: nat)
    ensures ParseDigits(DecimalString(n)) == n
  {
    var s := DecimalString(n);
    if n >= 10 {
      assert s[..|s| - 1] == DecimalString(n / 10);
      ParseDecimalString(n / 10);
    }
  }

  /** `str` on naturals is injective, so comparing renderings compares numbers. */
  lemma DecimalStringInjective(m: nat, n: nat)
    requires DecimalString(m) == DecimalString(n)
    ensures m == n
  {
    ParseDecimalString(m);
    ParseDecimalString(n);
  }

  function LowerChar(c: char): char
  {
    if 'A' <= c <= 'Z' then (c as int + 32) as char else c
  }

  /** `s.lower()` on ASCII letters; every other character is kept. */
  function Lower(s: string): (r: string)
    ensures |r| == |s|
    ensures forall i :: 0 <= i < |s| ==> r[i] == LowerChar(s[i])
  {
    seq(|s|, i requires 0 <= i < |s| => LowerChar(s[i]))
  }

  predicate StartsWith(s: string, prefix: string)
  {
    |prefix| <= |s| && s[..|prefix|] == prefix
  }

  predicate EndsWith(s: string, suffix: string)
  {
    |suffix| <= |s| && s[|s| - |suffix|..] == suffix
  }

  /** `t in s` for strings: `t` occurs somewhere in `s` as a contiguous piece. */
  predicate Contains(s: string, t: string)
  {
    StartsWith(s, t) || (s != [] && Contains(s[1..], t))
  }

  /** `sep.join(parts)`. */
  function Join(sep: string, parts: seq<string>): string
  {
    if parts == [] then ""
    else if |parts| == 1 then parts[0]
    else parts[0] + sep + Join(sep, parts[1..])
  }

  /**
   * `s.split(sep)` for a non-empty separator: scanning left to right, every
   * non-overlapping occurrence of `sep` ends the current piece. `acc` is the
   * piece collected so far.
   */
  function SplitFrom(s: string, sep: string, acc: string): (r: seq<string>)
    requires |sep| > 0
    ensures |r| > 0
    ensures forall i :: 0 <= i < |r| ==> |r[i]| <= |acc| + |s|
    decreases |s|
  {
    if s == [] then [acc]
    else if StartsWith(s, sep) then [acc] + SplitFrom(s[|sep|..], sep, [])
    else SplitFrom(s[1..], sep, acc + [s[0]])
  }

  function Split(s: string, sep: string): (r: seq<string>)
    requires |sep| > 0
    ensures |r| > 0
    ensures forall i :: 0 <= i < |r| ==> |r[i]| <= |s|
  {
    SplitFrom(s, sep, [])
  }

  /** Characters of `piece` cannot begin a separator, so scanning it only extends `acc`. */
  lemma {:induction false} SplitFromSkips(piece: string, rest: string, sep: string, acc: string)
    requires |sep| > 0
    requires forall i :: 0 <= i < |piece| ==> piece[i] != sep[0]
    ensures SplitFrom(piece + rest, sep, acc) == SplitFrom(rest, sep, acc + piece)
    decreases |piece|
  {
    if piece != [] {
      var s := piece + rest;
      assert s[0] == piece[0] && !StartsWith(s, sep);
      assert s[1..] == piece[1..] + rest;
      assert acc + [s[0]] + piece[1..] == acc + piece;
      SplitFromSkips(piece[1..], rest, sep, acc + [s[0]]);
    } else {
      assert piece + rest == rest && acc + piece == acc;
    }
  }

  /**
   * Splitting a joined list on its separator gives the list back, provided no
   * piece contains the separator's first character.
   */
  lemma {:induction false} SplitJoin(parts: seq<string>, sep: string)
    requires |sep| > 0 && parts != []
    requires forall k, i :: 0 <= k < |parts| && 0 <= i < |parts[k]| ==> parts[k][i] != sep[0]
    ensures Split(Join(sep, parts), sep) == parts
  {
    SplitFromJoin(parts, sep);
  }

  lemma {:induction false} SplitFromJoin(parts: seq<string>, sep: string)
    requires |sep| > 0 && parts != []
    requires forall k, i :: 0 <= k < |parts| && 0 <= i < |parts[k]| ==> parts[k][i] != sep[0]
    ensures SplitFrom(Join(sep, parts), sep, []) == parts
    decreases |parts|
  {
    var p := parts[0];
    if |parts| == 1 {
      SplitFromSkips(p, [], sep, []);
      assert p + [] == p && [] + p == p;
    } else {
      var rest := sep + Join(sep, parts[1..]);
      assert Join(sep, parts) == p + rest;
      SplitFromSkips(p, rest, sep, []);
      assert [] + p == p;
      assert StartsWith(rest, sep);
      assert rest[|sep|..] == Join(sep, parts[1..]);
      SplitFromJoin(parts[1..], sep);
      assert parts == [p] + parts[1..];
    }
  }

  function StripLeft(s: string, chars: set<char>): (r: string)
    ensures |r| <= |s|
    ensures s != [] && s[0] in chars ==> |r| < |s|
    ensures r == s[|s| - |r|..]
  {
    if s != [] && s[0] in chars then StripLeft(s[1..], chars) else s
  }

  function StripRight(s: string, chars: set<char>): (r: string)
    ensures |r| <= |s|
    ensures r == s[..|r|]
  {
    if s != [] && s[|s| - 1] in chars then StripRight(s[..|s| - 1], chars) else s
  }

  /** `s.strip(chars)`: removes every leading and trailing character that is in `chars`. */
  function Strip(s: string, chars: set<char>): (r: string)
    ensures |r| <= |s|
    ensures s != [] && s[0] in chars ==> |r| < |s|
  {
    StripRight(StripLeft(s, chars), chars)
  }

  /** An occurrence at a known position makes `t in s` true. */
  lemma {:induction false} ContainsAt(s: string, t: string, i: nat)
    requires i + |t| <= |s| && s[i..i + |t|] == t
    ensures Contains(s, t)
    decreases i
  {
    if i == 0 {
      assert s[..|t|] == t;
    } else {
      assert s[1..][i - 1..i - 1 + |t|] == s[i..i + |t|];
      ContainsAt(s[1..], t, i - 1);
    }
  }

  /** A piece holding a character that never occurs in `s` does not occur in `s`. */
  lemma {:induction false} NotContains(s: string, t: string, k: nat)
    requires k < |t|
    requires forall i :: 0 <= i < |s| ==> s[i] != t[k]
    ensures !Contains(s, t)
    decreases |s|
  {
    assert |t| <= |s| ==> s[..|t|][k] != t[k];
    if s != [] {
      NotContains(s[1..], t, k);
    }
  }
}
