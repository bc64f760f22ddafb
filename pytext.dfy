/** Python string operations used throughout the bot, written out on `seq<char>`:
    `str.split()`, `str.split(c)`, `sep.join(...)`, `str.strip()`, `str.lstrip(chars)`,
    `str.lower()`, `startswith`/`endswith`, `sub in s`, slicing with a non-negative bound,
    and the decimal rendering of a natural number used by f-strings. */
module PyText {

  /** The characters for which Python's `str.isspace()` holds; `str.split()` and
      `str.strip()` without arguments use exactly this set. */
  predicate IsSpace(c: char) {
    c == ' ' || ('\t' <= c <= '\r') || ('\U{1c}' <= c <= '\U{1f}')
    || c == '\U{85}' || c == '\U{a0}' || c == '\U{1680}'
    || ('\U{2000}' <= c <= '\U{200a}') || c == '\U{2028}' || c == '\U{2029}'
    || c == '\U{202f}' || c == '\U{205f}' || c == '\U{3000}'
  }

  predicate IsDigit(c: char) { '0' <= c <= '9' }

  /** `c.isupper()` restricted to ASCII letters. */
  predicate IsUpper(c: char) { 'A' <= c <= 'Z' }

  function LowerChar(c: char): (r: char)
    ensures !IsUpper(r)
    ensures IsUpper(c) ==> r as int == c as int + 32
    ensures !IsUpper(c) ==> r == c
  {
    if IsUpper(c) then (c as int + 32) as char else c
  }

  /** `s.lower()` on the ASCII letters. */
  function Lower(s: string): (r: string)
    ensures |r| == |s|
    ensures forall i :: 0 <= i < |s| ==> r[i] == LowerChar(s[i])
  {
    if s == [] then [] else [LowerChar(s[0])] + Lower(s[1..])
  }

  predicate StartsWith(s: string, p: string) {
    |p| <= |s| && s[..|p|] == p
  }

  predicate EndsWith(s: string, p: string) {
    |p| <= |s| && s[|s| - |p|..] == p
  }

  /** Python's `sub in s`. */
  predicate Contains(s: string, sub: string)
    decreases |s|
  {
    StartsWith(s, sub) || (s != [] && Contains(s[1..], sub))
  }

  /** `sub` occurs in `s` starting at position `i`. */
  predicate OccursAt(s: string, sub: string, i: nat) {
    i + |sub| <= |s| && s[i..i + |sub|] == sub
  }

  lemma {:induction false} ContainsAt(s: string, sub: string, i: nat)
    requires OccursAt(s, sub, i)
    ensures Contains(s, sub)
    decreases i
  {
    if i > 0 {
      assert s[1..][i - 1..i - 1 + |sub|] == s[i..i + |sub|];
      assert OccursAt(s[1..], sub, i - 1);
      ContainsAt(s[1..], sub, i - 1);
    } else {
      assert s[..|sub|] == s[0..0 + |sub|];
    }
  }

  lemma {:induction false} ContainsWitness(s: string, sub: string) returns (i: nat)
    requires Contains(s, sub)
    ensures OccursAt(s, sub, i)
    decreases |s|
  {
    if StartsWith(s, sub) {
      assert s[0..0 + |sub|] == sub;
      i := 0;
    } else {
      var j := ContainsWitness(s[1..], sub);
      assert s[j + 1..j + 1 + |sub|] == s[1..][j..j + |sub|];
      i := j + 1;
    }
  }

  /** `sub in s` holds exactly when `sub` occurs at some position of `s`. */
  lemma ContainsIff(s: string, sub: string)
    ensures Contains(s, sub) <==> exists i: nat :: OccursAt(s, sub, i)
  {
    if Contains(s, sub) {
      var i := ContainsWitness(s, sub);
    }
    if exists i: nat :: OccursAt(s, sub, i) {
      var i: nat :| OccursAt(s, sub, i);
      ContainsAt(s, sub, i);
    }
  }

  /** A character of `s` is contained in `s` as a one-character substring. */
  lemma ContainsChar(s: string, i: nat)
    requires i < |s|
    ensures Contains(s, [s[i]])
  {
    assert s[i..i + 1] == [s[i]];
    assert OccursAt(s, [s[i]], i);
    ContainsAt(s, [s[i]], i);
  }

  /** Python `s[:n]` for `n >= 0`. */
  function Take<T>(s: seq<T>, n: nat): (r: seq<T>)
    ensures |r| == if n < |s| then n else |s|
    ensures r == s[..|r|]
  {
    if n < |s| then s[..n] else s
  }

  /** Python `s[-n:]` for `n > 0`: the last `min(n, |s|)` elements. */
  function Last<T>(s: seq<T>, n: nat): (r: seq<T>)
    requires n > 0
    ensures |r| == if n < |s| then n else |s|
    ensures r == s[|s| - |r|..]
  {
    if n < |s| then s[|s| - n..] else s
  }

  function CountLeadingSpaces(s: string): (n: nat)
    ensures n <= |s|
    ensures forall i :: 0 <= i < n ==> IsSpace(s[i])
    ensures n < |s| ==> !IsSpace(s[n])
  {
    if s == [] || !IsSpace(s[0]) then 0 else 1 + CountLeadingSpaces(s[1..])
  }

  function CountTrailingSpaces(s: string): (n: nat)
    ensures n <= |s|
    ensures forall i :: |s| - n <= i < |s| ==> IsSpace(s[i])
    ensures n < |s| ==> !IsSpace(s[|s| - 1 - n])
  {
    if s == [] || !IsSpace(s[|s| - 1]) then 0 else 1 + CountTrailingSpaces(s[..|s| - 1])
  }

  /** `s.lstrip()` */
  function StripLeft(s: string): string {
    s[CountLeadingSpaces(s)..]
  }

  /** `s.rstrip()` */
  function StripRight(s: string): string {
    s[..|s| - CountTrailingSpaces(s)]
  }

  predicate IsTrimmed(s: string) {
    s == [] || (!IsSpace(s[0]) && !IsSpace(s[|s| - 1]))
  }

  /** `s.strip()`: the result has no whitespace at either end. */
  function Strip(s: string): (r: string)
    ensures IsTrimmed(r)
  {
    var i := CountLeadingSpaces(s);
    var t := s[i..];
    t[..|t| - CountTrailingSpaces(t)]
  }

  /** What `strip` cuts off: the result is a slice of `s`, and all that was cut off on either
      side is whitespace. */
  lemma StripSlice(s: string)
    ensures exists i, j :: 0 <= i <= j <= |s| && Strip(s) == s[i..j]
                         && (forall k :: 0 <= k < i ==> IsSpace(s[k]))
                         && (forall k :: j <= k < |s| ==> IsSpace(s[k]))
  {
    var i := CountLeadingSpaces(s);
    var t := s[i..];
    var n := CountTrailingSpaces(t);
    assert Strip(s) == t[..|t| - n] == s[i..|s| - n];
    assert forall k :: |s| - n <= k < |s| ==> s[k] == t[k - i];
  }

  /** Stripping already-trimmed text changes nothing, so stripping is idempotent. */
  lemma StripTrimmed(s: string)
    requires IsTrimmed(s)
    ensures Strip(s) == s
  {
    assert CountLeadingSpaces(s) == 0;
    assert s[0..] == s;
    if s != [] {
      assert CountTrailingSpaces(s) == 0;
    }
  }

  lemma StripIdempotent(s: string)
    ensures Strip(Strip(s)) == Strip(s)
  {
    StripTrimmed(Strip(s));
  }

  /** `s.lstrip(chars)` */
  function StripLeftChars(s: string, chars: set<char>): (r: string)
    ensures r == [] || r[0] !in chars
    ensures exists i :: 0 <= i <= |s| && r == s[i..] && forall k :: 0 <= k < i ==> s[k] in chars
  {
    if s != [] && s[0] in chars then
      var r := StripLeftChars(s[1..], chars);
      ghost var i :| 0 <= i <= |s[1..]| && r == s[1..][i..] && forall k :: 0 <= k < i ==> s[1..][k] in chars;
      assert r == s[i + 1..];
      assert forall k :: 0 <= k < i + 1 ==> s[k] in chars by {
        forall k | 0 <= k < i + 1 ensures s[k] in chars {
          if k > 0 { assert s[k] == s[1..][k - 1]; }
        }
      }
      r
    else
      assert s == s[0..];
      s
  }

  /** A word of `str.split()`: non-empty, no whitespace. */
  predicate IsWord(w: string) {
    w != [] && forall i :: 0 <= i < |w| ==> !IsSpace(w[i])
  }

  function CountWordChars(s: string): (n: nat)
    ensures n <= |s|
    ensures forall i :: 0 <= i < n ==> !IsSpace(s[i])
    ensures n < |s| ==> IsSpace(s[n])
  {
    if s == [] || IsSpace(s[0]) then 0 else 1 + CountWordChars(s[1..])
  }

  /** `s.split()`: the maximal runs of non-whitespace characters, in order. */
  function Split(s: string): (r: seq<string>)
    ensures forall w :: w in r ==> IsWord(w)
    decreases |s|
  {
    var t := StripLeft(s);
    if t == [] then []
    else
      var n := CountWordChars(t);
      [t[..n]] + Split(t[n..])
  }

  /** `sep.join(parts)` */
  function Join(sep: string, parts: seq<string>): string {
    if |parts| == 0 then ""
    else if |parts| == 1 then parts[0]
    else parts[0] + sep + Join(sep, parts[1..])
  }

  lemma JoinAppend(sep: string, parts: seq<string>, last: string)
    requires parts != []
    ensures Join(sep, parts + [last]) == Join(sep, parts) + sep + last
  {
    if |parts| == 1 {
      assert parts + [last] == [parts[0], last];
    } else {
      assert (parts + [last])[1..] == parts[1..] + [last];
      JoinAppend(sep, parts[1..], last);
    }
  }

  lemma {:induction false} JoinConcat(sep: string, a: seq<string>, b: seq<string>)
    requires a != [] && b != []
    ensures Join(sep, a + b) == Join(sep, a) + sep + Join(sep, b)
    decreases |b|
  {
    if |b| == 1 {
      assert b == [b[0]];
      JoinAppend(sep, a, b[0]);
    } else {
      var b' := b[..|b| - 1];
      assert a + b == (a + b') + [b[|b| - 1]];
      assert b == b' + [b[|b| - 1]];
      JoinAppend(sep, a + b', b[|b| - 1]);
      JoinConcat(sep, a, b');
      JoinAppend(sep, b', b[|b| - 1]);
    }
  }

  lemma SplitSpacePrefix(s: string)
    requires s != [] && IsSpace(s[0])
    ensures Split(s) == Split(s[1..])
  {
    assert StripLeft(s) == StripLeft(s[1..]) by {
      assert CountLeadingSpaces(s) == 1 + CountLeadingSpaces(s[1..]);
      assert s[1..][CountLeadingSpaces(s[1..])..] == s[1 + CountLeadingSpaces(s[1..])..];
    }
  }

  lemma {:induction false} WordChars(w: string, rest: string)
    requires IsWord(w)
    requires rest == [] || IsSpace(rest[0])
    ensures CountWordChars(w + rest) == |w|
    decreases |w|
  {
    assert (w + rest)[0] == w[0];
    assert (w + rest)[1..] == w[1..] + rest;
    if |w| == 1 {
      assert w[1..] + rest == rest;
    } else {
      WordChars(w[1..], rest);
    }
  }

  lemma WordPrefix(w: string, rest: string)
    requires IsWord(w)
    requires rest == [] || IsSpace(rest[0])
    ensures StripLeft(w + rest) == w + rest
    ensures CountWordChars(w + rest) == |w|
  {
    assert (w + rest)[0] == w[0];
    assert CountLeadingSpaces(w + rest) == 0;
    assert (w + rest)[0..] == w + rest;
    WordChars(w, rest);
  }

  lemma SplitWord(w: string, rest: string)
    requires IsWord(w)
    requires rest == [] || IsSpace(rest[0])
    ensures Split(w + rest) == [w] + Split(rest)
  {
    WordPrefix(w, rest);
    assert (w + rest)[..|w|] == w;
    assert (w + rest)[|w|..] == rest;
  }

  lemma SplitEmpty()
    ensures Split("") == []
  {
    assert CountLeadingSpaces("") == 0;
  }

  /** Splitting a space-joined list of words gives the words back. */
  lemma {:induction false} SplitJoin(ws: seq<string>)
    requires forall i :: 0 <= i < |ws| ==> IsWord(ws[i])
    ensures Split(Join(" ", ws)) == ws
    decreases |ws|
  {
    if |ws| == 0 {
      SplitEmpty();
    } else if |ws| == 1 {
      SplitJoinSingle(ws[0]);
      assert ws == [ws[0]];
    } else {
      var w, rest := ws[0], ws[1..];
      assert ws == [w] + rest;
      SplitJoinCons(w, rest);
      SplitJoin(rest);
    }
  }

  lemma SplitJoinSingle(w: string)
    requires IsWord(w)
    ensures Split(Join(" ", [w])) == [w]
  {
    SplitWord(w, "");
    assert w + "" == w;
    SplitEmpty();
  }

  lemma SplitJoinCons(w: string, ws: seq<string>)
    requires IsWord(w) && ws != []
    ensures Split(Join(" ", [w] + ws)) == [w] + Split(Join(" ", ws))
  {
    var tail := Join(" ", ws);
    assert ([w] + ws)[1..] == ws;
    assert Join(" ", [w] + ws) == w + (" " + tail);
    SplitWord(w, " " + tail);
    SplitSpacePrefix(" " + tail);
    assert (" " + tail)[1..] == tail;
  }

  /** `s.split(c)` with a one-character separator: every piece, empty ones included. */
  function SplitOn(s: string, c: char): (r: seq<string>)
    ensures |r| >= 1
    ensures forall p :: p in r ==> c !in p
  {
    if s == [] then [""]
    else if s[0] == c then [""] + SplitOn(s[1..], c)
    else
      var rest := SplitOn(s[1..], c);
      [[s[0]] + rest[0]] + rest[1..]
  }

  /** Joining the pieces with the separator gives the text back. */
  lemma {:induction false} JoinSplitOn(s: string, c: char)
    ensures Join([c], SplitOn(s, c)) == s
  {
    if s == [] {
    } else if s[0] == c {
      JoinSplitOn(s[1..], c);
      assert [""] + SplitOn(s[1..], c) == [""] + SplitOn(s[1..], c);
    } else {
      var rest := SplitOn(s[1..], c);
      JoinSplitOn(s[1..], c);
      if |rest| == 1 {
      } else {
        assert ([[s[0]] + rest[0]] + rest[1..])[1..] == rest[1..];
      }
    }
  }

  /** Splitting text made by joining separator-free lines gives the lines back. */
  lemma {:induction false} SplitOnJoin(lines: seq<string>, c: char)
    requires lines != []
    requires forall p :: p in lines ==> c !in p
    ensures SplitOn(Join([c], lines), c) == lines
    decreases |lines|, |lines[0]|
  {
    var l := lines[0];
    if l == [] {
      if |lines| == 1 {
      } else {
        assert Join([c], lines) == [c] + Join([c], lines[1..]);
        SplitOnJoin(lines[1..], c);
        assert lines == [""] + lines[1..];
      }
    } else {
      var lines' := [l[1..]] + lines[1..];
      forall p | p in lines' ensures c !in p {
        if p == l[1..] {
          assert forall x :: x in p ==> x in l;
        }
      }
      assert l[0] != c by { assert l[0] in l; }
      if |lines| == 1 {
        assert Join([c], lines) == l;
        SplitOnJoin([l[1..]], c);
        assert Join([c], [l[1..]]) == l[1..];
        assert l == [l[0]] + l[1..];
      } else {
        assert Join([c], lines) == l + [c] + Join([c], lines[1..]);
        assert Join([c], lines') == l[1..] + [c] + Join([c], lines[1..]);
        assert Join([c], lines)[1..] == Join([c], lines');
        SplitOnJoin(lines', c);
        assert [l[0]] + l[1..] == l;
        assert lines == [[l[0]] + lines'[0]] + lines'[1..];
      }
    }
  }

  function DigitChar(d: nat): (c: char)
    requires d < 10
    ensures IsDigit(c)
  {
    ('0' as int + d) as char
  }

  /** `str(n)` for a natural number. */
  function NatToString(n: nat): (r: string)
    ensures r != []
    ensures forall i :: 0 <= i < |r| ==> IsDigit(r[i])
  {
    if n < 10 then [DigitChar(n)] else NatToString(n / 10) + [DigitChar(n % 10)]
  }

  /** The number a string of decimal digits denotes. */
  function DigitsValue(s: string): nat
    requires forall i :: 0 <= i < |s| ==> IsDigit(s[i])
  {
    if s == [] then 0
    else
      assert IsDigit(s[|s| - 1]);
      DigitsValue(s[..|s| - 1]) * 10 + (s[|s| - 1] as int - '0' as int)
  }

  /** The decimal rendering reads back as the same number, so it is injective. */
  lemma {:induction false} NatToStringRoundTrip(n: nat)
    ensures DigitsValue(NatToString(n)) == n
  {
    if n >= 10 {
      var s := NatToString(n);
      assert s[..|s| - 1] == NatToString(n / 10);
      NatToStringRoundTrip(n / 10);
    } else {
      assert NatToString(n)[..0] == [];
    }
  }

  lemma NatToStringInjective(m: nat, n: nat)
    requires NatToString(m) == NatToString(n)
    ensures m == n
  {
    NatToStringRoundTrip(m);
    NatToStringRoundTrip(n);
  }
}
