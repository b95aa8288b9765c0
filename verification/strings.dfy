/** The JavaScript string operations the source relies on, written out:
    `trim`, `toLowerCase`, `split` on a literal separator and on `/\s+/`,
    `join`, `includes`, `startsWith` (the built-in prefix test `<=`) and the
    decimal rendering of a number inside a template literal. */
module Strings {
  import opened Sequences

  /** The ECMAScript WhiteSpace and LineTerminator code points: the set that
      both `String.prototype.trim` and the regular-expression class `\s` use. */
  predicate IsSpace(c: char) {
    c == ' ' || c == '\t' || c == '\n' || c == '\r' || c == '\U{000B}' || c == '\U{000C}'
    || c == '\U{00A0}' || c == '\U{1680}' || ('\U{2000}' <= c <= '\U{200A}')
    || c == '\U{2028}' || c == '\U{2029}' || c == '\U{202F}' || c == '\U{205F}'
    || c == '\U{3000}' || c == '\U{FEFF}'
  }

  predicate AllSpace(s: string) {
    forall i :: 0 <= i < |s| ==> IsSpace(s[i])
  }

  predicate NoSpace(s: string) {
    forall i :: 0 <= i < |s| ==> !IsSpace(s[i])
  }

  /** The number of white-space characters `s` starts with. */
  function LeadCount(s: string): (n: nat)
    ensures n <= |s|
  {
    if s != [] && IsSpace(s[0]) then 1 + LeadCount(s[1..]) else 0
  }

  /** The number of white-space characters `s` ends with. */
  function TrailCount(s: string): (n: nat)
    ensures n <= |s|
  {
    if s != [] && IsSpace(s[|s| - 1]) then 1 + TrailCount(s[..|s| - 1]) else 0
  }

  /** `LeadCount(s)` counts exactly the white space `s` starts with. */
  lemma {:induction false} LeadCountSpaces(s: string)
    ensures AllSpace(s[..LeadCount(s)])
    ensures LeadCount(s) < |s| ==> !IsSpace(s[LeadCount(s)])
  {
    if s != [] && IsSpace(s[0]) {
      LeadCountSpaces(s[1..]);
      assert s[..LeadCount(s)] == [s[0]] + s[1..][..LeadCount(s[1..])];
    }
  }

  /** `TrailCount(s)` counts exactly the white space `s` ends with. */
  lemma {:induction false} TrailCountSpaces(s: string)
    ensures AllSpace(s[|s| - TrailCount(s)..])
    ensures TrailCount(s) < |s| ==> !IsSpace(s[|s| - 1 - TrailCount(s)])
  {
    if s != [] && IsSpace(s[|s| - 1]) {
      var t := s[..|s| - 1];
      TrailCountSpaces(t);
      assert s[|s| - TrailCount(s)..] == t[|t| - TrailCount(t)..] + [s[|s| - 1]];
    }
  }

  /** `s.trimStart()`: `s` without its leading white space. */
  function TrimStart(s: string): (r: string)
    ensures |r| <= |s|
  {
    s[LeadCount(s)..]
  }

  /** What `trimStart` removes is white space, and what it keeps starts
      with none. */
  lemma TrimStartSpec(s: string)
    ensures s == s[..LeadCount(s)] + TrimStart(s) && AllSpace(s[..LeadCount(s)])
    ensures TrimStart(s) == [] || !IsSpace(TrimStart(s)[0])
  {
    LeadCountSpaces(s);
  }

  /** `s.trim()`: the part of `s` between its leading and its trailing white
      space. */
  function Trim(s: string): (r: string)
    ensures |r| <= |s|
  {
    s[LeadCount(s)..|s| - TrailCount(s[LeadCount(s)..])]
  }

  /** `trim` removes white space only, from both ends, and keeps the middle:
      `s` is some white space, then `Trim(s)`, then some white space, and
      `Trim(s)` neither starts nor ends with white space. */
  lemma TrimSpec(s: string)
    ensures var a := LeadCount(s);
      a + |Trim(s)| <= |s| && Trim(s) == s[a..a + |Trim(s)|]
      && AllSpace(s[..a]) && AllSpace(s[a + |Trim(s)|..])
    ensures Trim(s) == [] || (!IsSpace(Trim(s)[0]) && !IsSpace(Trim(s)[|Trim(s)| - 1]))
  {
    var a := LeadCount(s);
    var t := s[a..];
    var b := TrailCount(t);
    var r := Trim(s);
    assert r == t[..|t| - b];
    LeadCountSpaces(s);
    TrailCountSpaces(t);
    assert s[a + |r|..] == t[|t| - b..];
    if r != [] {
      assert r[0] == s[a];
      assert r[|r| - 1] == t[|t| - 1 - b];
    }
  }

  /** The trim is empty exactly when the string is all white space. */
  lemma TrimBlank(s: string)
    ensures Trim(s) == [] <==> AllSpace(s)
  {
    TrimSpec(s);
    var a := LeadCount(s);
    if Trim(s) == [] {
      assert s == s[..a] + s[a..];
    } else {
      assert !IsSpace(s[a]);
    }
  }

  /** A string with no white space at either end is its own trim. */
  lemma TrimUnpadded(s: string)
    requires s == [] || (!IsSpace(s[0]) && !IsSpace(s[|s| - 1]))
    ensures Trim(s) == s
  {
    if s != [] {
      assert s[1..] == [] || s[1..][0] == s[1];
      assert LeadCount(s) == 0;
      assert TrailCount(s) == 0;
    }
  }

  /** Trailing white space after a string that does not end in white space
      is counted exactly. */
  lemma {:induction false} TrailCountPadding(x: string, w: string)
    requires x == [] || !IsSpace(x[|x| - 1])
    requires AllSpace(w)
    ensures TrailCount(x + w) == |w|
    decreases |w|
  {
    if w == [] {
      assert x + w == x;
    } else {
      var v := w[..|w| - 1];
      assert (x + w)[..|x + w| - 1] == x + v;
      TrailCountPadding(x, v);
    }
  }

  /** Trimming an unpadded string followed by white space gives the string
      back. */
  lemma TrimPadded(x: string, w: string)
    requires x == [] || (!IsSpace(x[0]) && !IsSpace(x[|x| - 1]))
    requires AllSpace(w)
    ensures Trim(x + w) == x
  {
    if x == [] {
      assert x + w == w;
      TrimBlank(w);
    } else {
      TrailCountPadding(x, w);
      assert (x + w)[0] == x[0];
      assert LeadCount(x + w) == 0;
      assert (x + w)[0..] == x + w;
      assert (x + w)[..|x|] == x;
    }
  }

  /** Trimming twice is trimming once. */
  lemma TrimIdempotent(s: string)
    ensures Trim(Trim(s)) == Trim(s)
  {
    TrimSpec(s);
    TrimUnpadded(Trim(s));
  }

  function LowerChar(c: char): char {
    if 'A' <= c <= 'Z' then (c as int + 32) as char else c
  }

  predicate IsLowerCase(s: string) {
    forall i :: 0 <= i < |s| ==> !('A' <= s[i] <= 'Z')
  }

  /** `s.toLowerCase()` on the ASCII letters: same length, letter by letter,
      and no upper-case ASCII letter left. */
  function ToLower(s: string): (r: string)
    ensures |r| == |s| && IsLowerCase(r)
    ensures forall i :: 0 <= i < |s| ==> r[i] == LowerChar(s[i])
  {
    seq(|s|, i requires 0 <= i < |s| => LowerChar(s[i]))
  }

  /** Lower-casing changes no white space into non-white space or back. */
  lemma ToLowerKeepsSpace(c: char)
    ensures IsSpace(LowerChar(c)) == IsSpace(c)
  {
  }

  /** The number of UTF-16 code units of a character: two for one outside
      the Basic Multilingual Plane (a surrogate pair), one otherwise. */
  function Utf16Units(c: char): (n: nat)
    ensures n == 1 || n == 2
    ensures n == 2 <==> c as int >= 0x1_0000
  {
    if c as int >= 0x1_0000 then 2 else 1
  }

  /** `s.length` in JavaScript: the number of UTF-16 code units of `s`. */
  function Utf16Length(s: string): (n: nat)
    ensures |s| <= n <= 2 * |s|
  {
    if s == [] then 0 else Utf16Units(s[0]) + Utf16Length(s[1..])
  }

  /** Within the Basic Multilingual Plane a string's JavaScript length is
      its number of characters. */
  lemma {:induction false} Utf16LengthBmp(s: string)
    requires forall i :: 0 <= i < |s| ==> s[i] as int < 0x1_0000
    ensures Utf16Length(s) == |s|
  {
    if s != [] {
      Utf16LengthBmp(s[1..]);
    }
  }

  /** `parts.join(sep)`. */
  function Join(parts: seq<string>, sep: string): (r: string)
    ensures |parts| >= 1 ==> |r| >= |parts[0]|
  {
    if |parts| == 0 then []
    else if |parts| == 1 then parts[0]
    else parts[0] + sep + Join(parts[1..], sep)
  }

  /** `s.includes(sub)`: `sub` occurs somewhere in `s` (the empty string
      occurs everywhere). */
  predicate Contains(s: string, sub: string)
    decreases |s|
  {
    sub <= s || (s != [] && Contains(s[1..], sub))
  }

  /** Every string contains whatever is concatenated into it. */
  lemma {:induction false} ContainsPart(a: string, b: string, c: string)
    ensures Contains(a + b + c, b)
    decreases |a|
  {
    if a == [] {
      assert b <= a + b + c;
    } else {
      assert (a + b + c)[1..] == a[1..] + b + c;
      ContainsPart(a[1..], b, c);
    }
  }

  /** A string built by placing three values between four fixed pieces
      contains each of the three values. */
  lemma ContainsEach(a: string, x: string, b: string, y: string, c: string, z: string, d: string)
    ensures Contains(a + x + b + y + c + z + d, x)
    ensures Contains(a + x + b + y + c + z + d, y)
    ensures Contains(a + x + b + y + c + z + d, z)
  {
    var s := a + x + b + y + c + z + d;
    ContainsPart(a, x, b + y + c + z + d);
    assert a + x + (b + y + c + z + d) == s;
    ContainsPart(a + x + b, y, c + z + d);
    assert a + x + b + y + (c + z + d) == s;
    ContainsPart(a + x + b + y + c, z, d);
  }

  /** `s.split(sep)` for a non-empty literal separator: the pieces between
      the non-overlapping occurrences of `sep`, scanned from the left. */
  function SplitOn(s: string, sep: string): (parts: seq<string>)
    requires sep != []
    ensures |parts| >= 1 && |parts[0]| <= |s|
    decreases |s|
  {
    if |s| < |sep| then [s]
    else if sep <= s then [[]] + SplitOn(s[|sep|..], sep)
    else
      var rest := SplitOn(s[1..], sep);
      [[s[0]] + rest[0]] + rest[1..]
  }

  /** Splitting and joining back with the same separator gives the string
      that was split. */
  lemma {:induction false} SplitOnJoin(s: string, sep: string)
    requires sep != []
    ensures Join(SplitOn(s, sep), sep) == s
    decreases |s|
  {
    if |s| < |sep| {
    } else if sep <= s {
      SplitOnJoin(s[|sep|..], sep);
      SplitOnJoinAtSep(s, sep);
    } else {
      SplitOnJoin(s[1..], sep);
      SplitOnJoinGlue(s, sep);
    }
  }

  lemma SplitOnJoinAtSep(s: string, sep: string)
    requires sep != [] && |s| >= |sep| && sep <= s
    requires Join(SplitOn(s[|sep|..], sep), sep) == s[|sep|..]
    ensures Join(SplitOn(s, sep), sep) == s
  {
    var parts := SplitOn(s, sep);
    var rest := SplitOn(s[|sep|..], sep);
    assert parts == [[]] + rest;
    ConsParts([], rest);
    assert Join(parts, sep) == parts[0] + sep + Join(parts[1..], sep);
    PrefixThenRest(sep, s);
    EmptyThen(sep);
  }

  lemma SplitOnJoinGlue(s: string, sep: string)
    requires sep != [] && |s| >= |sep| && !(sep <= s)
    requires Join(SplitOn(s[1..], sep), sep) == s[1..]
    ensures Join(SplitOn(s, sep), sep) == s
  {
    var parts := SplitOn(s, sep);
    var rest := SplitOn(s[1..], sep);
    assert parts == [[s[0]] + rest[0]] + rest[1..];
    FirstThenRest(s);
    if |rest| == 1 {
      assert Join(parts, sep) == [s[0]] + rest[0];
    } else {
      assert parts[1..] == rest[1..];
      assert Join(parts, sep) == [s[0]] + rest[0] + sep + Join(rest[1..], sep);
      assert Join(rest, sep) == rest[0] + sep + Join(rest[1..], sep);
      ConcatAssoc([s[0]], rest[0], sep, Join(rest[1..], sep));
    }
  }

  /** Text none of whose characters can start the separator glues onto the
      first piece of what follows it. */
  lemma {:induction false} SplitOnPlainPrefix(w: string, t: string, sep: string)
    requires sep != []
    requires forall i :: 0 <= i < |w| ==> w[i] != sep[0]
    ensures SplitOn(w + t, sep) == [w + SplitOn(t, sep)[0]] + SplitOn(t, sep)[1..]
    decreases |w|
  {
    var ts := SplitOn(t, sep);
    if w == [] {
      assert w + t == t;
      assert w + ts[0] == ts[0];
      assert [ts[0]] + ts[1..] == ts;
    } else {
      assert (w + t)[1..] == w[1..] + t;
      SplitOnPlainPrefix(w[1..], t, sep);
      if |w + t| < |sep| {
        assert |t| < |sep|;
      } else {
        assert !(sep <= w + t) by {
          assert (w + t)[0] == w[0];
        }
      }
      assert [w[0]] + (w[1..] + ts[0]) == w + ts[0];
    }
  }

  /** A string in which the separator's first character does not occur is
      split into itself alone. */
  lemma SplitOnNoSep(w: string, sep: string)
    requires sep != []
    requires forall i :: 0 <= i < |w| ==> w[i] != sep[0]
    ensures SplitOn(w, sep) == [w]
  {
    SplitOnPlainPrefix(w, [], sep);
    assert w + [] == w;
    assert SplitOn([], sep) == [[]];
  }

  /** A string that starts with the separator splits into an empty piece,
      then the pieces of the rest. */
  lemma SplitOnLeadingSep(t: string, sep: string)
    requires sep != []
    ensures SplitOn(sep + t, sep) == [[]] + SplitOn(t, sep)
  {
    var s := sep + t;
    assert sep <= s;
    assert s[|sep|..] == t;
  }

  /** Every piece of an all-white-space string is all white space. */
  lemma {:induction false} SplitOnBlank(s: string, sep: string)
    requires sep != [] && AllSpace(s)
    ensures forall p :: p in SplitOn(s, sep) ==> AllSpace(p)
    decreases |s|
  {
    if |s| >= |sep| {
      if sep <= s {
        var rest := SplitOn(s[|sep|..], sep);
        assert AllSpace(s[|sep|..]);
        SplitOnBlank(s[|sep|..], sep);
        assert SplitOn(s, sep) == [[]] + rest;
      } else {
        var rest := SplitOn(s[1..], sep);
        assert AllSpace(s[1..]);
        SplitOnBlank(s[1..], sep);
        var first := [s[0]] + rest[0];
        assert rest[0] in rest;
        assert AllSpace(first);
        assert SplitOn(s, sep) == [first] + rest[1..];
        forall p | p in SplitOn(s, sep) ensures AllSpace(p) {
          if p != first {
            assert p in rest;
          }
        }
      }
    }
  }

  /** The first piece of a split is a prefix of the string split. */
  lemma {:induction false} SplitOnFirst(s: string, sep: string)
    requires sep != []
    ensures SplitOn(s, sep)[0] <= s
    decreases |s|
  {
    if |s| >= |sep| && !(sep <= s) {
      SplitOnFirst(s[1..], sep);
    }
  }

  /** No piece of a split contains the separator. */
  lemma {:induction false} SplitOnPiecesFree(s: string, sep: string)
    requires sep != []
    ensures forall p :: p in SplitOn(s, sep) ==> !Contains(p, sep)
    decreases |s|
  {
    if |s| < |sep| {
      NotContainsShort(s, sep);
    } else if sep <= s {
      SplitOnPiecesFree(s[|sep|..], sep);
      NotContainsShort([], sep);
    } else {
      var rest := SplitOn(s[1..], sep);
      SplitOnPiecesFree(s[1..], sep);
      var first := [s[0]] + rest[0];
      assert first[1..] == rest[0];
      SplitOnFirst(s[1..], sep);
      assert first <= s;
      assert !(sep <= first);
      assert !Contains(first, sep);
      forall p | p in SplitOn(s, sep) ensures !Contains(p, sep) {
        if p != first {
          assert p in rest[1..];
        }
      }
    }
  }

  lemma {:induction false} NotContainsShort(s: string, sub: string)
    requires |s| < |sub|
    ensures !Contains(s, sub)
    decreases |s|
  {
    if s != [] {
      NotContainsShort(s[1..], sub);
    }
  }

  /** `s.split(/\s+/)`: the pieces between maximal runs of white space; a
      leading or trailing run yields an empty first or last piece, and no
      piece holds white space. */
  function SplitWs(s: string): (parts: seq<string>)
    ensures |parts| >= 1
    ensures forall i :: 0 <= i < |parts| ==> NoSpace(parts[i])
    decreases |s|
  {
    if s == [] then [[]]
    else if IsSpace(s[0]) then [[]] + SplitWs(TrimStart(s[1..]))
    else
      var rest := SplitWs(s[1..]);
      [[s[0]] + rest[0]] + rest[1..]
  }

  /** A word with no white space in front of a string glues onto that
      string's first piece. */
  lemma {:induction false} SplitWsWordPrefix(w: string, t: string)
    requires NoSpace(w)
    ensures SplitWs(w + t) == [w + SplitWs(t)[0]] + SplitWs(t)[1..]
    decreases |w|
  {
    var ts := SplitWs(t);
    if w == [] {
      assert w + t == t;
      assert w + ts[0] == ts[0];
      assert [ts[0]] + ts[1..] == ts;
    } else {
      assert (w + t)[0] == w[0] && !IsSpace(w[0]);
      assert (w + t)[1..] == w[1..] + t;
      SplitWsWordPrefix(w[1..], t);
      assert [w[0]] + (w[1..] + ts[0]) == w + ts[0];
    }
  }

  /** Joining non-empty words free of white space with single spaces and
      splitting on `/\s+/` gives back the words. */
  lemma {:induction false} SplitWsJoin(ws: seq<string>)
    requires |ws| >= 1
    requires forall i :: 0 <= i < |ws| ==> ws[i] != [] && NoSpace(ws[i])
    ensures SplitWs(Join(ws, " ")) == ws
    decreases |ws|
  {
    if |ws| == 1 {
      SplitWsWordPrefix(ws[0], []);
      assert ws[0] + [] == ws[0];
      assert SplitWs([]) == [[]];
    } else {
      var tail := Join(ws[1..], " ");
      SplitWsJoin(ws[1..]);
      assert ws[1..][0] <= tail;
      assert tail[0] == ws[1][0];
      assert (" " + tail)[1..] == tail;
      assert TrimStart(tail) == tail;
      assert SplitWs(" " + tail) == [[]] + ws[1..];
      assert Join(ws, " ") == ws[0] + (" " + tail);
      SplitWsWordPrefix(ws[0], " " + tail);
      assert ws[0] + [] == ws[0];
      assert [ws[0]] + ws[1..] == ws;
    }
  }

  function DigitChar(d: nat): (c: char)
    requires d < 10
  {
    ('0' as int + d) as char
  }

  predicate IsDigits(s: string) {
    forall i :: 0 <= i < |s| ==> '0' <= s[i] <= '9'
  }

  /** A number rendered in a template literal (`${n}`): decimal digits, with
      a leading zero only for zero itself. */
  function NatToString(n: nat): (r: string)
    ensures |r| >= 1 && IsDigits(r)
    ensures (r[0] == '0') == (n == 0)
  {
    if n < 10 then [DigitChar(n)] else NatToString(n / 10) + [DigitChar(n % 10)]
  }

  /** The value of a string of decimal digits. */
  function ParseNat(s: string): nat
    requires IsDigits(s)
  {
    if s == [] then 0 else ParseNat(s[..|s| - 1]) * 10 + (s[|s| - 1] as int - '0' as int)
  }

  /** Reading back the digits of a number gives the number: distinct
      numbers are rendered differently. */
  lemma {:induction false} ParseNatToString(n: nat)
    ensures ParseNat(NatToString(n)) == n
  {
    if n >= 10 {
      ParseNatToString(n / 10);
      var s := NatToString(n);
      assert s[..|s| - 1] == NatToString(n / 10);
    }
  }
}
