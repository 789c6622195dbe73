/**
 * The Python `str` operations the client applies to server text: `split`,
 * `strip`, `lower`, `in`, `startswith`, `zfill`, `isalnum`, and the decimal
 * rendering of integers inside f-strings.
 */
module Text {

  /** Python's `str.isspace` for one character. */
  predicate IsSpace(c: char)
  {
    c == ' ' || ('\t' <= c <= '\r') || ('\U{1c}' <= c <= '\U{1f}') || c == '\U{85}' || c == '\U{a0}'
    || c == '\U{1680}' || ('\U{2000}' <= c <= '\U{200a}') || c == '\U{2028}' || c == '\U{2029}'
    || c == '\U{202f}' || c == '\U{205f}' || c == '\U{3000}'
  }

  /** `str.isalnum` for ASCII and the Cyrillic block (letters and digits of other scripts are not modelled). */
  predicate IsAlnum(c: char)
  {
    ('a' <= c <= 'z') || ('A' <= c <= 'Z') || ('0' <= c <= '9')
    || ('Ѐ' <= c <= 'ҁ') || ('Ҋ' <= c <= 'ӿ')
  }

  /** `str.lower` for one ASCII or basic Cyrillic character. */
  function LowerChar(c: char): char
  {
    if 'A' <= c <= 'Z' then (c as int + 32) as char
    else if 'А' <= c <= 'Я' then (c as int + 32) as char
    else if 'Ѐ' <= c <= 'Џ' then (c as int + 80) as char
    else c
  }

  function Lower(s: string): (r: string)
    ensures |r| == |s|
    ensures forall i :: 0 <= i < |s| ==> r[i] == LowerChar(s[i])
  {
    seq(|s|, i requires 0 <= i < |s| => LowerChar(s[i]))
  }

  /** Python's `t in s` for strings. */
  predicate Contains(s: string, t: string)
  {
    StartsWith(s, t) || (s != [] && Contains(s[1..], t))
  }

  predicate StartsWith(s: string, prefix: string)
  {
    |prefix| <= |s| && s[..|prefix|] == prefix
  }

  /** The first index of `c` in `s`. */
  function IndexOf(s: string, c: char): (i: nat)
    requires c in s
    ensures i < |s| && s[i] == c && c !in s[..i]
  {
    if s[0] == c then 0
    else
      var j := IndexOf(s[1..], c);
      assert s[..j + 1] == [s[0]] + s[1..][..j];
      j + 1
  }

  /** Joins parts with `sep` between neighbours: the inverse of `Split`. */
  function Join(parts: seq<string>, sep: char): string
    requires |parts| >= 1
  {
    if |parts| == 1 then parts[0] else parts[0] + [sep] + Join(parts[1..], sep)
  }

  /** How many times `c` occurs in `s`. */
  function Occurrences(s: string, c: char): nat
  {
    if s == [] then 0 else (if s[0] == c then 1 else 0) + Occurrences(s[1..], c)
  }

  /** Python's `s.split(sep)` for a one-character separator. */
  function Split(s: string, sep: char): (parts: seq<string>)
    ensures |parts| >= 1
    decreases |s|
  {
    if sep !in s then [s]
    else
      var i := IndexOf(s, sep);
      [s[..i]] + Split(s[i + 1..], sep)
  }

  /** A text that starts with a separator-free part and a separator splits there first. */
  lemma SplitCons(a: string, rest: string, sep: char)
    requires sep !in a
    ensures Split(a + [sep] + rest, sep) == [a] + Split(rest, sep)
  {
    var s := a + [sep] + rest;
    assert s[|a|] == sep;
    var i := IndexOf(s, sep);
    assert s[..i] == a && s[i + 1..] == rest;
  }

  /** Three separator-free parts joined by two separators split back into those parts. */
  lemma SplitThreeParts(a: string, b: string, c: string, sep: char)
    requires sep !in a && sep !in b && sep !in c
    ensures Split(a + [sep] + b + [sep] + c, sep) == [a, b, c]
  {
    var rest := b + [sep] + c;
    assert a + [sep] + b + [sep] + c == a + [sep] + rest;
    SplitCons(a, rest, sep);
    SplitCons(b, c, sep);
    assert Split(c, sep) == [c];
    assert [a] + ([b] + [c]) == [a, b, c];
  }

  /** The first part of a split is a separator-free prefix of the text. */
  lemma SplitFirst(s: string, sep: char)
    ensures StartsWith(s, Split(s, sep)[0]) && sep !in Split(s, sep)[0]
  {
    if sep in s {
      var i := IndexOf(s, sep);
      assert Split(s, sep)[0] == s[..i];
    }
  }

  lemma SplitAtFirst(s: string, b: string, sep: char, i: nat)
    requires i < |s| && s[i] == sep && sep !in s[..i]
    ensures Split(s + [sep] + b, sep) == [s[..i]] + Split(s[i + 1..] + [sep] + b, sep)
  {
    var a, rest := s[..i], s[i + 1..];
    assert s + [sep] + b == a + [sep] + (rest + [sep] + b);
    SplitCons(a, rest + [sep] + b, sep);
  }

  lemma SplitLastBase(s: string, b: string, sep: char)
    requires sep !in s && sep !in b
    ensures Split(s + [sep] + b, sep) == [s, b]
  {
    SplitCons(s, b, sep);
  }

  /** Whatever precedes the last separator, the last part is what follows it. */
  lemma {:induction false} SplitLast(s: string, b: string, sep: char)
    requires sep !in b
    ensures var parts := Split(s + [sep] + b, sep); parts[|parts| - 1] == b
    decreases |s|
  {
    if sep in s {
      var i := IndexOf(s, sep);
      SplitAtFirst(s, b, sep, i);
      SplitLast(s[i + 1..], b, sep);
    } else {
      SplitLastBase(s, b, sep);
    }
  }

  lemma {:induction false} OccurrencesAppend(a: string, b: string, c: char)
    ensures Occurrences(a + b, c) == Occurrences(a, c) + Occurrences(b, c)
  {
    if a != [] {
      assert (a + b)[1..] == a[1..] + b;
      OccurrencesAppend(a[1..], b, c);
    } else {
      assert a + b == b;
    }
  }

  lemma {:induction false} OccurrencesAbsent(s: string, c: char)
    requires c !in s
    ensures Occurrences(s, c) == 0
  {
    if s != [] {
      assert c !in s[1..];
      OccurrencesAbsent(s[1..], c);
    }
  }

  /** Splitting at the first separator: the part before it, then the split of the rest. */
  lemma SplitAtSeparator(s: string, sep: char)
    requires sep in s
    ensures var i := IndexOf(s, sep);
      Split(s, sep) == [s[..i]] + Split(s[i + 1..], sep)
  {
  }

  /** A text is what precedes its first separator, the separator, and what follows. */
  lemma AroundSeparator(s: string, sep: char)
    requires sep in s
    ensures var i := IndexOf(s, sep);
      s == s[..i] + ([sep] + s[i + 1..]) && sep !in s[..i]
  {
    var i := IndexOf(s, sep);
    assert s[..i] + ([sep] + s[i + 1..]) == s[..i] + s[i..];
    assert s[..i] + s[i..] == s;
  }

  /** Joining the parts of a split gives back the text. */
  lemma {:induction false} SplitJoin(s: string, sep: char)
    ensures Join(Split(s, sep), sep) == s
    decreases |s|
  {
    if sep in s {
      var i := IndexOf(s, sep);
      SplitAtSeparator(s, sep);
      AroundSeparator(s, sep);
      var rest := Split(s[i + 1..], sep);
      assert ([s[..i]] + rest)[1..] == rest;
      SplitJoin(s[i + 1..], sep);
      assert s[..i] + ([sep] + s[i + 1..]) == s[..i] + [sep] + s[i + 1..];
    }
  }

  /**
   * `split` cuts at every separator and nowhere else: the parts hold no
   * separator, and there is one part more than there are separators.
   */
  lemma {:induction false} SplitParts(s: string, sep: char)
    ensures forall k :: 0 <= k < |Split(s, sep)| ==> sep !in Split(s, sep)[k]
    ensures |Split(s, sep)| == Occurrences(s, sep) + 1
    decreases |s|
  {
    if sep !in s {
      OccurrencesAbsent(s, sep);
    } else {
      var i := IndexOf(s, sep);
      SplitAtSeparator(s, sep);
      AroundSeparator(s, sep);
      var rest := Split(s[i + 1..], sep);
      assert ([s[..i]] + rest)[1..] == rest;
      SplitParts(s[i + 1..], sep);
      OccurrencesAbsent(s[..i], sep);
      OccurrencesAppend(s[..i], [sep] + s[i + 1..], sep);
      OccurrencesAppend([sep], s[i + 1..], sep);
    }
  }

  /** Python's `s.lstrip()`: drops leading whitespace. */
  function LStrip(s: string): string
  {
    if s != [] && IsSpace(s[0]) then LStrip(s[1..]) else s
  }

  /** Python's `s.rstrip()`: drops trailing whitespace. */
  function RStrip(s: string): string
  {
    if s != [] && IsSpace(s[|s| - 1]) then RStrip(s[..|s| - 1]) else s
  }

  /** Python's `s.strip()`. */
  function Strip(s: string): string
  {
    RStrip(LStrip(s))
  }

  /** `lstrip` keeps a suffix that starts with a non-space, and drops only spaces. */
  lemma {:induction false} LStripSpec(s: string)
    ensures var r := LStrip(s);
      |r| <= |s| && r == s[|s| - |r|..] && (r != [] ==> !IsSpace(r[0]))
      && forall i :: 0 <= i < |s| - |r| ==> IsSpace(s[i])
    decreases |s|
  {
    if s != [] && IsSpace(s[0]) {
      LStripSpec(s[1..]);
      var r := LStrip(s[1..]);
      assert forall i :: 1 <= i < |s| - |r| ==> s[i] == s[1..][i - 1];
    }
  }

  /** `rstrip` keeps a prefix that ends with a non-space, and drops only spaces. */
  lemma {:induction false} RStripSpec(s: string)
    ensures var r := RStrip(s);
      |r| <= |s| && r == s[..|r|] && (r != [] ==> !IsSpace(r[|r| - 1]))
      && forall i :: |r| <= i < |s| ==> IsSpace(s[i])
    decreases |s|
  {
    if s != [] && IsSpace(s[|s| - 1]) {
      RStripSpec(s[..|s| - 1]);
    }
  }

  /** A stripped text is blank exactly when every character is whitespace. */
  lemma StripEmpty(s: string)
    ensures Strip(s) == [] <==> forall i :: 0 <= i < |s| ==> IsSpace(s[i])
  {
    LStripSpec(s);
    var l := LStrip(s);
    RStripSpec(l);
    if l != [] {
      assert RStrip(l)[0] == l[0];
    }
  }

  function Zeros(n: nat): (r: string)
    ensures |r| == n && forall i :: 0 <= i < n ==> r[i] == '0'
  {
    seq(n, i => '0')
  }

  /**
   * Python's `s.zfill(width)`: pads with '0' on the left up to `width`,
   * keeping a leading sign in front; never shortens.
   */
  function ZFill(s: string, width: nat): (r: string)
    ensures |r| == if |s| >= width then |s| else width
  {
    if |s| >= width then s
    else if s != [] && (s[0] == '+' || s[0] == '-') then [s[0]] + Zeros(width - |s|) + s[1..]
    else Zeros(width - |s|) + s
  }

  /** Unsigned zfill: the padded text ends with the original and starts with zeros only. */
  lemma ZFillUnsigned(s: string, width: nat)
    requires s == [] || (s[0] != '+' && s[0] != '-')
    ensures ZFill(s, width) == Zeros(|ZFill(s, width)| - |s|) + s
  {
  }

  function DigitChar(d: nat): char
    requires d < 10
  {
    ('0' as int + d) as char
  }

  /** The decimal digits of `n`, as Python's `str(n)` writes them. */
  function NatToString(n: nat): (r: string)
    ensures |r| >= 1 && forall i :: 0 <= i < |r| ==> '0' <= r[i] <= '9'
  {
    if n < 10 then [DigitChar(n)] else NatToString(n / 10) + [DigitChar(n % 10)]
  }

  /** `str(i)` for an integer. */
  function IntToString(i: int): string
  {
    if i < 0 then "-" + NatToString(-i) else NatToString(i)
  }
}
