/**
 * The string operations the services and the form use: JavaScript's white-space class
 * (`\s`, `trim`), `toLowerCase`, `replace(/\s+/g, '-')`, `includes`, `split('.')` and the
 * decimal rendering of integers inside template literals.
 */
module Text {

  /** A character of JavaScript's white-space class: what `\s` matches and what `trim` removes. */
  predicate IsSpace(c: char) {
    c == ' ' || c == '\t' || c == '\n' || c == '\r' || c == '\U{000B}' || c == '\U{000C}'
    || c == '\U{00A0}' || c == '\U{1680}' || ('\U{2000}' <= c <= '\U{200A}')
    || c == '\U{2028}' || c == '\U{2029}' || c == '\U{202F}' || c == '\U{205F}'
    || c == '\U{3000}' || c == '\U{FEFF}'
  }

  predicate NoSpace(s: string) {
    forall i :: 0 <= i < |s| ==> !IsSpace(s[i])
  }

  /** `toLowerCase` on one character: A-Z and the Latin-1 capitals (except the multiplication sign) move down by 32. */
  function LowerChar(c: char): char {
    if 'A' <= c <= 'Z' || ('\U{00C0}' <= c <= '\U{00DE}' && c != '\U{00D7}') then
      (c as int + 32) as char
    else
      c
  }

  /** `s.toLowerCase()`, character by character. */
  function Lower(s: string): (r: string)
    ensures |r| == |s|
    ensures forall i :: 0 <= i < |s| ==> r[i] == LowerChar(s[i])
  {
    if s == [] then [] else [LowerChar(s[0])] + Lower(s[1..])
  }

  predicate IsLower(s: string) {
    forall i :: 0 <= i < |s| ==> LowerChar(s[i]) == s[i]
  }

  lemma LowerCharKeepsSpace(c: char)
    ensures IsSpace(LowerChar(c)) == IsSpace(c)
    ensures LowerChar(LowerChar(c)) == LowerChar(c)
  {
  }

  lemma {:induction false} LowerConcat(a: string, b: string)
    ensures Lower(a + b) == Lower(a) + Lower(b)
    decreases |a|
  {
    if a == [] {
      assert a + b == b;
    } else {
      assert (a + b)[0] == a[0] && (a + b)[1..] == a[1..] + b;
      LowerConcat(a[1..], b);
      Regroup([LowerChar(a[0])], Lower(a[1..]), Lower(b));
    }
  }

  /** Drops the white space at the start of `s` (`trimStart`). */
  function DropSpaces(s: string): (r: string)
    ensures |r| <= |s| && r == s[|s| - |r|..]
    ensures r == [] || !IsSpace(r[0])
    ensures forall i :: 0 <= i < |s| - |r| ==> IsSpace(s[i])
  {
    if s != [] && IsSpace(s[0]) then DropSpaces(s[1..]) else s
  }

  /** Drops the white space at the end of `s` (`trimEnd`). */
  function DropTrailingSpaces(s: string): (r: string)
    ensures |r| <= |s| && r == s[..|r|]
    ensures r == [] || !IsSpace(r[|r| - 1])
    ensures forall i :: |r| <= i < |s| ==> IsSpace(s[i])
  {
    if s != [] && IsSpace(s[|s| - 1]) then DropTrailingSpaces(s[..|s| - 1]) else s
  }

  /**
   * `s.trim()`: empty exactly when `s` is all white space, and otherwise beginning and ending
   * with a character that is not.
   */
  function Trim(s: string): (r: string)
    ensures |r| <= |s|
    ensures r == [] <==> forall i :: 0 <= i < |s| ==> IsSpace(s[i])
    ensures r != [] ==> !IsSpace(r[0]) && !IsSpace(r[|r| - 1])
  {
    DropTrailingSpaces(DropSpaces(s))
  }

  /**
   * `s.replace(/\s+/g, '-')`: every maximal run of white space becomes one hyphen; all other
   * characters are kept in order.
   */
  function Hyphenate(s: string): (r: string)
    ensures |r| <= |s|
    ensures r == [] <==> s == []
    decreases |s|
  {
    if s == [] then []
    else if IsSpace(s[0]) then "-" + Hyphenate(DropSpaces(s[1..]))
    else [s[0]] + Hyphenate(s[1..])
  }

  /** No white space survives hyphenation. */
  lemma {:induction false} HyphenateRemovesSpace(s: string)
    ensures NoSpace(Hyphenate(s))
    decreases |s|
  {
    if s != [] {
      if IsSpace(s[0]) {
        HyphenateRemovesSpace(DropSpaces(s[1..]));
      } else {
        HyphenateRemovesSpace(s[1..]);
      }
    }
  }

  /** A string with no white space is left as it is. */
  lemma {:induction false} HyphenateNoSpace(s: string)
    requires NoSpace(s)
    ensures Hyphenate(s) == s
    decreases |s|
  {
    if s != [] {
      assert !IsSpace(s[0]);
      HyphenateNoSpace(s[1..]);
    }
  }

  lemma {:induction false} DropSpacesAppend(a: string, b: string)
    requires a != [] && !IsSpace(a[|a| - 1])
    ensures DropSpaces(a + b) == DropSpaces(a) + b
    decreases |a|
  {
    if IsSpace(a[0]) {
      assert (a + b)[1..] == a[1..] + b;
      DropSpacesAppend(a[1..], b);
    }
  }

  lemma {:induction false} DropSpacesOfRun(w: string, b: string)
    requires forall i :: 0 <= i < |w| ==> IsSpace(w[i])
    requires b == [] || !IsSpace(b[0])
    ensures DropSpaces(w + b) == b
    decreases |w|
  {
    if w == [] {
      assert w + b == b;
    } else {
      assert (w + b)[1..] == w[1..] + b;
      DropSpacesOfRun(w[1..], b);
    }
  }

  /** Hyphenation works piece by piece when the first piece does not end in white space. */
  lemma {:induction false} HyphenateAppend(a: string, b: string)
    requires a == [] || !IsSpace(a[|a| - 1])
    ensures Hyphenate(a + b) == Hyphenate(a) + Hyphenate(b)
    decreases |a|, 1
  {
    if a == [] {
      assert a + b == b;
    } else if IsSpace(a[0]) {
      HyphenateAppendAfterSpace(a, b);
    } else {
      HyphenateAppendAfterChar(a, b);
    }
  }

  lemma {:induction false} HyphenateAppendAfterSpace(a: string, b: string)
    requires a != [] && IsSpace(a[0]) && !IsSpace(a[|a| - 1])
    ensures Hyphenate(a + b) == Hyphenate(a) + Hyphenate(b)
    decreases |a|, 0
  {
    var rest := DropSpaces(a[1..]);
    SpaceHeadRest(a);
    HyphenateAppend(rest, b);
    HyphenateSpaceHead(a, b);
    Regroup("-", Hyphenate(rest), Hyphenate(b));
  }

  lemma Regroup(x: string, y: string, z: string)
    ensures x + (y + z) == (x + y) + z
  {
  }

  /** What follows a leading run of white space ends where `a` does, so not in white space. */
  lemma SpaceHeadRest(a: string)
    requires a != [] && IsSpace(a[0]) && !IsSpace(a[|a| - 1])
    ensures var rest := DropSpaces(a[1..]); |rest| < |a| && (rest == [] || !IsSpace(rest[|rest| - 1]))
  {
    var t := a[1..];
    assert |a| >= 2 && t[|t| - 1] == a[|a| - 1];
    var rest := DropSpaces(t);
    assert rest != [] ==> rest[|rest| - 1] == t[|t| - 1];
  }

  /** A leading space of `a` turns into a hyphen also when `b` follows. */
  lemma HyphenateSpaceHead(a: string, b: string)
    requires a != [] && IsSpace(a[0]) && !IsSpace(a[|a| - 1])
    ensures Hyphenate(a + b) == "-" + Hyphenate(DropSpaces(a[1..]) + b)
  {
    var t := a[1..];
    var ab := a + b;
    assert ab[0] == a[0] && ab[1..] == t + b;
    assert |a| >= 2 && t[|t| - 1] == a[|a| - 1];
    DropSpacesAppend(t, b);
  }

  lemma {:induction false} HyphenateAppendAfterChar(a: string, b: string)
    requires a != [] && !IsSpace(a[0]) && !IsSpace(a[|a| - 1])
    ensures Hyphenate(a + b) == Hyphenate(a) + Hyphenate(b)
    decreases |a|, 0
  {
    var t := a[1..];
    HyphenateAppend(t, b);
    CharHead(a, b);
    Regroup([a[0]], Hyphenate(t), Hyphenate(b));
  }

  /** A leading character of `a` is kept also when `b` follows. */
  lemma CharHead(a: string, b: string)
    requires a != [] && !IsSpace(a[0])
    ensures Hyphenate(a + b) == [a[0]] + Hyphenate(a[1..] + b)
  {
    var ab := a + b;
    assert ab[0] == a[0] && ab[1..] == a[1..] + b;
  }

  /**
   * One maximal run of white space `w` between `a` and `b` turns into exactly one hyphen,
   * and the text on either side is hyphenated on its own.
   */
  lemma {:induction false} HyphenateRun(a: string, w: string, b: string)
    requires a == [] || !IsSpace(a[|a| - 1])
    requires w != [] && forall i :: 0 <= i < |w| ==> IsSpace(w[i])
    requires b == [] || !IsSpace(b[0])
    ensures Hyphenate(a + w + b) == Hyphenate(a) + "-" + Hyphenate(b)
  {
    Regroup(a, w, b);
    HyphenateLeadingRun(w, b);
    HyphenateAppend(a, w + b);
    Regroup(Hyphenate(a), "-", Hyphenate(b));
  }

  lemma {:induction false} HyphenateLeadingRun(w: string, b: string)
    requires w != [] && forall i :: 0 <= i < |w| ==> IsSpace(w[i])
    requires b == [] || !IsSpace(b[0])
    ensures Hyphenate(w + b) == "-" + Hyphenate(b)
  {
    var wb := w + b;
    assert IsSpace(wb[0]);
    assert wb[1..] == w[1..] + b;
    DropSpacesOfRun(w[1..], b);
  }

  /** A word followed by one space keeps the word and turns the space into a hyphen. */
  lemma {:induction false} HyphenateWordSpace(a: string, b: string)
    requires a != [] && NoSpace(a)
    requires b == [] || !IsSpace(b[0])
    ensures Hyphenate(a + " " + b) == a + "-" + Hyphenate(b)
  {
    HyphenateNoSpace(a);
    HyphenateRun(a, " ", b);
  }

  lemma {:induction false} LowerDropSpaces(s: string)
    ensures Lower(DropSpaces(s)) == DropSpaces(Lower(s))
    decreases |s|
  {
    if s != [] {
      LowerCharKeepsSpace(s[0]);
      if IsSpace(s[0]) {
        assert Lower(s)[1..] == Lower(s[1..]);
        LowerDropSpaces(s[1..]);
      }
    }
  }

  /**
   * Lower-casing and hyphenating commute: the placeholder seed (lower-case, then hyphenate)
   * and the download slug (hyphenate, then lower-case) are the same string.
   */
  lemma {:induction false} LowerHyphenateCommute(s: string)
    ensures Lower(Hyphenate(s)) == Hyphenate(Lower(s))
    decreases |s|, 1
  {
    if s != [] {
      if IsSpace(s[0]) {
        LowerHyphenateSpaceHead(s);
      } else {
        LowerHyphenateCharHead(s);
      }
    }
  }

  lemma {:induction false} LowerHyphenateSpaceHead(s: string)
    requires s != [] && IsSpace(s[0])
    ensures Lower(Hyphenate(s)) == Hyphenate(Lower(s))
    decreases |s|, 0
  {
    var ls := Lower(s);
    LowerCharKeepsSpace(s[0]);
    assert ls[0] == LowerChar(s[0]) && ls[1..] == Lower(s[1..]);
    var rest := DropSpaces(s[1..]);
    assert Hyphenate(s) == "-" + Hyphenate(rest);
    assert Hyphenate(ls) == "-" + Hyphenate(DropSpaces(Lower(s[1..])));
    LowerDropSpaces(s[1..]);
    LowerHyphenateCommute(rest);
    LowerConcat("-", Hyphenate(rest));
  }

  lemma {:induction false} LowerHyphenateCharHead(s: string)
    requires s != [] && !IsSpace(s[0])
    ensures Lower(Hyphenate(s)) == Hyphenate(Lower(s))
    decreases |s|, 0
  {
    var ls := Lower(s);
    LowerCharKeepsSpace(s[0]);
    assert ls[0] == LowerChar(s[0]) && ls[1..] == Lower(s[1..]);
    assert Hyphenate(s) == [s[0]] + Hyphenate(s[1..]);
    assert Hyphenate(ls) == [LowerChar(s[0])] + Hyphenate(Lower(s[1..]));
    LowerHyphenateCommute(s[1..]);
    LowerConcat([s[0]], Hyphenate(s[1..]));
  }

  /** `s.startsWith(t)`. */
  predicate StartsWith(s: string, t: string) {
    |t| <= |s| && s[..|t|] == t
  }

  /** `s.includes(t)`: `t` occurs in `s` at some position. */
  predicate Contains(s: string, t: string)
    ensures Contains(s, t) ==> |t| <= |s|
    decreases |s|
  {
    StartsWith(s, t) || (s != [] && Contains(s[1..], t))
  }

  /** `t` occurs in `s` starting at position `k`. */
  predicate OccursAt(s: string, t: string, k: nat) {
    k + |t| <= |s| && s[k..k + |t|] == t
  }

  lemma {:induction false} ContainsAt(s: string, t: string, k: nat)
    requires k + |t| <= |s| && s[k..k + |t|] == t
    ensures Contains(s, t)
    decreases k
  {
    if k > 0 {
      assert s[1..][k - 1..k - 1 + |t|] == s[k..k + |t|];
      ContainsAt(s[1..], t, k - 1);
    }
  }

  /** Conversely, when `t` occurs in `s` it does so at some position. */
  lemma {:induction false} ContainsOccurs(s: string, t: string)
    requires Contains(s, t)
    ensures exists k :: OccursAt(s, t, k)
    decreases |s|
  {
    if StartsWith(s, t) {
      assert OccursAt(s, t, 0);
    } else {
      ContainsOccurs(s[1..], t);
      var j: nat :| OccursAt(s[1..], t, j);
      assert s[1..][j..j + |t|] == s[j + 1..j + 1 + |t|];
      assert OccursAt(s, t, j + 1);
    }
  }

  /** `s.includes(t)` holds exactly when `t` occurs in `s` at some position. */
  lemma ContainsIff(s: string, t: string)
    ensures Contains(s, t) <==> exists k :: OccursAt(s, t, k)
  {
    if Contains(s, t) {
      ContainsOccurs(s, t);
    } else {
      forall k | OccursAt(s, t, k) ensures false {
        ContainsAt(s, t, k);
      }
    }
  }

  /** The first position of `c` in `s`. */
  function IndexOf(s: string, c: char): (i: nat)
    requires c in s
    ensures i < |s| && s[i] == c && c !in s[..i]
  {
    if s[0] == c then 0
    else
      var j := IndexOf(s[1..], c);
      assert s[..j + 1] == [s[0]] + s[1..][..j];
      j + 1
  }

  /** The first occurrence comes no later than any occurrence. */
  lemma {:induction false} IndexOfAtMost(s: string, c: char, k: int)
    requires 0 <= k < |s| && s[k] == c
    ensures IndexOf(s, c) <= k
    decreases k
  {
    if s[0] != c {
      assert s[1..][k - 1] == c;
      IndexOfAtMost(s[1..], c, k - 1);
    }
  }

  /** `s.split(sep)` for a one-character separator. */
  function Split(s: string, sep: char): (parts: seq<string>)
    ensures |parts| >= 1
    ensures forall p :: p in parts ==> sep !in p
    ensures sep in s <==> |parts| >= 2
    decreases |s|
  {
    if sep !in s then [s]
    else
      var i := IndexOf(s, sep);
      [s[..i]] + Split(s[i + 1..], sep)
  }

  /** `parts.join(sep)`. */
  function Join(parts: seq<string>, sep: char): string
    requires |parts| >= 1
  {
    if |parts| == 1 then parts[0] else parts[0] + [sep] + Join(parts[1..], sep)
  }

  /** Joining two or more pieces puts the separator in. */
  lemma JoinHasSeparator(parts: seq<string>, sep: char)
    requires |parts| >= 2
    ensures sep in Join(parts, sep)
  {
    var s := Join(parts, sep);
    assert s[|parts[0]|] == sep;
  }

  /** Splitting loses nothing: joining the pieces gives the string back. */
  lemma {:induction false} JoinSplit(s: string, sep: char)
    ensures Join(Split(s, sep), sep) == s
    decreases |s|
  {
    if sep in s {
      var i := IndexOf(s, sep);
      var tail := s[i + 1..];
      var rest := Split(tail, sep);
      var parts := Split(s, sep);
      assert parts == [s[..i]] + rest;
      assert parts[1..] == rest;
      JoinSplit(tail, sep);
      assert Join(parts, sep) == s[..i] + [sep] + tail;
      assert s == s[..i] + [sep] + tail;
    }
  }

  /** Pieces without the separator are recovered by splitting their join. */
  lemma {:induction false} SplitJoin(parts: seq<string>, sep: char)
    requires |parts| >= 1
    requires forall k :: 0 <= k < |parts| ==> sep !in parts[k]
    ensures Split(Join(parts, sep), sep) == parts
    decreases |parts|
  {
    if |parts| > 1 {
      var p, rest := parts[0], parts[1..];
      var tail := Join(rest, sep);
      var s := p + [sep] + tail;
      assert Join(parts, sep) == s;
      assert sep in s by {
        assert s[|p|] == sep;
      }
      var i := IndexOf(s, sep);
      assert i == |p| by {
        assert sep !in p;
        assert s[..|p|] == p;
        assert s[|p|] == sep;
        IndexOfAtMost(s, sep, |p|);
      }
      assert s[..i] == p && s[i + 1..] == tail;
      assert Split(tail, sep) == rest by {
        forall k | 0 <= k < |rest| ensures sep !in rest[k] {
          assert rest[k] == parts[k + 1];
        }
        SplitJoin(rest, sep);
      }
      assert Split(s, sep) == [p] + rest;
      assert [p] + rest == parts;
    }
  }

  /** The decimal digit for `d`. */
  function DigitChar(d: int): (c: char)
    requires 0 <= d < 10
    ensures '0' <= c <= '9' && c as int - '0' as int == d
  {
    (d + '0' as int) as char
  }

  predicate AllDigits(s: string) {
    forall i :: 0 <= i < |s| ==> '0' <= s[i] <= '9'
  }

  /** `${n}` for a non-negative integer: its decimal digits, most significant first. */
  function NatToString(n: nat): (s: string)
    ensures |s| >= 1 && AllDigits(s)
    decreases n
  {
    if n < 10 then [DigitChar(n)] else NatToString(n / 10) + [DigitChar(n % 10)]
  }

  /**
   * `${n}` for any integer: the decimal digits of `|n|`, after a minus sign when `n` is
   * negative; reading the digits back gives `|n|`.
   */
  function IntToString(n: int): (r: string)
    ensures |r| >= 1
    ensures n >= 0 ==> AllDigits(r) && DigitsValue(r) == n
    ensures n < 0 ==> r[0] == '-' && AllDigits(r[1..]) && DigitsValue(r[1..]) == -n
  {
    if n < 0 then
      DigitsValueOfNatToString(-n);
      var r := "-" + NatToString(-n);
      assert r[1..] == NatToString(-n);
      r
    else
      DigitsValueOfNatToString(n);
      NatToString(n)
  }

  /** Different integers render differently. */
  lemma IntToStringInjective(m: int, n: int)
    requires IntToString(m) == IntToString(n)
    ensures m == n
  {
  }

  /** The number a string of decimal digits denotes. */
  function DigitsValue(s: string): nat
    requires AllDigits(s)
  {
    if s == [] then 0 else 10 * DigitsValue(s[..|s| - 1]) + (s[|s| - 1] as int - '0' as int)
  }

  /** Reading the decimal rendering of `n` back gives `n`. */
  lemma {:induction false} DigitsValueOfNatToString(n: nat)
    ensures DigitsValue(NatToString(n)) == n
    decreases n
  {
    if n >= 10 {
      var s := NatToString(n);
      assert s[..|s| - 1] == NatToString(n / 10);
      DigitsValueOfNatToString(n / 10);
    }
  }

  /** Different integers render differently, so an id can be read back from an error message. */
  lemma NatToStringInjective(m: nat, n: nat)
    requires NatToString(m) == NatToString(n)
    ensures m == n
  {
    DigitsValueOfNatToString(m);
    DigitsValueOfNatToString(n);
  }
}
