/**
  The string operations the nodes rely on: JavaScript's `String.prototype.split`
  with a one-character separator, its inverse `join`, and the decimal rendering
  of a count inside an error message.
 */
module Text {

  /** The pieces joined back together with `sep` between consecutive pieces. */
  function Join(pieces: seq<string>, sep: char): string
  {
    if |pieces| == 0 then ""
    else if |pieces| == 1 then pieces[0]
    else pieces[0] + [sep] + Join(pieces[1..], sep)
  }

  /** Number of occurrences of `c` in `s`. */
  function Occurrences(s: string, c: char): nat
  {
    if s == [] then 0 else (if s[0] == c then 1 else 0) + Occurrences(s[1..], c)
  }

  /**
    `s.split(sep)` for a one-character separator: no trimming and no dropping of
    empty pieces, so the empty string yields the one piece "".
   */
  function Split(s: string, sep: char): (pieces: seq<string>)
    ensures |pieces| >= 1
    ensures Join(pieces, sep) == s
    ensures forall i :: 0 <= i < |pieces| ==> sep !in pieces[i]
    decreases |s|
  {
    if s == [] then [""]
    else
      var rest := Split(s[1..], sep);
      if s[0] == sep then
        assert s == [sep] + s[1..];
        [""] + rest
      else
        var first := [s[0]] + rest[0];
        assert sep !in first;
        assert s == [s[0]] + s[1..];
        if |rest| == 1 then [first]
        else
          assert Join(rest, sep) == rest[0] + [sep] + Join(rest[1..], sep);
          [first] + rest[1..]
  }

  /** A string splits into one more piece than it has separators. */
  lemma {:induction false} SplitCount(s: string, sep: char)
    ensures |Split(s, sep)| == Occurrences(s, sep) + 1
    decreases |s|
  {
    if s != [] {
      SplitCount(s[1..], sep);
    }
  }

  /** A separator-free string is a single piece. */
  lemma {:induction false} SplitSeparatorFree(p: string, sep: char)
    requires sep !in p
    ensures Split(p, sep) == [p]
    decreases |p|
  {
    if p != [] {
      SplitSeparatorFree(p[1..], sep);
    }
  }

  /** Splitting `p|t` for a separator-free `p` yields `p` followed by the pieces of `t`. */
  lemma {:induction false} SplitAfterPiece(p: string, t: string, sep: char)
    requires sep !in p
    ensures Split(p + [sep] + t, sep) == [p] + Split(t, sep)
    decreases |p|
  {
    if p == [] {
      assert p + [sep] + t == [sep] + t;
      assert ([sep] + t)[1..] == t;
    } else {
      assert (p + [sep] + t)[1..] == p[1..] + [sep] + t;
      SplitAfterPiece(p[1..], t, sep);
      assert [p[0]] + p[1..] == p;
    }
  }

  /** Split inverts Join on separator-free pieces: the round trip of `join('|')` then `split('|')`. */
  lemma {:induction false} SplitJoin(pieces: seq<string>, sep: char)
    requires |pieces| >= 1
    requires forall i :: 0 <= i < |pieces| ==> sep !in pieces[i]
    ensures Split(Join(pieces, sep), sep) == pieces
    decreases |pieces|
  {
    if |pieces| == 1 {
      SplitSeparatorFree(pieces[0], sep);
    } else {
      SplitJoin(pieces[1..], sep);
      SplitAfterPiece(pieces[0], Join(pieces[1..], sep), sep);
      assert [pieces[0]] + pieces[1..] == pieces;
    }
  }

  /** Split is determined by what it promises: separator-free pieces that join back to the input. */
  lemma SplitUnique(s: string, pieces: seq<string>, sep: char)
    requires |pieces| >= 1
    requires forall i :: 0 <= i < |pieces| ==> sep !in pieces[i]
    requires Join(pieces, sep) == s
    ensures Split(s, sep) == pieces
  {
    SplitJoin(pieces, sep);
  }

  /** `split` neither trims nor drops empty pieces: the empty string is one empty piece. */
  lemma SplitExamples()
    ensures Split("", '|') == [""]
    ensures Split("a|b|c", '|') == ["a", "b", "c"]
    ensures Split("|", '|') == ["", ""]
  {
    SplitUnique("a|b|c", ["a", "b", "c"], '|');
    SplitUnique("|", ["", ""], '|');
  }

  predicate IsDigit(c: char) { '0' <= c <= '9' }

  predicate AllDigits(s: string) { forall i :: 0 <= i < |s| ==> IsDigit(s[i]) }

  function DigitChar(d: nat): (c: char)
    requires d < 10
    ensures IsDigit(c)
  {
    ['0', '1', '2', '3', '4', '5', '6', '7', '8', '9'][d]
  }

  function DigitValue(c: char): nat
    requires IsDigit(c)
  {
    (c as int - '0' as int) as nat
  }

  /** The decimal text of `n`, as a JavaScript template literal renders an integer. */
  function NatToString(n: nat): (s: string)
    ensures |s| >= 1 && AllDigits(s)
  {
    if n < 10 then [DigitChar(n)] else NatToString(n / 10) + [DigitChar(n % 10)]
  }

  /** The value of a string of decimal digits. */
  function ParseDigits(s: string): nat
    requires AllDigits(s)
  {
    if s == [] then 0 else 10 * ParseDigits(s[..|s| - 1]) + DigitValue(s[|s| - 1])
  }

  lemma DigitRoundTrip(d: nat)
    requires d < 10
    ensures DigitValue(DigitChar(d)) == d
  {
  }

  /** The decimal text can be read back: a count rendered in a message is recoverable. */
  lemma {:induction false} ParseNatToString(n: nat)
    ensures ParseDigits(NatToString(n)) == n
  {
    var s := NatToString(n);
    if n < 10 {
      DigitRoundTrip(n);
      assert s[..|s| - 1] == [];
    } else {
      ParseNatToString(n / 10);
      DigitRoundTrip(n % 10);
      assert s[..|s| - 1] == NatToString(n / 10);
    }
  }

  lemma NatToStringInjective(a: nat, b: nat)
    requires NatToString(a) == NatToString(b)
    ensures a == b
  {
    ParseNatToString(a);
    ParseNatToString(b);
  }

  /**
    A digit run followed by text that starts with a non-digit splits uniquely:
    the run ends where the first non-digit begins.
   */
  lemma DigitRunsAlign(x: string, y: string, x': string, y': string)
    requires AllDigits(x) && AllDigits(x')
    requires |y| > 0 && !IsDigit(y[0]) && |y'| > 0 && !IsDigit(y'[0])
    requires x + y == x' + y'
    ensures x == x' && y == y'
  {
    // every position before |x'| holds a digit, position |x| does not (and symmetrically)
    assert forall k :: 0 <= k < |x'| ==> IsDigit((x + y)[k]);
    assert !IsDigit((x + y)[|x|]);
    assert forall k :: 0 <= k < |x| ==> IsDigit((x' + y')[k]);
    assert !IsDigit((x' + y')[|x'|]);
    assert x == (x + y)[..|x|];
    assert x' == (x' + y')[..|x'|];
    assert y == (x + y)[|x|..];
    assert y' == (x' + y')[|x'|..];
  }

  /** Equal texts with an equal prefix have equal remainders. */
  lemma DropPrefix(p: string, u: string, v: string)
    requires p + u == p + v
    ensures u == v
  {
    assert u == (p + u)[|p|..];
    assert v == (p + v)[|p|..];
  }

  /** Two digit runs separated by fixed texts that start with a non-digit are determined by the whole. */
  lemma TwoRunsAlign(prefix: string, middle: string, suffix: string, sa: string, sb: string, sc: string, sd: string)
    requires AllDigits(sa) && AllDigits(sb) && AllDigits(sc) && AllDigits(sd)
    requires |middle| > 0 && !IsDigit(middle[0]) && |suffix| > 0 && !IsDigit(suffix[0])
    requires prefix + (sa + (middle + (sb + suffix))) == prefix + (sc + (middle + (sd + suffix)))
    ensures sa == sc && sb == sd
  {
    DropPrefix(prefix, sa + (middle + (sb + suffix)), sc + (middle + (sd + suffix)));
    DigitRunsAlign(sa, middle + (sb + suffix), sc, middle + (sd + suffix));
    DropPrefix(middle, sb + suffix, sd + suffix);
    DigitRunsAlign(sb, suffix, sd, suffix);
  }

  /**
    A text of the form `prefix + a + middle + b + suffix`, where `middle` and
    `suffix` start with a non-digit, names the numbers `a` and `b` unambiguously.
   */
  lemma TwoCountsRecoverable(prefix: string, middle: string, suffix: string, a: nat, b: nat, c: nat, d: nat)
    requires |middle| > 0 && !IsDigit(middle[0]) && |suffix| > 0 && !IsDigit(suffix[0])
    requires prefix + (NatToString(a) + (middle + (NatToString(b) + suffix)))
          == prefix + (NatToString(c) + (middle + (NatToString(d) + suffix)))
    ensures a == c && b == d
  {
    TwoRunsAlign(prefix, middle, suffix, NatToString(a), NatToString(b), NatToString(c), NatToString(d));
    NatToStringInjective(a, c);
    NatToStringInjective(b, d);
  }
}
