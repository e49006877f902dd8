/** The JavaScript built-ins the rover code relies on, on strings as
    sequences of characters: `split` on a one-character separator,
    `join`, `parseInt` on decimal integer tokens, and the decimal text
    of an integer that string concatenation produces. */
module Text {

  /** `s.split(sep)`: the pieces between separators, in order. There is
      always at least one piece; the empty string gives `[""]`. */
  function Split(s: string, sep: char): (r: seq<string>)
    ensures |r| >= 1
    decreases |s|
  {
    if |s| == 0 then [""]
    else if s[0] == sep then [""] + Split(s[1..], sep)
    else
      var rest := Split(s[1..], sep);
      [[s[0]] + rest[0]] + rest[1..]
  }

  /** No piece of a split holds the separator. */
  lemma {:induction false} SplitPieces(s: string, sep: char)
    ensures forall i :: 0 <= i < |Split(s, sep)| ==> sep !in Split(s, sep)[i]
    decreases |s|
  {
    if |s| > 0 {
      SplitPieces(s[1..], sep);
    }
  }

  /** `parts.join(sep)`: the pieces with `sep` between neighbours and
      no separator at either end; no pieces give the empty string. */
  function Join(parts: seq<string>, sep: string): string
  {
    if |parts| == 0 then ""
    else if |parts| == 1 then parts[0]
    else parts[0] + sep + Join(parts[1..], sep)
  }

  lemma {:induction false} SplitWithoutSeparator(w: string, sep: char)
    requires sep !in w
    ensures Split(w, sep) == [w]
  {
    if |w| > 0 {
      SplitWithoutSeparator(w[1..], sep);
      assert [w[0]] + w[1..] == w;
    }
  }

  lemma {:induction false} SplitAtFirstSeparator(w: string, sep: char, rest: string)
    requires sep !in w
    ensures Split(w + [sep] + rest, sep) == [w] + Split(rest, sep)
  {
    var s := w + [sep] + rest;
    if |w| == 0 {
      assert s[0] == sep && s[1..] == rest;
    } else {
      assert s[0] == w[0] && s[1..] == w[1..] + [sep] + rest;
      SplitAtFirstSeparator(w[1..], sep, rest);
      assert [w[0]] + w[1..] == w;
    }
  }

  /** Splitting a join gives back the pieces, provided no piece holds the separator. */
  lemma {:induction false} SplitJoin(parts: seq<string>, sep: char)
    requires |parts| >= 1
    requires forall i :: 0 <= i < |parts| ==> sep !in parts[i]
    ensures Split(Join(parts, [sep]), sep) == parts
  {
    if |parts| == 1 {
      SplitWithoutSeparator(parts[0], sep);
    } else {
      SplitJoin(parts[1..], sep);
      SplitAtFirstSeparator(parts[0], sep, Join(parts[1..], [sep]));
      assert [parts[0]] + parts[1..] == parts;
    }
  }

  /** Joining the pieces of a split gives back the original string. */
  lemma {:induction false} JoinSplit(s: string, sep: char)
    ensures Join(Split(s, sep), [sep]) == s
  {
    if |s| > 0 {
      var rest := Split(s[1..], sep);
      JoinSplit(s[1..], sep);
      if s[0] == sep {
        assert ([""] + rest)[1..] == rest;
        assert [s[0]] + s[1..] == s;
      } else {
        var r := [[s[0]] + rest[0]] + rest[1..];
        assert r[1..] == rest[1..];
        assert [s[0]] + s[1..] == s;
      }
    }
  }

  /** The pieces with a carriage return appended to all but the last. */
  function WithCarriageReturns(parts: seq<string>): (r: seq<string>)
    ensures |r| == |parts|
  {
    seq(|parts|, i requires 0 <= i < |parts| => if i < |parts| - 1 then parts[i] + "\r" else parts[i])
  }

  /** Joining with CR LF is joining with LF after ending every piece but
      the last with CR. */
  lemma {:induction false} JoinWithCrLf(parts: seq<string>)
    ensures Join(parts, "\r\n") == Join(WithCarriageReturns(parts), "\n")
  {
    if |parts| >= 2 {
      JoinWithCrLf(parts[1..]);
      var tail := WithCarriageReturns(parts);
      assert tail[1..] == WithCarriageReturns(parts[1..]);
      assert tail[0] == parts[0] + "\r";
      assert parts[0] + "\r\n" == parts[0] + "\r" + "\n";
    }
  }

  predicate IsDigit(c: char)
  {
    '0' <= c <= '9'
  }

  predicate AllDigits(t: string)
  {
    forall i :: 0 <= i < |t| ==> IsDigit(t[i])
  }

  /** A non-empty run of decimal digits. */
  predicate IsNumeral(t: string)
  {
    |t| > 0 && AllDigits(t)
  }

  /** A decimal integer token: digits, optionally preceded by a minus sign. */
  predicate IsIntToken(t: string)
  {
    IsNumeral(t) || (|t| >= 2 && t[0] == '-' && IsNumeral(t[1..]))
  }

  function DigitValue(c: char): (d: nat)
    requires IsDigit(c)
    ensures d < 10
  {
    (c as int) - ('0' as int)
  }

  function DigitChar(d: nat): (c: char)
    requires d < 10
    ensures IsDigit(c) && DigitValue(c) == d
  {
    (('0' as int) + d) as char
  }

  /** The value of a run of decimal digits, most significant first. */
  function NumeralValue(t: string): nat
    requires AllDigits(t)
    decreases |t|
  {
    if |t| == 0 then 0
    else 10 * NumeralValue(t[..|t| - 1]) + DigitValue(t[|t| - 1])
  }

  /** `parseInt(t)` on a decimal integer token. */
  function ParseInt(t: string): int
    requires IsIntToken(t)
  {
    if t[0] == '-' then -(NumeralValue(t[1..]) as int) else NumeralValue(t)
  }

  /** The decimal digits of a natural number, without leading zeros. */
  function NatToString(n: nat): string
    decreases n
  {
    if n < 10 then [DigitChar(n)]
    else NatToString(n / 10) + [DigitChar(n % 10)]
  }

  /** The text JavaScript produces for an integer-valued Number in a
      concatenation, for magnitudes below 10^21 (from there on JavaScript
      switches to exponent form; numbers here are unbounded integers). */
  function IntToString(i: int): string
  {
    if i < 0 then "-" + NatToString(-i) else NatToString(i)
  }

  /** The text of a natural number is its decimal numeral, with no
      leading zero unless the number is zero. */
  lemma {:induction false} NatToStringNumeral(n: nat)
    ensures IsNumeral(NatToString(n)) && NumeralValue(NatToString(n)) == n
    ensures NatToString(n)[0] != '0' || n == 0
  {
    if n >= 10 {
      NatToStringNumeral(n / 10);
      var t := NatToString(n);
      assert t[..|t| - 1] == NatToString(n / 10);
      assert t[0] == NatToString(n / 10)[0];
    }
  }

  /** `parseInt` reads back the text of any integer. */
  lemma ParseIntToString(i: int)
    ensures IsIntToken(IntToString(i))
    ensures ParseInt(IntToString(i)) == i
  {
    if i < 0 {
      NatToStringNumeral(-i);
      var t := IntToString(i);
      assert t[0] == '-' && t[1..] == NatToString(-i);
    } else {
      NatToStringNumeral(i);
    }
  }

  /** An integer token holds no character other than digits and the minus sign. */
  lemma IntTokenExcludes(t: string, c: char)
    requires IsIntToken(t)
    requires !IsDigit(c) && c != '-'
    ensures c !in t
  {
  }
}
