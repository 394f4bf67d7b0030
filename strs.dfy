/** The parts of Go's `strings` and `strconv` packages that the modelled code relies on:
    splitting at a one-character separator, ASCII case mapping, and decimal
    integers. Strings are sequences of Unicode scalar values. */
module Strs {
  import opened Wrappers

  /** `strings.IndexByte(s, c)`: the position of the first `c`, or -1. */
  function IndexOf(s: string, c: char): (i: int)
    ensures -1 <= i < |s|
    ensures i == -1 <==> c !in s
    ensures i >= 0 ==> s[i] == c && c !in s[..i]
  {
    if |s| == 0 then -1
    else if s[0] == c then 0
    else
      var j := IndexOf(s[1..], c);
      if j == -1 then -1
      else
        assert s[..j + 1] == [s[0]] + s[1..][..j];
        j + 1
  }

  /** A `c` with no `c` before it is the first one. */
  lemma IndexOfIs(s: string, c: char, i: nat)
    requires i < |s| && s[i] == c && c !in s[..i]
    ensures IndexOf(s, c) == i
  {
    if i > 0 {
      assert s[1..][..i - 1] == s[1..i];
      assert s[0] in s[..i];
      IndexOfIs(s[1..], c, i - 1);
    }
  }

  /** Two ways of writing one string around a first separator agree. */
  lemma FirstSeparatorUnique(a: string, b: string, c: string, d: string, sep: char)
    requires sep !in a && sep !in c
    requires a + [sep] + b == c + [sep] + d
    ensures a == c && b == d
  {
    var s := a + [sep] + b;
    assert s[..|a|] == a && s[|a|] == sep;
    assert s == c + [sep] + d && s[..|c|] == c && s[|c|] == sep;
    IndexOfIs(s, sep, |a|);
    IndexOfIs(s, sep, |c|);
    assert b == s[|a| + 1..] == d;
  }

  /** Of two ways of writing one string around a separator, the one with the
      longer tail has the separator in that tail. */
  lemma SeparatorInLongerTail(a: string, b: string, c: string, d: string, sep: char)
    requires a + [sep] + b == c + [sep] + d
    ensures |b| > |d| ==> sep in b
  {
    var s := a + [sep] + b;
    if |b| > |d| {
      assert s == c + [sep] + d;
      assert b[|b| - 1 - |d|] == s[|s| - 1 - |d|] == sep;
    }
  }

  /** Two ways of writing one string around a last separator agree. */
  lemma LastSeparatorUnique(a: string, b: string, c: string, d: string, sep: char)
    requires sep !in b && sep !in d
    requires a + [sep] + b == c + [sep] + d
    ensures a == c && b == d
  {
    SeparatorInLongerTail(a, b, c, d, sep);
    SeparatorInLongerTail(c, d, a, b, sep);
    var s := a + [sep] + b;
    assert s == c + [sep] + d;
    assert b == s[|s| - |b|..] == d;
    assert a == s[..|a|] == c;
  }

  /** `strings.Split(s, string(c))`: the pieces of `s` between occurrences of `c`. */
  function Split(s: string, c: char): (parts: seq<string>)
    ensures |parts| >= 1
    decreases |s|
  {
    var i := IndexOf(s, c);
    if i == -1 then [s] else [s[..i]] + Split(s[i + 1..], c)
  }

  /** `strings.Join(parts, string(c))`. */
  function Join(parts: seq<string>, c: char): string
  {
    if |parts| == 0 then ""
    else if |parts| == 1 then parts[0]
    else parts[0] + [c] + Join(parts[1..], c)
  }

  /** Joining the pieces of a split gives the string back, so `Split` loses nothing. */
  lemma {:induction false} SplitJoin(s: string, c: char)
    ensures Join(Split(s, c), c) == s
    decreases |s|
  {
    var i := IndexOf(s, c);
    if i != -1 {
      var rest := s[i + 1..];
      var tail := Split(rest, c);
      SplitJoin(rest, c);
      assert Split(s, c) == [s[..i]] + tail;
      JoinCons(s[..i], tail, c);
      AroundIndex(s, i);
    }
  }

  /** A string is its part before position `i`, the character there, and the rest. */
  lemma AroundIndex(s: string, i: nat)
    requires i < |s|
    ensures s == s[..i] + [s[i]] + s[i + 1..]
  {
  }

  /** Joining a first piece in front of at least one more puts a separator between. */
  lemma JoinCons(a: string, tail: seq<string>, c: char)
    requires |tail| >= 1
    ensures Join([a] + tail, c) == a + [c] + Join(tail, c)
  {
    assert ([a] + tail)[1..] == tail;
  }

  /** No piece of a split holds the separator. */
  lemma {:induction false} SplitPiecesFree(s: string, c: char)
    ensures forall k :: 0 <= k < |Split(s, c)| ==> c !in Split(s, c)[k]
    decreases |s|
  {
    var i := IndexOf(s, c);
    if i != -1 {
      var rest := s[i + 1..];
      SplitPiecesFree(rest, c);
      var tail := Split(rest, c);
      var parts := [s[..i]] + tail;
      assert Split(s, c) == parts;
      forall k | 0 <= k < |parts| ensures c !in parts[k] {
        if k > 0 {
          assert parts[k] == tail[k - 1];
        }
      }
    }
  }

  /** Splitting `a + c + b` where `a` has no `c` peels `a` off as the first piece. */
  lemma {:induction false} SplitCons(a: string, b: string, c: char)
    requires c !in a
    ensures Split(a + [c] + b, c) == [a] + Split(b, c)
  {
    var s := a + [c] + b;
    assert s[|a|] == c;
    assert s[..|a|] == a;
    assert s[|a| + 1..] == b;
    assert IndexOf(s, c) == |a| by {
      var i := IndexOf(s, c);
      assert c !in s[..|a|];
      assert s[..i] <= s[..|a| + 1];
    }
  }

  /** Joining pieces free of the separator and splitting again gives the pieces back. */
  lemma {:induction false} SplitJoinInverse(parts: seq<string>, c: char)
    requires |parts| >= 1
    requires forall i :: 0 <= i < |parts| ==> c !in parts[i]
    ensures Split(Join(parts, c), c) == parts
    decreases |parts|
  {
    if |parts| == 1 {
      assert IndexOf(parts[0], c) == -1;
    } else {
      SplitJoinInverse(parts[1..], c);
      SplitCons(parts[0], Join(parts[1..], c), c);
    }
  }

  /** `strings.SplitN(s, string(c), 2)`: the text before the first `c` and everything after it. */
  function SplitFirst(s: string, c: char): (parts: seq<string>)
    ensures |parts| == 1 || |parts| == 2
    ensures |parts| == 1 <==> c !in s
    ensures |parts| == 1 ==> parts[0] == s
    ensures |parts| == 2 ==> s == parts[0] + [c] + parts[1] && c !in parts[0]
  {
    var i := IndexOf(s, c);
    if i == -1 then [s]
    else
      assert s == s[..i] + [c] + s[i + 1..];
      [s[..i], s[i + 1..]]
  }

  function LowerAscii(ch: char): char
  {
    if 'A' <= ch <= 'Z' then (ch as int + 32) as char else ch
  }

  function UpperAscii(ch: char): char
  {
    if 'a' <= ch <= 'z' then (ch as int - 32) as char else ch
  }

  /** `strings.ToUpper`, for the ASCII text it is applied to in the source. */
  function ToUpper(s: string): (r: string)
    ensures |r| == |s|
    ensures forall i :: 0 <= i < |s| ==> r[i] == UpperAscii(s[i])
  {
    seq(|s|, i requires 0 <= i < |s| => UpperAscii(s[i]))
  }

  /** `strings.EqualFold` with ASCII case folding. */
  predicate EqualFold(a: string, b: string)
  {
    |a| == |b| && forall i :: 0 <= i < |a| ==> LowerAscii(a[i]) == LowerAscii(b[i])
  }

  predicate IsDigit(ch: char)
  {
    '0' <= ch <= '9'
  }

  predicate AllDigits(s: string)
  {
    forall i :: 0 <= i < |s| ==> IsDigit(s[i])
  }

  function DigitChar(d: nat): (ch: char)
    requires d < 10
    ensures IsDigit(ch)
  {
    ('0' as int + d) as char
  }

  /** The value of a string of decimal digits, most significant first. */
  function DigitsValue(s: string): nat
    requires AllDigits(s)
  {
    if |s| == 0 then 0
    else DigitsValue(s[..|s| - 1]) * 10 + (s[|s| - 1] as int - '0' as int)
  }

  /** The shortest decimal digits of `n`. */
  function NatDigits(n: nat): (s: string)
    ensures |s| >= 1 && AllDigits(s)
  {
    if n < 10 then [DigitChar(n)] else NatDigits(n / 10) + [DigitChar(n % 10)]
  }

  /** `strconv.Itoa`, which is also how `%d` prints an integer. */
  function Itoa(n: int): string
  {
    if n < 0 then "-" + NatDigits(-n) else NatDigits(n)
  }

  /** `strconv.Atoi`: an optional `+` or `-` followed by one or more decimal digits
      (the 64-bit range check is not modelled). */
  function Atoi(s: string): Option<int>
  {
    if |s| == 0 then None
    else if s[0] == '+' || s[0] == '-' then
      var d := s[1..];
      if |d| > 0 && AllDigits(d) then
        var v: int := DigitsValue(d);
        Some(if s[0] == '-' then -v else v)
      else None
    else if AllDigits(s) then Some(DigitsValue(s))
    else None
  }

  lemma {:induction false} DigitsRoundTrip(n: nat)
    ensures DigitsValue(NatDigits(n)) == n
  {
    if n >= 10 {
      DigitsRoundTrip(n / 10);
      var s := NatDigits(n);
      assert s[..|s| - 1] == NatDigits(n / 10);
    }
  }

  /** Parsing what `Itoa` prints gives the number back. */
  lemma AtoiItoa(n: int)
    ensures Atoi(Itoa(n)) == Some(n)
  {
    if n < 0 {
      DigitsRoundTrip(-n);
      assert Itoa(n)[1..] == NatDigits(-n);
    } else {
      DigitsRoundTrip(n);
    }
  }

  /** Printed integers hold only a sign and digits, so no other character. */
  lemma ItoaNoSeparator(n: int, c: char)
    requires !IsDigit(c) && c != '-'
    ensures c !in Itoa(n)
  {
    var s := Itoa(n);
    var digits := NatDigits(if n < 0 then -n else n);
    forall i | 0 <= i < |s| ensures s[i] != c {
      if n < 0 {
        if i > 0 {
          assert s[i] == digits[i - 1];
          assert IsDigit(digits[i - 1]);
        }
      } else {
        assert IsDigit(digits[i]);
      }
    }
  }

  /** Printed integers never start with `+`, and start with `-` exactly when negative. */
  lemma ItoaSign(n: int)
    ensures |Itoa(n)| >= 1 && Itoa(n)[0] != '+'
    ensures Itoa(n)[0] == '-' <==> n < 0
  {
  }
}
