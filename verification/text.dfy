/**
 * Rust's integer formatting as used by `format!`: `{}` renders an integer in
 * decimal with a leading '-' when negative, and `{:0w}` pads it with zeros
 * after the sign to at least `w` characters. `ParseNat` reads digits back and
 * is the partner the renderings are checked against.
 */
module Text {
  import opened Results

  predicate IsDigit(c: char) {
    '0' <= c <= '9'
  }

  predicate AllDigits(s: string) {
    forall i :: 0 <= i < |s| ==> IsDigit(s[i])
  }

  function DigitChar(d: nat): (c: char)
    requires d < 10
    ensures IsDigit(c) && c as int - '0' as int == d
  {
    ('0' as int + d) as char
  }

  function DigitValue(c: char): (d: nat)
    requires IsDigit(c)
    ensures d < 10 && DigitChar(d) == c
  {
    c as int - '0' as int
  }

  /** The decimal digits of `n`, most significant first, without leading zeros. */
  function NatText(n: nat): (s: string)
    ensures 1 <= |s| && AllDigits(s)
    ensures |s| > 1 ==> s[0] != '0'
    decreases n
  {
    if n < 10 then [DigitChar(n)] else NatText(n / 10) + [DigitChar(n % 10)]
  }

  /** `{}` of an integer: a '-' exactly when negative, then the digits. */
  function IntText(n: int): (r: string)
    ensures r != [] && (r[0] == '-' <==> n < 0)
    ensures n < 0 ==> AllDigits(r[1..])
    ensures n >= 0 ==> AllDigits(r)
  {
    if n < 0 then "-" + NatText(-n) else NatText(n)
  }

  function Zeros(k: nat): (z: string)
    ensures |z| == k && forall i :: 0 <= i < k ==> z[i] == '0'
  {
    seq(k, _ => '0')
  }

  /** Left-pads a digit string with zeros to at least `width` characters. */
  function ZeroPad(s: string, width: int): (r: string)
    ensures |r| == if |s| >= width then |s| else width
    ensures AllDigits(s) ==> AllDigits(r)
  {
    if |s| >= width then s else Zeros(width - |s|) + s
  }

  /** Padding a string that ends in `t` pads what comes before `t`. */
  lemma ZeroPadAppend(a: string, t: string, width: int)
    ensures ZeroPad(a + t, width) == ZeroPad(a, width - |t|) + t
  {
    if |a + t| < width {
      assert Zeros(width - |a + t|) + (a + t) == (Zeros(width - |t| - |a|) + a) + t;
    }
  }

  /** A number below 100 padded to width 2 is its tens digit then its units digit. */
  lemma TwoDigitText(n: nat)
    requires n < 100
    ensures ZeroPad(NatText(n), 2) == [DigitChar(n / 10), DigitChar(n % 10)]
  {
    if n < 10 {
      assert NatText(n) == [DigitChar(n)];
      assert ZeroPad(NatText(n), 2) == Zeros(1) + [DigitChar(n)];
      assert DigitChar(0) == '0';
    } else {
      var t, u := n / 10, n % 10;
      assert NatText(n) == NatText(t) + [DigitChar(u)];
      assert NatText(t) == [DigitChar(t)];
    }
  }

  /** A number below 1000 padded to width 3 is its three digits. */
  lemma ThreeDigitText(n: nat)
    requires n < 1000
    ensures ZeroPad(NatText(n), 3) == [DigitChar(n / 100), DigitChar(n / 10 % 10), DigitChar(n % 10)]
  {
    var h, t, u := n / 100, n / 10 % 10, n % 10;
    assert DigitChar(0) == '0';
    if n < 10 {
      assert NatText(n) == [DigitChar(n)];
      assert ZeroPad(NatText(n), 3) == Zeros(2) + [DigitChar(n)];
    } else {
      assert NatText(n) == NatText(n / 10) + [DigitChar(u)];
      TwoDigitText(n / 10);
      assert n / 10 / 10 == h && n / 10 % 10 == t;
      if n < 100 {
        assert NatText(n / 10) == [DigitChar(t)];
        assert ZeroPad(NatText(n), 3) == Zeros(1) + [DigitChar(t), DigitChar(u)];
      } else {
        assert NatText(n / 10) == [DigitChar(h), DigitChar(t)];
      }
    }
  }

  /**
   * `{:0w}` of an integer: at least `width` characters, the sign counting
   * toward the width; a non-negative number is all digits and reads back as
   * itself.
   */
  function PaddedIntText(n: int, width: nat): (r: string)
    ensures |r| >= width && |r| >= 1 && (r[0] == '-' <==> n < 0)
    ensures n >= 0 ==> AllDigits(r) && ParseNat(r) == n
  {
    if n < 0 then "-" + ZeroPad(NatText(-n), width - 1)
    else ParsePadded(n, width); ZeroPad(NatText(n), width)
  }

  /** The number a string of decimal digits denotes. */
  function ParseNat(s: string): nat
    requires AllDigits(s)
  {
    if s == [] then 0 else ParseNat(s[..|s| - 1]) * 10 + DigitValue(s[|s| - 1])
  }

  /** Reading back the digits of `n` gives `n`. */
  lemma {:induction false} ParseNatText(n: nat)
    ensures ParseNat(NatText(n)) == n
  {
    if n >= 10 {
      var s := NatText(n);
      assert s[..|s| - 1] == NatText(n / 10);
      ParseNatText(n / 10);
    }
  }

  /** Leading zeros do not change the number a digit string denotes. */
  lemma {:induction false} ParseNatLeadingZeros(k: nat, s: string)
    requires AllDigits(s)
    ensures AllDigits(Zeros(k) + s) && ParseNat(Zeros(k) + s) == ParseNat(s)
    decreases |s|
  {
    var t := Zeros(k) + s;
    if s == [] {
      assert t == Zeros(k);
      ZerosParseToZero(k);
    } else {
      assert t[..|t| - 1] == Zeros(k) + s[..|s| - 1];
      ParseNatLeadingZeros(k, s[..|s| - 1]);
    }
  }

  lemma {:induction false} ZerosParseToZero(k: nat)
    ensures ParseNat(Zeros(k)) == 0
  {
    if k > 0 {
      assert Zeros(k)[..k - 1] == Zeros(k - 1);
      ZerosParseToZero(k - 1);
    }
  }

  /** Zero padding keeps the value: `{:0w}` of `n >= 0` reads back as `n`. */
  lemma ParsePadded(n: nat, width: int)
    ensures AllDigits(ZeroPad(NatText(n), width))
    ensures ParseNat(ZeroPad(NatText(n), width)) == n
  {
    var s := NatText(n);
    ParseNatText(n);
    if |s| < width {
      ParseNatLeadingZeros(width - |s|, s);
    }
  }

  /** Numbers below 10^k have at most k digits (k >= 1). */
  lemma {:induction false} NatTextLength(n: nat, k: nat)
    requires 1 <= k && n < Pow10(k)
    ensures |NatText(n)| <= k
  {
    if n >= 10 {
      assert n / 10 < Pow10(k - 1);
      NatTextLength(n / 10, k - 1);
    }
  }

  function Pow10(k: nat): (p: nat)
    ensures p >= 1
  {
    if k == 0 then 1 else 10 * Pow10(k - 1)
  }

  /** `{}` read back: an optional '-' and then digits. */
  function ParseInt(s: string): int
    requires s != [] && (s[0] == '-' ==> AllDigits(s[1..])) && (s[0] != '-' ==> AllDigits(s))
  {
    if s[0] == '-' then -(ParseNat(s[1..]) as int) else ParseNat(s)
  }

  /** Reading back the text of an integer gives the integer. */
  lemma ParseIntText(n: int)
    ensures var s := IntText(n); s != [] && (s[0] == '-' ==> AllDigits(s[1..])) && (s[0] != '-' ==> AllDigits(s))
    ensures ParseInt(IntText(n)) == n
  {
    if n < 0 {
      assert IntText(n)[1..] == NatText(-n);
      ParseNatText(-n);
    } else {
      ParseNatText(n);
    }
  }

  /** The text of an integer has no space. */
  lemma IntTextHasNoSpace(n: int)
    ensures ' ' !in IntText(n)
  {
    if n < 0 {
      assert IntText(n) == ['-'] + NatText(-n);
    }
  }

  /**
   * Splits at the first space: `None` exactly when there is none, otherwise
   * the space-free text before it and everything after it.
   */
  function SplitAtSpace(s: string): (r: Option<(string, string)>)
    ensures r.None? <==> ' ' !in s
    ensures r.Some? ==> ' ' !in r.value.0 && s == r.value.0 + " " + r.value.1
  {
    if s == [] then None
    else if s[0] == ' ' then Some(([], s[1..]))
    else
      assert s == [s[0]] + s[1..];
      match SplitAtSpace(s[1..])
      case None => None
      case Some((a, b)) => Some(([s[0]] + a, b))
  }

  /** Splitting `a + " " + b` at the first space recovers `a` and `b` when `a` has no space. */
  lemma {:induction false} SplitJoin(a: string, b: string)
    ensures ' ' !in a ==> SplitAtSpace(a + " " + b) == Some((a, b))
  {
    if ' ' !in a && a != [] {
      assert (a + " " + b)[1..] == a[1..] + " " + b;
      assert ' ' !in a[1..] by {
        assert a == [a[0]] + a[1..];
      }
      SplitJoin(a[1..], b);
      assert [a[0]] + a[1..] == a;
    }
  }

  /** The words of a string: the pieces between its spaces, in order. */
  function Words(s: string): (w: seq<string>)
    ensures |w| >= 1
    decreases |s|
  {
    match SplitAtSpace(s)
    case None => [s]
    case Some((a, b)) => [a] + Words(b)
  }

  /** A space-free word followed by a space and more text is the first word. */
  lemma WordsJoin(a: string, b: string)
    requires ' ' !in a
    ensures Words(a + " " + b) == [a] + Words(b)
  {
    SplitJoin(a, b);
  }

  /** Words joined by single spaces. */
  function JoinWords(ws: seq<string>): string
    requires |ws| >= 1
  {
    if |ws| == 1 then ws[0] else ws[0] + " " + JoinWords(ws[1..])
  }

  /** The first word of a join is its first space-free word. */
  lemma WordsHead(ws: seq<string>)
    requires |ws| >= 2 && ' ' !in ws[0]
    ensures Words(JoinWords(ws)) == [ws[0]] + Words(JoinWords(ws[1..]))
  {
    WordsJoin(ws[0], JoinWords(ws[1..]));
  }

  /** The third word of a join whose first three words are space-free. */
  lemma ThirdWord(ws: seq<string>)
    requires |ws| >= 4 && ' ' !in ws[0] && ' ' !in ws[1] && ' ' !in ws[2]
    ensures |Words(JoinWords(ws))| > 2 && Words(JoinWords(ws))[2] == ws[2]
  {
    assert ws[1..][1..] == ws[2..];
    WordsHead(ws);
    WordsHead(ws[1..]);
    WordsHead(ws[2..]);
  }

  /** Joining space-free words and splitting the result gives the words back. */
  lemma {:induction false} WordsOfJoin(ws: seq<string>)
    requires |ws| >= 1
    ensures (forall i :: 0 <= i < |ws| ==> ' ' !in ws[i]) ==> Words(JoinWords(ws)) == ws
  {
    if forall i :: 0 <= i < |ws| ==> ' ' !in ws[i] {
      if |ws| == 1 {
        assert SplitAtSpace(ws[0]).None?;
      } else {
        WordsHead(ws);
        WordsOfJoin(ws[1..]);
        assert ws == [ws[0]] + ws[1..];
      }
    }
  }
}
