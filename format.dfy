/**
 * The parts of Go's fmt package the layer relies on: `%d` on an integer (the port
 * in a connection string), `%v` on an argument list (the `args:` log line), and
 * counting a character in a string (the `?` placeholders of a query text).
 */
module Format {
  import opened Wrappers
  import opened Driver

  predicate IsDigit(c: char) {
    '0' <= c <= '9'
  }

  predicate AllDigits(s: string) {
    forall i :: 0 <= i < |s| ==> IsDigit(s[i])
  }

  function DigitChar(d: nat): (c: char)
    requires d < 10
    ensures IsDigit(c) && c as int - '0' as int == d
  {
    ('0' as int + d) as char
  }

  function DigitValue(c: char): (d: nat)
    requires IsDigit(c)
    ensures d < 10
  {
    c as int - '0' as int
  }

  /** The decimal digits of n, most significant first. */
  function FormatNat(n: nat): string
    decreases n
  {
    if n < 10 then [DigitChar(n)] else FormatNat(n / 10) + [DigitChar(n % 10)]
  }

  /** `%d`: a minus sign for a negative value, then the digits of its magnitude. */
  function FormatInt(i: int): string {
    if i < 0 then "-" + FormatNat(-i) else FormatNat(i)
  }

  /** The number a string of decimal digits denotes. */
  function DigitsValue(s: string): nat
    requires AllDigits(s)
  {
    if s == [] then 0 else DigitsValue(s[..|s| - 1]) * 10 + DigitValue(s[|s| - 1])
  }

  /** Reads back what `%d` writes: an optional minus sign and at least one digit. */
  function ParseInt(s: string): Option<int> {
    if |s| >= 2 && s[0] == '-' && AllDigits(s[1..]) then Some(-(DigitsValue(s[1..]) as int))
    else if |s| >= 1 && AllDigits(s) then Some(DigitsValue(s))
    else None
  }

  /** The digits of n are non-empty, have no leading zero, and denote n. */
  lemma {:induction false} FormatNatDenotes(n: nat)
    ensures |FormatNat(n)| >= 1 && AllDigits(FormatNat(n))
    ensures FormatNat(n)[0] == '0' <==> n == 0
    ensures DigitsValue(FormatNat(n)) == n
    decreases n
  {
    if n >= 10 {
      var s := FormatNat(n);
      FormatNatDenotes(n / 10);
      assert s[..|s| - 1] == FormatNat(n / 10);
    }
  }

  /** `%d` loses nothing: its text reads back as the same integer. */
  lemma ParseFormatInt(i: int)
    ensures ParseInt(FormatInt(i)) == Some(i)
  {
    var s := FormatInt(i);
    if i < 0 {
      var digits := FormatNat(-i);
      FormatNatDenotes(-i);
      assert s == "-" + digits;
      assert s[1..] == digits;
      assert |s| >= 2 && s[0] == '-' && AllDigits(s[1..]);
      assert ParseInt(s) == Some(-(DigitsValue(digits) as int));
    } else {
      FormatNatDenotes(i);
      assert s == FormatNat(i);
      assert IsDigit(s[0]);
      assert ParseInt(s) == Some(DigitsValue(s) as int);
    }
  }

  lemma FormatIntInjective(i: int, j: int)
    requires FormatInt(i) == FormatInt(j)
    ensures i == j
  {
    ParseFormatInt(i);
    ParseFormatInt(j);
  }

  /** `%v` on one argument. */
  function FormatValue(v: Value): string {
    match v
    case Null => "<nil>"
    case Bool(b) => if b then "true" else "false"
    case Int(i) => FormatInt(i)
    case Uint(u) => FormatNat(u)
    case Text(t) => t
  }

  /** The `%v` texts of the arguments, in order. */
  function Texts(args: seq<Value>): seq<string> {
    seq(|args|, i requires 0 <= i < |args| => FormatValue(args[i]))
  }

  /** Texts separated by single spaces. */
  function Join(texts: seq<string>): string
    decreases |texts|
  {
    if texts == [] then ""
    else if |texts| == 1 then texts[0]
    else texts[0] + " " + Join(texts[1..])
  }

  /** Where the i-th text starts in Join(texts): after the texts before it, one space each. */
  function Offset(texts: seq<string>, i: nat): nat
    requires i <= |texts|
    decreases i
  {
    if i == 0 then 0 else |texts[0]| + 1 + Offset(texts[1..], i - 1)
  }

  /**
   * The joined text holds every text, in order, each at its offset and
   * followed by a single space unless it is the last one.
   */
  lemma {:induction false} JoinLayout(texts: seq<string>, i: nat)
    requires i < |texts|
    ensures Offset(texts, i) + |texts[i]| <= |Join(texts)|
    ensures i + 1 < |texts| ==> Offset(texts, i) + |texts[i]| < |Join(texts)|
    ensures Join(texts)[Offset(texts, i)..Offset(texts, i) + |texts[i]|] == texts[i]
    ensures i + 1 < |texts| ==> Join(texts)[Offset(texts, i) + |texts[i]|] == ' '
    decreases i
  {
    var head, j := texts[0], Join(texts);
    if |texts| == 1 {
      assert j == head;
    } else {
      var lead, rest := head + " ", Join(texts[1..]);
      assert j == lead + rest;
      if i == 0 {
        assert j[0..|head|] == head;
        assert j[|head|] == ' ';
      } else {
        var text := texts[i];
        JoinLayout(texts[1..], i - 1);
        assert texts[1..][i - 1] == text;
        var o := Offset(texts[1..], i - 1);
        assert Offset(texts, i) == |lead| + o;
        SliceAfter(lead, rest, o, o + |text|);
        if i + 1 < |texts| {
          assert j[|lead| + o + |text|] == rest[o + |text|];
        }
      }
    }
  }

  lemma SliceAfter(a: string, b: string, p: nat, q: nat)
    requires p <= q <= |b|
    ensures (a + b)[|a| + p..|a| + q] == b[p..q]
  {
  }

  lemma {:induction false} OffsetStep(texts: seq<string>, i: nat)
    requires i < |texts|
    ensures Offset(texts, i + 1) == Offset(texts, i) + |texts[i]| + 1
    decreases i
  {
    if i > 0 {
      OffsetStep(texts[1..], i - 1);
      assert texts[1..][i - 1] == texts[i];
    }
  }

  /** Nothing but the texts and the separating spaces: the joined text ends where the last text does. */
  lemma {:induction false} JoinLength(texts: seq<string>)
    requires |texts| >= 1
    ensures |Join(texts)| + 1 == Offset(texts, |texts|)
    decreases |texts|
  {
    if |texts| >= 2 {
      JoinLength(texts[1..]);
    }
  }

  /** `%v` on a slice of arguments: `[a b c]`. */
  function FormatArgs(args: seq<Value>): (s: string)
    ensures |s| >= 2 && s[0] == '[' && s[|s| - 1] == ']'
    ensures s[1..|s| - 1] == Join(Texts(args))
    ensures args == [] ==> s == "[]"
  {
    "[" + Join(Texts(args)) + "]"
  }

  /** The bracketed join holds each text one place after its offset in the join. */
  lemma BracketedLayout(texts: seq<string>, i: nat)
    requires i < |texts|
    ensures var s, o := "[" + Join(texts) + "]", 1 + Offset(texts, i);
      && o + |texts[i]| < |s|
      && s[o..o + |texts[i]|] == texts[i]
      && (i + 1 < |texts| ==> s[o + |texts[i]|] == ' ')
      && (i + 1 == |texts| ==> o + |texts[i]| == |s| - 1)
  {
    var j := Join(texts);
    var s := "[" + j + "]";
    JoinLayout(texts, i);
    JoinLength(texts);
    var o, text := Offset(texts, i), texts[i];
    assert s[1 + o..1 + o + |text|] == j[o..o + |text|];
    if i + 1 < |texts| {
      assert s[1 + o + |text|] == j[o + |text|];
    } else {
      OffsetStep(texts, i);
    }
  }

  /**
   * Each argument's `%v` text appears in the `%v` text of the slice, in
   * order, one space after the previous one, the last one just before `]`.
   */
  lemma FormatArgsShowsEach(args: seq<Value>, i: nat)
    requires i < |args|
    ensures var s, o, t := FormatArgs(args), 1 + Offset(Texts(args), i), FormatValue(args[i]);
      && o + |t| < |s|
      && s[o..o + |t|] == t
      && (i + 1 < |args| ==> s[o + |t|] == ' ')
      && (i + 1 == |args| ==> o + |t| == |s| - 1)
  {
    var texts := Texts(args);
    assert texts[i] == FormatValue(args[i]);
    assert FormatArgs(args) == "[" + Join(texts) + "]";
    BracketedLayout(texts, i);
  }

  /** The number of times c occurs in s. */
  function Occurrences(c: char, s: string): nat
    decreases |s|
  {
    if s == [] then 0
    else Occurrences(c, s[..|s| - 1]) + (if s[|s| - 1] == c then 1 else 0)
  }

  lemma {:induction false} OccurrencesAppend(c: char, a: string, b: string)
    ensures Occurrences(c, a + b) == Occurrences(c, a) + Occurrences(c, b)
    decreases |b|
  {
    if b == [] {
      assert a + b == a;
    } else {
      assert (a + b)[..|a + b| - 1] == a + b[..|b| - 1];
      OccurrencesAppend(c, a, b[..|b| - 1]);
    }
  }

  lemma {:induction false} OccurrencesAbsent(c: char, s: string)
    requires c !in s
    ensures Occurrences(c, s) == 0
    decreases |s|
  {
    if s != [] {
      assert c !in s[..|s| - 1];
      OccurrencesAbsent(c, s[..|s| - 1]);
    }
  }
}
