/** Vocabulary shared by every layer: optional values, bytes, scripted inputs and decimal text. */
module Basics {

  datatype Option<+T> = None | Some(value: T)

  type byte = n: int | 0 <= n < 256

  /** The next value of a script of outside inputs, or `default` once the script has run out. */
  function Head<T>(script: seq<T>, default: T): T {
    if script == [] then default else script[0]
  }

  function Tail<T>(script: seq<T>): seq<T> {
    if script == [] then [] else script[1..]
  }

  predicate IsDigit(c: char) {
    '0' <= c <= '9'
  }

  /** Decimal text of a number, as std::to_string and a JavaScript template print it. */
  function Decimal(n: nat): (text: string)
    ensures text != []
    ensures n >= 10 ==> |text| >= 2
    ensures forall i :: 0 <= i < |text| ==> IsDigit(text[i])
  {
    var digit := ('0' as int + n % 10) as char;
    if n < 10 then [digit] else Decimal(n / 10) + [digit]
  }

  lemma {:induction false} DecimalInjective(a: nat, b: nat)
    requires Decimal(a) == Decimal(b)
    ensures a == b
  {
    var x, y := Decimal(a), Decimal(b);
    assert x[|x| - 1] == y[|y| - 1];
    assert a % 10 == b % 10;
    if a >= 10 && b >= 10 {
      assert Decimal(a / 10) == x[..|x| - 1];
      assert Decimal(b / 10) == y[..|y| - 1];
      DecimalInjective(a / 10, b / 10);
    }
  }

  // -------------------------------------------------------------------------
  // What a text says
  // -------------------------------------------------------------------------

  predicate AllDigits(text: string) {
    forall i :: 0 <= i < |text| ==> '0' <= text[i] <= '9'
  }

  /** The value of a decimal numeral, most significant digit first. */
  function Numeral(text: string): nat
    requires AllDigits(text)
  {
    if text == [] then 0 else Numeral(text[..|text| - 1]) * 10 + (text[|text| - 1] as int - '0' as int)
  }

  /** The text is the numeral of a number, without leading zeros. */
  predicate Names(text: string, n: nat) {
    text != [] && AllDigits(text) && Numeral(text) == n && (|text| > 1 ==> text[0] != '0')
  }

  lemma {:induction false} DecimalNames(n: nat)
    ensures Names(Decimal(n), n)
  {
    var text := Decimal(n);
    if n >= 10 {
      DecimalNames(n / 10);
      assert text[..|text| - 1] == Decimal(n / 10);
      if |Decimal(n / 10)| == 1 {
        assert Numeral(Decimal(n / 10)) == Numeral([]) * 10 + (text[0] as int - '0' as int);
      }
    } else {
      assert text[..0] == [];
    }
  }

  /** A number has one numeral. */
  lemma {:induction false} NamesOnce(text: string, n: nat)
    ensures Names(text, n) <==> text == Decimal(n)
    decreases |text|
  {
    DecimalNames(n);
    if Names(text, n) {
      var front, last := text[..|text| - 1], text[|text| - 1];
      assert n == Numeral(front) * 10 + (last as int - '0' as int);
      assert last == ('0' as int + n % 10) as char;
      if |text| > 1 {
        LeadingDigit(front);
        assert Names(front, n / 10);
        NamesOnce(front, n / 10);
      } else {
        assert front == [];
      }
      assert text == front + [last];
    }
  }

  lemma {:induction false} LeadingDigit(text: string)
    requires text != [] && AllDigits(text) && text[0] != '0'
    ensures Numeral(text) > 0
    decreases |text|
  {
    if |text| > 1 {
      LeadingDigit(text[..|text| - 1]);
    }
  }

  /** A level in words: the given dash for none, otherwise its numeral and a percent sign. */
  predicate SaysLevel(text: string, level: Option<byte>, dash: string) {
    match level
    case None => text == dash
    case Some(n) => |text| > 0 && text[|text| - 1] == '%' && Names(text[..|text| - 1], n)
  }

  lemma PercentSays(text: string, n: byte)
    ensures |text| > 0 && text[|text| - 1] == '%' && Names(text[..|text| - 1], n) <==> text == Decimal(n) + "%"
  {
    if |text| > 0 {
      NamesOnce(text[..|text| - 1], n);
      if text[|text| - 1] == '%' {
        assert text == text[..|text| - 1] + "%";
      }
    }
  }

  lemma CancelLead(lead: string, x: string, y: string)
    requires lead + x == lead + y
    ensures x == y
  {
    assert (lead + x)[|lead|..] == x && (lead + y)[|lead|..] == y;
  }

  /** Text that ends at the first separator splits in only one way. */
  lemma SplitUnique(sep: char, a: string, x: string, b: string, y: string)
    requires a + x == b + y
    requires sep !in a && sep !in b
    requires x != [] ==> x[0] == sep
    requires y != [] ==> y[0] == sep
    ensures a == b && x == y
  {
    var s := a + x;
    assert forall i :: 0 <= i < |a| ==> s[i] == a[i] != sep;
    assert forall i :: 0 <= i < |b| ==> s[i] == (b + y)[i] == b[i] != sep;
    assert |a| < |s| ==> s[|a|] == x[0] == sep;
    assert |b| < |s| ==> s[|b|] == (b + y)[|b|] == y[0] == sep;
    assert a == (a + x)[..|a|] == (b + y)[..|b|];
    assert x == (a + x)[|a|..] == (b + y)[|b|..];
  }
}
