/** The harvest-date input mask of the farmer dashboard (`handleDateChange`):
    keep the digits of what was typed and lay the first eight of them out as
    `DD-MM-YYYY`, with a dash only once a digit follows it. */
module DateMask {
  import opened Common

  /** `text.replace(/[^0-9]/g, '')` */
  function Digits(s: string): (r: string)
    ensures |r| <= |s| && AllDigits(r)
  {
    if s == [] then [] else (if IsDigit(s[0]) then [s[0]] else []) + Digits(s[1..])
  }

  function Min(a: int, b: int): int
  {
    if a <= b then a else b
  }

  /** The new value of the harvest-date field after `text` was typed. */
  function FormatDate(text: string): (r: string)
    ensures |r| <= 10
    ensures forall i :: 0 <= i < |r| ==> IsDigit(r[i]) || r[i] == '-'
  {
    var d := Digits(text);
    if |d| <= 2 then d
    else if |d| <= 4 then d[..2] + "-" + d[2..]
    else d[..2] + "-" + d[2..4] + "-" + d[4..Min(|d|, 8)]
  }

  lemma {:induction false} DigitsAppend(a: string, b: string)
    ensures Digits(a + b) == Digits(a) + Digits(b)
  {
    if a == [] {
      assert a + b == b;
    } else {
      assert (a + b)[0] == a[0];
      assert (a + b)[1..] == a[1..] + b;
      DigitsAppend(a[1..], b);
    }
  }

  lemma {:induction false} DigitsOfDigits(s: string)
    requires AllDigits(s)
    ensures Digits(s) == s
  {
    if s != [] {
      DigitsOfDigits(s[1..]);
      assert s == [s[0]] + s[1..];
    }
  }

  lemma DigitsOfDash()
    ensures Digits("-") == ""
  {
    assert "-"[1..] == "";
  }

  /** Digits(x + "-" + y) for strings of digits */
  lemma {:induction false} DigitsAroundDash(x: string, y: string)
    requires AllDigits(x) && AllDigits(y)
    ensures Digits(x + "-" + y) == x + y
  {
    var xd := x + "-";
    DigitsAppend(xd, y);
    DigitsAppend(x, "-");
    DigitsOfDash();
    DigitsOfDigits(x);
    DigitsOfDigits(y);
    calc {
      Digits(x + "-" + y);
      Digits(xd) + Digits(y);
      (Digits(x) + Digits("-")) + Digits(y);
      x + y;
    }
  }

  /** The digits of the masked value are the first (at most eight) digits typed;
      every other character typed is dropped. */
  lemma {:induction false} FormatKeepsDigits(text: string)
    ensures Digits(FormatDate(text)) == Digits(text)[..Min(|Digits(text)|, 8)]
  {
    var d := Digits(text);
    var n := |d|;
    if n <= 2 {
      DigitsOfDigits(d);
    } else if n <= 4 {
      DigitsAroundDash(d[..2], d[2..]);
      assert d[..2] + d[2..] == d;
    } else {
      var m := Min(n, 8);
      var a, b, c := d[..2], d[2..4], d[4..m];
      assert FormatDate(text) == (a + "-" + b) + ("-" + c);
      DigitsAroundDash(a, b);
      DigitsAppend(a + "-" + b, "-" + c);
      DigitsAppend("-", c);
      DigitsOfDash();
      DigitsOfDigits(c);
      assert a + b + c == d[..m];
    }
  }

  /** The length of the masked value, and where its dashes are: after the second digit
      when more than two digits were typed, after the fourth when more than four, and
      nowhere else. */
  lemma {:induction false} FormatDashes(text: string)
    ensures var n := |Digits(text)|;
            |FormatDate(text)| == Min(n, 8) + (if n > 4 then 2 else if n > 2 then 1 else 0)
    ensures var n := |Digits(text)|; var r := FormatDate(text);
            forall i :: 0 <= i < |r| ==> (r[i] == '-' <==> (i == 2 && n > 2) || (i == 5 && n > 4))
  {
  }

  /** Masking the masked value again changes nothing. */
  lemma {:induction false} FormatIdempotent(text: string)
    ensures FormatDate(FormatDate(text)) == FormatDate(text)
  {
    var d := Digits(text);
    var r := FormatDate(text);
    FormatKeepsDigits(text);
    var d' := Digits(r);
    assert d' == d[..Min(|d|, 8)];
    if |d| <= 4 {
      assert d' == d;
    } else {
      assert |d'| == Min(|d|, 8);
      assert d'[..2] == d[..2] && d'[2..4] == d[2..4] && d'[4..Min(|d'|, 8)] == d[4..Min(|d|, 8)];
    }
  }
}
