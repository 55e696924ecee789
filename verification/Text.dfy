/** Decimal numerals, delimited text, and when joining with a separator loses nothing. */
module Text {
  import opened Wrappers

  predicate IsDigit(c: char) {
    '0' <= c <= '9'
  }

  function Digit(d: nat): (c: char)
    requires d < 10
    ensures IsDigit(c)
  {
    '0' + d as char
  }

  /** The `%d` verb on a natural number. */
  function Decimal(n: nat): (s: string)
    ensures s != "" && forall i :: 0 <= i < |s| ==> IsDigit(s[i])
  {
    if n < 10 then [Digit(n)] else Decimal(n / 10) + [Digit(n % 10)]
  }

  /** Base ten, most significant digit first. */
  lemma DecimalIsBaseTen(n: nat)
    ensures n < 10 ==> Decimal(n) == ["0123456789"[n]]
    ensures n >= 10 ==> Decimal(n) == Decimal(n / 10) + Decimal(n % 10)
  {
    var digits := "0123456789";
    assert digits[0] == '0' && digits[1] == '1' && digits[2] == '2' && digits[3] == '3' && digits[4] == '4';
    assert digits[5] == '5' && digits[6] == '6' && digits[7] == '7' && digits[8] == '8' && digits[9] == '9';
  }

  function ParseDecimal(s: string): Option<nat> {
    if s == "" then None
    else
      var last := s[|s| - 1];
      if !IsDigit(last) then None
      else
        var d := (last as int) - ('0' as int);
        if |s| == 1 then Some(d)
        else match ParseDecimal(s[..|s| - 1]) case None => None case Some(n) => Some(10 * n + d)
  }

  lemma {:induction false} DecimalRoundTrip(n: nat)
    ensures ParseDecimal(Decimal(n)) == Some(n)
  {
    var s := Decimal(n);
    if n >= 10 {
      DecimalRoundTrip(n / 10);
      assert s[..|s| - 1] == Decimal(n / 10);
    }
  }

  /** The length of the longest prefix of `s` that has no character of `stops`. */
  function Run(s: string, stops: set<char>): (n: nat)
    ensures n <= |s|
  {
    if s == "" || s[0] in stops then 0 else 1 + Run(s[1..], stops)
  }

  lemma {:induction false} RunStopsAt(word: string, rest: string, stops: set<char>)
    requires forall i :: 0 <= i < |word| ==> word[i] !in stops
    requires rest == "" || rest[0] in stops
    ensures Run(word + rest, stops) == |word|
  {
    if word == "" {
      assert word + rest == rest;
    } else {
      assert (word + rest)[1..] == word[1..] + rest;
      RunStopsAt(word[1..], rest, stops);
    }
  }

  /** Text after a separator it does not contain is determined by the joined text, and so is the text before. */
  lemma {:induction false} JoinIsInjective(a: string, x: string, b: string, y: string, separator: char)
    requires separator !in x && separator !in y
    requires a + [separator] + x == b + [separator] + y
    ensures a == b && x == y
  {
    var s, t := a + [separator] + x, b + [separator] + y;
    assert s[|s| - 1] == if x == "" then separator else x[|x| - 1];
    assert t[|t| - 1] == if y == "" then separator else y[|y| - 1];
    assert (x == "") == (y == "");
    if x == "" {
      assert s[..|s| - 1] == a && t[..|t| - 1] == b;
    } else {
      assert s[..|s| - 1] == a + [separator] + x[..|x| - 1];
      assert t[..|t| - 1] == b + [separator] + y[..|y| - 1];
      JoinIsInjective(a, x[..|x| - 1], b, y[..|y| - 1], separator);
      assert x == x[..|x| - 1] + [x[|x| - 1]] && y == y[..|y| - 1] + [y[|y| - 1]];
    }
  }
}
