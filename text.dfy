/** The two string conversions the request handler applies to an item id:
    `claim.replace("Q", "")` and Python's `int(...)` on the result. */
module Text {
  import opened Wrappers

  /** Removes EVERY 'Q' from `s`, not only a leading one. */
  function StripQ(s: string): (r: string)
    ensures |r| <= |s|
    ensures forall i :: 0 <= i < |r| ==> r[i] != 'Q'
    ensures (forall i :: 0 <= i < |s| ==> s[i] != 'Q') ==> r == s
  {
    if s == [] then []
    else if s[0] == 'Q' then StripQ(s[1..])
    else [s[0]] + StripQ(s[1..])
  }

  /** Stripping distributes over concatenation; together with the contract
      of StripQ and StripQDropsQ this fixes StripQ completely: it keeps
      every other character, in order, and drops each 'Q'. */
  lemma {:induction false} StripQConcat(a: string, b: string)
    ensures StripQ(a + b) == StripQ(a) + StripQ(b)
  {
    if a == [] {
      assert a + b == b;
    } else {
      assert (a + b)[0] == a[0];
      assert (a + b)[1..] == a[1..] + b;
      StripQConcat(a[1..], b);
    }
  }

  lemma StripQDropsQ()
    ensures StripQ("Q") == ""
  {
  }

  /** Stripping is idempotent. */
  lemma StripQIdempotent(s: string)
    ensures StripQ(StripQ(s)) == StripQ(s)
  {
  }

  /** The usual item ids lose their prefix, and inner 'Q's go too. */
  lemma StripQExamples()
    ensures StripQ("Q100") == "100"
    ensures StripQ("Q1Q2") == "12"
  {
    assert StripQ("Q100") == StripQ("100");
    assert StripQ("Q1Q2") == StripQ("1Q2") == "1" + StripQ("Q2");
  }

  predicate IsDigit(c: char) {
    '0' <= c <= '9'
  }

  predicate AllDigits(s: string) {
    forall i :: 0 <= i < |s| ==> IsDigit(s[i])
  }

  /** The value of a string of decimal digits, most significant first. */
  function DigitsValue(s: string): nat
    requires AllDigits(s)
  {
    if s == [] then 0
    else DigitsValue(s[..|s| - 1]) * 10 + (s[|s| - 1] as int - '0' as int)
  }

  /** Python's `int(s)` on text with an optional sign followed by at least
      one decimal digit; anything else raises ValueError, modelled as None. */
  function ParseInt(s: string): (r: Option<int>)
    ensures r.Some? ==> |s| > 0
    ensures r.Some? && s[0] != '-' ==> r.value >= 0
    ensures r.Some? && s[0] == '-' ==> r.value <= 0
    ensures AllDigits(s) && s != [] ==> r == Some(DigitsValue(s))
    ensures !AllDigits(s) && !(|s| > 0 && (s[0] == '+' || s[0] == '-')) ==> r == None
    ensures |s| > 1 && s[0] == '-' && AllDigits(s[1..]) ==> r.Some? && r.value == -(DigitsValue(s[1..]) as int)
    ensures |s| > 1 && s[0] == '+' && AllDigits(s[1..]) ==> r == Some(DigitsValue(s[1..]))
    ensures |s| > 0 && (s[0] == '+' || s[0] == '-') && !(|s| > 1 && AllDigits(s[1..])) ==> r == None
  {
    if |s| > 0 && (s[0] == '+' || s[0] == '-') then
      var digits := s[1..];
      if digits != [] && AllDigits(digits) then
        var magnitude: int := DigitsValue(digits);
        Some(if s[0] == '-' then -magnitude else magnitude)
      else None
    else if s != [] && AllDigits(s) then Some(DigitsValue(s))
    else None
  }

  /** The decimal text of a natural number, as Python's `str` writes it. */
  function DecimalText(n: nat): (r: string)
    ensures r != [] && AllDigits(r)
  {
    if n < 10 then [('0' as int + n) as char]
    else DecimalText(n / 10) + [('0' as int + n % 10) as char]
  }

  /** Reading back the decimal text of `n` gives `n`. */
  lemma {:induction false} DigitsValueOfDecimalText(n: nat)
    ensures DigitsValue(DecimalText(n)) == n
  {
    var t := DecimalText(n);
    if n >= 10 {
      assert t[..|t| - 1] == DecimalText(n / 10);
      DigitsValueOfDecimalText(n / 10);
    }
  }

  /** `int` inverts `str` on natural numbers, with or without a leading "Q"
      stripped first, which is how item ids travel in a submission. */
  lemma ParseIntOfItemId(n: nat)
    ensures ParseInt(DecimalText(n)) == Some(n)
    ensures ParseInt(StripQ("Q" + DecimalText(n))) == Some(n)
  {
    DigitsValueOfDecimalText(n);
    var t := DecimalText(n);
    assert ("Q" + t)[1..] == t;
  }

  /** `int` reads a signed decimal back with its sign; a sign with no
      digits after it is not an integer. */
  lemma ParseIntSigned(n: nat)
    ensures ParseInt("-" + DecimalText(n)).Some? && ParseInt("-" + DecimalText(n)).value == -(n as int)
    ensures ParseInt("+" + DecimalText(n)) == Some(n)
    ensures ParseInt("+") == None && ParseInt("-") == None
  {
    DigitsValueOfDecimalText(n);
    assert ("-" + DecimalText(n))[1..] == DecimalText(n);
    assert ("+" + DecimalText(n))[1..] == DecimalText(n);
  }
}
