/**
 * Rendering of the output lines: the decimal status text that `strconv.Itoa`
 * produces and the `<status>\t<url>\n` line that both printers write to
 * standard output. Each renderer comes with an independent parser, and the
 * lemmas show that parsing undoes rendering.
 */
module Format {
  import opened Wrappers

  predicate IsDigit(c: char) {
    '0' <= c <= '9'
  }

  predicate AllDigits(s: string) {
    forall i :: 0 <= i < |s| ==> IsDigit(s[i])
  }

  function DigitValue(c: char): (d: nat)
    requires IsDigit(c)
    ensures d < 10
  {
    c as int - '0' as int
  }

  function DigitChar(d: nat): (c: char)
    requires d < 10
    ensures IsDigit(c) && DigitValue(c) == d
  {
    (d + '0' as int) as char
  }

  /** The decimal digits of `n`, most significant first, without leading zeros. */
  function NatToDecimal(n: nat): (s: string)
    ensures |s| >= 1 && AllDigits(s)
    ensures (s[0] == '0') == (n == 0)
    ensures n < 10 <==> |s| == 1
    decreases n
  {
    if n < 10 then [DigitChar(n)] else NatToDecimal(n / 10) + [DigitChar(n % 10)]
  }

  /** `strconv.Itoa`: an optional minus sign followed by the digits of |n|. */
  function Itoa(n: int): (s: string)
    ensures |s| >= 1
    ensures (s[0] == '-') == (n < 0)
    ensures AllDigits(if n < 0 then s[1..] else s)
  {
    if n < 0 then "-" + NatToDecimal(-n) else NatToDecimal(n)
  }

  /** The value of a string of decimal digits (the empty string is 0). */
  function DecimalValue(s: string): nat
    requires AllDigits(s)
    decreases |s|
  {
    if s == [] then 0 else DecimalValue(s[..|s| - 1]) * 10 + DigitValue(s[|s| - 1])
  }

  /** Reads back an optionally signed decimal integer; anything else is `None`. */
  function ParseDecimal(s: string): Option<int> {
    if |s| >= 2 && s[0] == '-' && AllDigits(s[1..]) then Some(-(DecimalValue(s[1..]) as int))
    else if |s| >= 1 && AllDigits(s) then Some(DecimalValue(s))
    else None
  }

  lemma {:induction false} NatToDecimalRoundTrip(n: nat)
    ensures DecimalValue(NatToDecimal(n)) == n
    decreases n
  {
    if n >= 10 {
      NatToDecimalRoundTrip(n / 10);
      var high := NatToDecimal(n / 10);
      var s := high + [DigitChar(n % 10)];
      assert s[..|s| - 1] == high;
    }
  }

  /** The digits of `n` parse back to `n`. */
  lemma UnsignedRoundTrip(n: nat)
    ensures ParseDecimal(NatToDecimal(n)) == Some(n)
  {
    var d := NatToDecimal(n);
    NatToDecimalRoundTrip(n);
    assert IsDigit(d[0]);
  }

  /** A minus sign before the digits of `n` parses back to `-n`. */
  lemma SignedRoundTrip(n: nat)
    ensures ParseDecimal("-" + NatToDecimal(n)) == Some(-(n as int))
  {
    var d := NatToDecimal(n);
    NatToDecimalRoundTrip(n);
    assert ("-" + d)[1..] == d;
  }

  /** Parsing the text `Itoa` produces gives back the number. */
  lemma ItoaRoundTrip(n: int)
    ensures ParseDecimal(Itoa(n)) == Some(n)
  {
    if n < 0 {
      SignedRoundTrip(-n);
    } else {
      UnsignedRoundTrip(n);
    }
  }

  /** `Itoa` never renders two different numbers the same way. */
  lemma ItoaInjective(m: int, n: int)
    requires Itoa(m) == Itoa(n)
    ensures m == n
  {
    ItoaRoundTrip(m);
    ItoaRoundTrip(n);
  }

  /** One line of standard output: `fmt.Fprintf(os.Stdout, "%s\t%s\n", status, url)`. */
  function Line(status: string, url: string): (r: string)
    ensures |r| == |status| + |url| + 2
    ensures r[..|status|] == status && r[|status|] == '\t'
    ensures r[|status| + 1..|r| - 1] == url && r[|r| - 1] == '\n'
  {
    var r := status + "\t" + url + "\n";
    assert r == status + "\t" + (url + "\n");
    r
  }

  /** The position of the first tab of `s`, or `|s|` when it has none. */
  function TabIndex(s: string): (k: nat)
    ensures k <= |s|
    ensures k < |s| ==> s[k] == '\t'
    ensures forall j :: 0 <= j < k ==> s[j] != '\t'
  {
    if s == [] then 0 else if s[0] == '\t' then 0 else 1 + TabIndex(s[1..])
  }

  /** Splits an output line into its status text and URL. */
  function ParseLine(line: string): Option<(string, string)> {
    var k := TabIndex(line);
    if k < |line| && line[|line| - 1] == '\n' && k + 1 <= |line| - 1 then
      Some((line[..k], line[k + 1..|line| - 1]))
    else
      None
  }

  lemma {:induction false} TabIndexAfter(status: string, rest: string)
    requires '\t' !in status
    ensures TabIndex(status + "\t" + rest) == |status|
    decreases |status|
  {
    if status != [] {
      assert (status + "\t" + rest)[1..] == status[1..] + "\t" + rest;
      TabIndexAfter(status[1..], rest);
    }
  }

  /**
   * A status text without a tab is read back from its line unchanged, and so
   * is the URL, whatever characters (tabs included) it holds.
   */
  lemma LineRoundTrip(status: string, url: string)
    requires '\t' !in status
    ensures ParseLine(Line(status, url)) == Some((status, url))
  {
    TabIndexAfter(status, url + "\n");
    assert Line(status, url) == status + "\t" + (url + "\n");
  }

  /** The text of `Itoa` never contains a tab, so its line parses back. */
  lemma ItoaHasNoTab(n: int)
    ensures '\t' !in Itoa(n)
  {
  }
}
