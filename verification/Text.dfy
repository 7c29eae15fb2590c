/** Text as words: splitting at white space, joining with single spaces, and numbers in decimal. */
module Text {
  import opened Types

  /** Unicode white space. */
  predicate IsSpace(c: char) {
    || '\t' <= c <= '\r' || c == ' ' || c == '\U{85}' || c == '\U{A0}' || c == '\U{1680}'
    || '\U{2000}' <= c <= '\U{200A}' || c == '\U{2028}' || c == '\U{2029}' || c == '\U{202F}' || c == '\U{205F}' || c == '\U{3000}'
  }

  predicate NoSpace(s: string) { forall i :: 0 <= i < |s| ==> !IsSpace(s[i]) }

  /** A nonempty single word. */
  predicate IsWord(s: string) { s != "" && NoSpace(s) }

  /** How far the first word of `s` reaches. */
  function WordEnd(s: string): (k: nat)
    ensures k <= |s| && NoSpace(s[..k]) && (k < |s| ==> IsSpace(s[k]))
  {
    if s == "" || IsSpace(s[0]) then 0
    else
      assert s[..1 + WordEnd(s[1..])] == [s[0]] + s[1..][..WordEnd(s[1..])];
      1 + WordEnd(s[1..])
  }

  /** The words of `s`. */
  function Words(s: string): seq<string> {
    if s == "" then []
    else if IsSpace(s[0]) then Words(s[1..])
    else [s[..WordEnd(s)]] + Words(s[WordEnd(s)..])
  }

  /** The words with a space in between. */
  function Join(words: seq<string>): string {
    if words == [] then "" else if |words| == 1 then words[0] else words[0] + " " + Join(words[1..])
  }

  ghost predicate AllWords(words: seq<string>) { forall i {:trigger words[i]} :: 0 <= i < |words| ==> IsWord(words[i]) }

  lemma {:induction false} WordEndOf(w: string, rest: string)
    requires NoSpace(w) && (rest == "" || IsSpace(rest[0]))
    ensures WordEnd(w + rest) == |w|
  {
    if w != "" {
      assert (w + rest)[1..] == w[1..] + rest;
      WordEndOf(w[1..], rest);
    }
  }

  lemma FirstWord(w: string, rest: string)
    requires IsWord(w) && (rest == "" || IsSpace(rest[0]))
    ensures Words(w + rest) == [w] + Words(rest)
  {
    WordEndOf(w, rest);
    assert (w + rest)[..|w|] == w && (w + rest)[|w|..] == rest;
  }

  /** Splitting what was joined gives the words back. */
  lemma {:induction false} WordsOfJoin(words: seq<string>)
    requires AllWords(words)
    ensures Words(Join(words)) == words
  {
    if |words| == 1 {
      FirstWord(words[0], "");
      assert words[0] + "" == words[0];
    } else if |words| > 1 {
      var rest := " " + Join(words[1..]);
      FirstWord(words[0], rest);
      assert rest[1..] == Join(words[1..]);
      assert words[0] + " " + Join(words[1..]) == words[0] + rest;
      WordsOfJoin(words[1..]);
    }
  }

  /** What splitting gives are words. */
  lemma {:induction false} WordsAreWords(s: string)
    ensures AllWords(Words(s))
    decreases |s|
  {
    if s != "" {
      if IsSpace(s[0]) {
        WordsAreWords(s[1..]);
      } else {
        assert WordEnd(s) > 0;
        WordsAreWords(s[WordEnd(s)..]);
      }
    }
  }

  lemma {:induction false} JoinMore(a: seq<string>, b: seq<string>)
    requires a != [] && b != []
    ensures Join(a + b) == Join(a) + " " + Join(b)
  {
    if |a| == 1 {
      assert (a + b)[1..] == b;
    } else {
      assert (a + b)[1..] == a[1..] + b;
      JoinMore(a[1..], b);
      assert a[0] + " " + (Join(a[1..]) + " " + Join(b)) == a[0] + " " + Join(a[1..]) + " " + Join(b);
    }
  }

  // ---------------------------------------------------------------------------
  // Numbers

  const Limit: nat := 0x1_0000_0000_0000_0000

  type Number = n: nat | n < Limit

  function Digit(d: nat): char
    requires d < 10
  {
    "0123456789"[d]
  }

  predicate IsDigit(c: char) { '0' <= c <= '9' }

  function DigitValue(c: char): nat
    requires IsDigit(c)
  {
    c as int - '0' as int
  }

  function Decimal(n: nat): (s: string)
    ensures s != "" && forall i :: 0 <= i < |s| ==> IsDigit(s[i])
  {
    if n < 10 then [Digit(n)] else Decimal(n / 10) + [Digit(n % 10)]
  }

  predicate AllDigits(s: string) { forall i :: 0 <= i < |s| ==> IsDigit(s[i]) }

  function ValueOf(s: string): nat
    requires AllDigits(s)
  {
    if s == "" then 0 else 10 * ValueOf(s[..|s| - 1]) + DigitValue(s[|s| - 1])
  }

  /** A number as the standard library parses one: digits after an optional plus sign, below the limit. */
  function Parse(word: string): Option<Number> {
    var digits := if word != "" && word[0] == '+' then word[1..] else word;
    if digits == "" || !AllDigits(digits) || ValueOf(digits) >= Limit then None else Some(ValueOf(digits))
  }

  lemma {:induction false} ValueOfDecimal(n: nat)
    ensures ValueOf(Decimal(n)) == n
  {
    if n >= 10 {
      ValueOfDecimal(n / 10);
      assert Decimal(n)[..|Decimal(n)| - 1] == Decimal(n / 10);
    }
  }

  lemma DecimalIsWord(n: nat)
    ensures IsWord(Decimal(n))
  {
    forall i | 0 <= i < |Decimal(n)|
      ensures !IsSpace(Decimal(n)[i])
    {
      assert IsDigit(Decimal(n)[i]);
    }
  }

  /** Parsing recovers what was printed. */
  lemma ParseDecimal(n: Number)
    ensures Parse(Decimal(n)) == Some(n)
  {
    ValueOfDecimal(n);
    assert IsDigit(Decimal(n)[0]);
  }

  function Pow10(k: nat): nat { if k == 0 then 1 else 10 * Pow10(k - 1) }

  /** Appends a number: its digits fill a buffer of 20 from the end, which are enough for any. */
  method PushNumber(out: string, number: Number) returns (text: string)
    ensures text == out + Decimal(number) && |Decimal(number)| <= 20
  {
    var digits := new char[20](_ => '0');
    var start := 20;
    var n: nat := number;
    assert Pow10(20) == 100_000_000_000_000_000_000 by { Pow10Of20(); }
    ghost var done := "";
    while true
      invariant 0 < start <= 20 && n < Pow10(start) && digits[start..] == done
      invariant Decimal(number) == (if done == "" then Decimal(n) else Decimal(n) + done)
      decreases start
    {
      start := start - 1;
      digits[start] := Digit(n % 10);
      done := [Digit(n % 10)] + done;
      assert digits[start..] == done;
      if n / 10 == 0 {
        break;
      }
      assert Decimal(n) == Decimal(n / 10) + [Digit(n % 10)];
      n := n / 10;
    }
    text := out + digits[start..];
  }

  lemma Pow10Of20()
    ensures Pow10(20) == 100_000_000_000_000_000_000
  {
    assert Pow10(5) == 100_000;
    assert Pow10(10) == 10_000_000_000;
    assert Pow10(15) == 1_000_000_000_000_000;
  }
}
