/**
 * The string handling that trigger expressions need: the decimal rendering a
 * JavaScript template literal gives a non-negative integer, its inverse, and
 * splitting an expression into its space-separated fields.
 */
module Text {
  import opened Domain

  predicate IsDigit(c: char) {
    '0' <= c <= '9'
  }

  predicate AllDigits(s: string) {
    forall i :: 0 <= i < |s| ==> IsDigit(s[i])
  }

  function DigitChar(d: nat): (c: char)
    requires d < 10
    ensures IsDigit(c) && (c as int) - ('0' as int) == d
  {
    ['0', '1', '2', '3', '4', '5', '6', '7', '8', '9'][d]
  }

  /** The decimal digits of `n`, most significant first, without leading zeros. */
  function NatToString(n: nat): (s: string)
    ensures |s| >= 1 && AllDigits(s)
    ensures |s| > 1 ==> s[0] != '0'
    decreases n
  {
    if n < 10 then [DigitChar(n)] else NatToString(n / 10) + [DigitChar(n % 10)]
  }

  /** The number a non-empty string of decimal digits denotes. */
  function DigitsValue(s: string): nat
    requires AllDigits(s)
    decreases |s|
  {
    if s == [] then 0
    else DigitsValue(s[..|s| - 1]) * 10 + ((s[|s| - 1] as int) - ('0' as int))
  }

  /** Reads a decimal number; anything but a non-empty run of digits is refused. */
  function ParseNat(s: string): (r: Option<nat>)
    ensures r.Some? <==> |s| >= 1 && AllDigits(s)
  {
    if |s| >= 1 && AllDigits(s) then Some(DigitsValue(s)) else None
  }

  /** Reading back the rendering of `n` gives `n`. */
  lemma {:induction false} ParseNatToString(n: nat)
    ensures ParseNat(NatToString(n)) == Some(n)
    decreases n
  {
    var s := NatToString(n);
    if n >= 10 {
      ParseNatToString(n / 10);
      var p := NatToString(n / 10);
      assert s[..|s| - 1] == p;
      assert DigitsValue(s) == DigitsValue(p) * 10 + n % 10;
    }
  }

  /**
   * The reader's split of an expression into fields: the pieces between
   * single spaces, as JavaScript's `split(' ')` gives them, so `k` spaces give
   * `k + 1` pieces, some of which may be empty.
   */
  function Fields(s: string): (r: seq<string>)
    ensures |r| >= 1
    decreases |s|
  {
    if s == [] then [""]
    else
      var rest := Fields(s[1..]);
      if s[0] == ' ' then [""] + rest else [[s[0]] + rest[0]] + rest[1..]
  }

  predicate NoSpace(s: string) {
    ' ' !in s
  }

  /** A space-free word followed by a space and more text splits off as one field. */
  lemma {:induction false} FieldsPrefix(word: string, rest: string)
    requires NoSpace(word)
    ensures Fields(word + " " + rest) == [word] + Fields(rest)
    decreases |word|
  {
    if word == [] {
      assert word + " " + rest == " " + rest;
      assert (" " + rest)[1..] == rest;
    } else {
      var s := word + " " + rest;
      assert s[0] == word[0];
      assert s[1..] == word[1..] + " " + rest;
      FieldsPrefix(word[1..], rest);
      assert [word[0]] + word[1..] == word;
    }
  }

  /** A space-free string is a single field. */
  lemma {:induction false} FieldsOfWord(word: string)
    requires NoSpace(word)
    ensures Fields(word) == [word]
    decreases |word|
  {
    if word != [] {
      FieldsOfWord(word[1..]);
      assert [word[0]] + word[1..] == word;
    }
  }

  lemma NatToStringNoSpace(n: nat)
    ensures NoSpace(NatToString(n))
  {
    var s := NatToString(n);
    forall i | 0 <= i < |s| ensures s[i] != ' ' {
      assert IsDigit(s[i]);
    }
  }

  /** `parts.join(' ')`. */
  function Join(parts: seq<string>): string
    requires |parts| >= 1
    decreases |parts|
  {
    if |parts| == 1 then parts[0] else parts[0] + " " + Join(parts[1..])
  }

  /** Splitting undoes joining, as long as no part holds a space. */
  lemma {:induction false} FieldsJoin(parts: seq<string>)
    requires |parts| >= 1
    requires forall k :: 0 <= k < |parts| ==> NoSpace(parts[k])
    ensures Fields(Join(parts)) == parts
    decreases |parts|
  {
    if |parts| == 1 {
      FieldsOfWord(parts[0]);
    } else {
      FieldsJoin(parts[1..]);
      FieldsPrefix(parts[0], Join(parts[1..]));
      assert [parts[0]] + parts[1..] == parts;
    }
  }
}
