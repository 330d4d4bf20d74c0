/**
 * String helpers used by the models, each the counterpart of one Kotlin
 * standard-library call: `startsWith`, `endsWith`, `Char.isDigit`,
 * `filter`/`filterNot` on characters, `String.toInt` and
 * `contains(other, ignoreCase = true)`. Characters are compared as ASCII.
 */
module Text {
  import opened Wrappers

  /** The largest value of Kotlin's `Int`. */
  const MaxInt: int := 0x7fff_ffff

  predicate StartsWith(s: string, prefix: string)
  {
    |prefix| <= |s| && s[..|prefix|] == prefix
  }

  predicate EndsWith(s: string, suffix: string)
  {
    |suffix| <= |s| && s[|s| - |suffix|..] == suffix
  }

  predicate IsDigit(c: char)
  {
    '0' <= c <= '9'
  }

  /** `text.all { it.isDigit() }`: vacuously true of the empty string. */
  predicate AllDigits(s: string)
  {
    forall i :: 0 <= i < |s| ==> IsDigit(s[i])
  }

  /** `text.filter { it.isDigit() }` */
  function DigitsOf(s: string): (r: string)
    ensures AllDigits(r)
    ensures |r| <= |s|
    ensures AllDigits(s) ==> r == s
  {
    if |s| == 0 then []
    else (if IsDigit(s[0]) then [s[0]] else []) + DigitsOf(s[1..])
  }

  lemma {:induction false} DigitsOfAppend(s: string, t: string)
    ensures DigitsOf(s + t) == DigitsOf(s) + DigitsOf(t)
  {
    if |s| == 0 {
      assert s + t == t;
    } else {
      assert (s + t)[0] == s[0];
      assert (s + t)[1..] == s[1..] + t;
      DigitsOfAppend(s[1..], t);
    }
  }

  lemma {:induction false} DigitsOfNoDigits(s: string)
    requires forall i :: 0 <= i < |s| ==> !IsDigit(s[i])
    ensures DigitsOf(s) == []
  {
    if |s| > 0 {
      DigitsOfNoDigits(s[1..]);
    }
  }

  /** Number of occurrences of `c` in `s`. */
  function Count(s: string, c: char): nat
  {
    if |s| == 0 then 0 else (if s[0] == c then 1 else 0) + Count(s[1..], c)
  }

  /** `text.filterNot { it == c }` */
  function Remove(s: string, c: char): (r: string)
    ensures c !in r
    ensures |r| == |s| - Count(s, c)
    ensures c !in s ==> r == s
  {
    if |s| == 0 then []
    else (if s[0] == c then [] else [s[0]]) + Remove(s[1..], c)
  }

  lemma {:induction false} CountAppend(s: string, t: string, c: char)
    ensures Count(s + t, c) == Count(s, c) + Count(t, c)
  {
    if |s| > 0 {
      assert (s + t)[0] == s[0];
      assert (s + t)[1..] == s[1..] + t;
      CountAppend(s[1..], t, c);
    } else {
      assert s + t == t;
    }
  }

  /** Counting one more character of `s`. */
  lemma CountPrefixStep(s: string, j: nat, c: char)
    requires j < |s|
    ensures Count(s[..j + 1], c) == Count(s[..j], c) + (if s[j] == c then 1 else 0)
  {
    assert s[..j + 1] == s[..j] + [s[j]];
    CountAppend(s[..j], [s[j]], c);
  }

  // ---------------------------------------------------------------------------
  // Decimal numbers
  // ---------------------------------------------------------------------------

  /** The value of a string of decimal digits (0 for the empty string). */
  function DecimalValue(s: string): nat
    requires AllDigits(s)
  {
    if |s| == 0 then 0 else DecimalValue(s[..|s| - 1]) * 10 + (s[|s| - 1] as int - '0' as int)
  }

  /**
   * `String.toInt()` on a string of digits: None where Kotlin throws
   * NumberFormatException, for the empty string and above `Int.MAX_VALUE`.
   */
  function ToInt(s: string): (r: Option<int>)
    requires AllDigits(s)
    ensures r.Some? ==> 0 <= r.value <= MaxInt
    ensures r.None? <==> |s| == 0 || DecimalValue(s) > MaxInt
  {
    if |s| == 0 || DecimalValue(s) > MaxInt then None else Some(DecimalValue(s))
  }

  /** The decimal representation of `n`, as `n.toString()`. */
  function DecimalString(n: nat): (r: string)
    ensures |r| > 0 && AllDigits(r)
  {
    var d := [('0' as int + n % 10) as char];
    if n < 10 then d else DecimalString(n / 10) + d
  }

  lemma {:induction false} DecimalValueOfString(n: nat)
    ensures DecimalValue(DecimalString(n)) == n
  {
    var d := [('0' as int + n % 10) as char];
    if n >= 10 {
      DecimalValueOfString(n / 10);
      var s := DecimalString(n / 10) + d;
      assert s[..|s| - 1] == DecimalString(n / 10);
    }
  }

  /** Round trip: `n.toString().toInt() == n` for every non-negative Int. */
  lemma ToIntOfDecimalString(n: nat)
    requires n <= MaxInt
    ensures ToInt(DecimalString(n)) == Some(n)
  {
    DecimalValueOfString(n);
  }

  // ---------------------------------------------------------------------------
  // Case-insensitive search
  // ---------------------------------------------------------------------------

  function UpperCase(c: char): char
  {
    if 'a' <= c <= 'z' then (c as int - 32) as char else c
  }

  /** `Char.equals(other, ignoreCase = true)` */
  predicate EqualsIgnoreCase(a: char, b: char)
  {
    UpperCase(a) == UpperCase(b)
  }

  /** `pattern` occurs in `text` at position `i`, ignoring case. */
  predicate MatchesAt(text: string, i: nat, pattern: string)
  {
    i + |pattern| <= |text| &&
    forall j :: 0 <= j < |pattern| ==> EqualsIgnoreCase(text[i + j], pattern[j])
  }

  /** `text.contains(pattern, ignoreCase = true)`, scanning start positions left to right. */
  function ContainsIgnoreCase(text: string, pattern: string): (r: bool)
    ensures r <==> exists i :: 0 <= i <= |text| - |pattern| && MatchesAt(text, i, pattern)
    decreases |text|
  {
    if |pattern| > |text| then false
    else if MatchesAt(text, 0, pattern) then true
    else
      var rest := ContainsIgnoreCase(text[1..], pattern);
      MatchesAfterFirst(text, pattern);
      rest
  }

  lemma MatchesAfterFirst(text: string, pattern: string)
    requires |text| > 0
    ensures (exists i :: 1 <= i <= |text| - |pattern| && MatchesAt(text, i, pattern))
        <==> (exists i :: 0 <= i <= |text[1..]| - |pattern| && MatchesAt(text[1..], i, pattern))
  {
    forall i | 1 <= i <= |text| - |pattern|
      ensures MatchesAt(text, i, pattern) <==> MatchesAt(text[1..], i - 1, pattern)
    {
    }
    if exists i :: 0 <= i <= |text[1..]| - |pattern| && MatchesAt(text[1..], i, pattern) {
      var i :| 0 <= i <= |text[1..]| - |pattern| && MatchesAt(text[1..], i, pattern);
      assert MatchesAt(text, i + 1, pattern);
    }
  }

  /** Every string contains the empty string and itself. */
  lemma ContainsEmptyAndSelf(text: string)
    ensures ContainsIgnoreCase(text, "")
    ensures ContainsIgnoreCase(text, text)
  {
    assert MatchesAt(text, 0, "");
    assert MatchesAt(text, 0, text);
  }
}
