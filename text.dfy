/** The pieces of Rust formatting that the rendering of src/lib.rs uses:
    `{}` of an unsigned integer (decimal digits), `{:?}` of a `Vec<u8>`
    (`[9, 7, 8]`), and a count of line breaks to reason about the layout. */
module Text {

  predicate IsDigit(c: char)
  {
    '0' <= c <= '9'
  }

  function DigitChar(d: int): (c: char)
    requires 0 <= d < 10
    ensures IsDigit(c) && c as int - '0' as int == d
  {
    ('0' as int + d) as char
  }

  /** `{}` of an unsigned integer: its decimal digits, most significant first,
      with no leading zero. */
  function Decimal(n: nat): (s: string)
    ensures |s| >= 1
    ensures forall k :: 0 <= k < |s| ==> IsDigit(s[k])
    ensures s[0] == '0' ==> n == 0
    ensures n < 10 <==> |s| == 1
  {
    if n < 10 then [DigitChar(n)] else Decimal(n / 10) + [DigitChar(n % 10)]
  }

  /** Reading a string of decimal digits back as a number. */
  function DigitsValue(s: string): nat
    requires forall k :: 0 <= k < |s| ==> IsDigit(s[k])
  {
    if s == [] then 0
    else
      var last := s[|s| - 1];
      assert IsDigit(last);
      DigitsValue(s[..|s| - 1]) * 10 + (last as int - '0' as int)
  }

  /** The decimal rendering is read back as the number it renders. */
  lemma {:induction false} DecimalRoundTrip(n: nat)
    ensures DigitsValue(Decimal(n)) == n
  {
    var s := Decimal(n);
    if n >= 10 {
      assert s[..|s| - 1] == Decimal(n / 10);
      DecimalRoundTrip(n / 10);
    }
  }

  /** Number of line breaks in s. */
  function Newlines(s: string): nat
  {
    if s == [] then 0 else (if s[0] == '\n' then 1 else 0) + Newlines(s[1..])
  }

  lemma {:induction false} NewlinesAppend(a: string, b: string)
    ensures Newlines(a + b) == Newlines(a) + Newlines(b)
  {
    if a != [] {
      assert (a + b)[1..] == a[1..] + b;
      NewlinesAppend(a[1..], b);
    } else {
      assert a + b == b;
    }
  }

  lemma {:induction false} NoNewlines(s: string)
    requires '\n' !in s
    ensures Newlines(s) == 0
  {
    if s != [] {
      assert s[0] in s;
      assert forall c :: c in s[1..] ==> c in s;
      NoNewlines(s[1..]);
    }
  }

  /** The elements of `{:?}` of a `Vec<u8>`, separated by ", ". */
  function Joined(nums: seq<nat>): string
  {
    if nums == [] then ""
    else if |nums| == 1 then Decimal(nums[0])
    else Decimal(nums[0]) + ", " + Joined(nums[1..])
  }

  /** `{:?}` of a `Vec<u8>`: the decimal elements in brackets, separated by ", ". */
  function DebugList(nums: seq<nat>): string
  {
    "[" + Joined(nums) + "]"
  }

  /** With single-digit elements, element k sits at position 3k of the joined text. */
  lemma {:induction false} JoinedDigits(nums: seq<nat>)
    requires |nums| >= 1
    requires forall k :: 0 <= k < |nums| ==> nums[k] < 10
    ensures |Joined(nums)| == 3 * |nums| - 2
    ensures forall k :: 0 <= k < |nums| ==> Joined(nums)[3 * k] == DigitChar(nums[k])
  {
    if |nums| > 1 {
      JoinedDigits(nums[1..]);
      var rest := Joined(nums[1..]);
      assert Joined(nums) == [DigitChar(nums[0])] + ", " + rest;
      forall k | 1 <= k < |nums|
        ensures Joined(nums)[3 * k] == DigitChar(nums[k])
      {
        assert Joined(nums)[3 * k] == rest[3 * (k - 1)];
      }
    }
  }

  /** A list of one-digit numbers renders as `[a, b, ...]`: three characters per
      element, and element k is the digit at position 3k + 1, so the list can be
      read back from its rendering. */
  lemma DebugListDigits(nums: seq<nat>)
    requires |nums| >= 1
    requires forall k :: 0 <= k < |nums| ==> nums[k] < 10
    ensures |DebugList(nums)| == 3 * |nums|
    ensures DebugList(nums)[0] == '[' && DebugList(nums)[3 * |nums| - 1] == ']'
    ensures forall k :: 0 <= k < |nums| ==> DebugList(nums)[3 * k + 1] == DigitChar(nums[k])
  {
    JoinedDigits(nums);
  }
}
