/** Printing numbers as text into a fixed buffer, and reading them back. */
module NumberText {

  const MAX_INT := 0x7fff_ffff
  const MIN_INT := -0x8000_0000
  const MAX_UNSIGNED := 0xffff_ffff
  const BUFFER_LENGTH := 12

  ghost predicate IsBase(base: int) {
    base == 10 || base == 16
  }

  const DIGITS := "0123456789abcdef"
  const CAPITALS := "ABCDEF"

  /** The digits that are printed. */
  ghost predicate IsSmall(ch: char) {
    '0' <= ch <= '9' || 'a' <= ch <= 'f'
  }

  /** The value of a digit character, or -1. */
  function A2d(ch: char): (d: int)
    ensures -1 <= d < 16 && (d >= 0 ==> ch != '\0')
    ensures '0' <= ch <= '9' ==> d == ch as int - '0' as int
    ensures 'a' <= ch <= 'f' ==> d == 10 + (ch as int - 'a' as int)
    ensures 'A' <= ch <= 'F' ==> d == 10 + (ch as int - 'A' as int)
    ensures d == -1 <==> !('0' <= ch <= '9') && !('a' <= ch <= 'f') && !('A' <= ch <= 'F')
  {
    if '0' <= ch <= '9' then ch as int - '0' as int
    else if 'a' <= ch <= 'f' then ch as int - 'a' as int + 10
    else if 'A' <= ch <= 'F' then ch as int - 'A' as int + 10
    else -1
  }

  /** Every digit reads as its position in the row of digits, and so do the capitals. */
  lemma DigitValues(k: int)
    ensures 0 <= k < 16 ==> A2d(DIGITS[k]) == k && DigitChar(k) == DIGITS[k]
    ensures 0 <= k < 6 ==> A2d(CAPITALS[k]) == 10 + k
  {
  }

  function DigitChar(d: int): (ch: char)
    requires 0 <= d < 16
    ensures A2d(ch) == d && IsSmall(ch)
    ensures d < 10 ==> ch as int == '0' as int + d
    ensures d >= 10 ==> ch as int == 'a' as int + d - 10
  {
    if d < 10 then (d + '0' as int) as char else (d + 'a' as int - 10) as char
  }

  /** The number that a sequence of digit characters stands for. */
  ghost function Numeral(s: seq<char>, base: int): (n: int) {
    if s == [] then 0 else Numeral(s[..|s| - 1], base) * base + A2d(s[|s| - 1])
  }

  /** The text of n: proper digits, small letters, no needless leading zero. */
  ghost predicate IsTextOf(s: seq<char>, n: int, base: int) {
    && s != []
    && (forall k :: 0 <= k < |s| ==> 0 <= A2d(s[k]) < base && IsSmall(s[k]))
    && (|s| > 1 ==> A2d(s[0]) > 0)
    && Numeral(s, base) == n
  }

  /** There is only one text of a number. */
  lemma {:induction false} TextUnique(s: seq<char>, t: seq<char>, n: int, base: int)
    requires IsBase(base) && IsTextOf(s, n, base) && IsTextOf(t, n, base)
    ensures s == t
    decreases |s|
  {
    SplitLast(s, n, base);
    SplitLast(t, n, base);
    var a, b := s[..|s| - 1], t[..|t| - 1];
    SameDigit(s[|s| - 1], t[|t| - 1]);
    if a != [] && b != [] {
      TextUnique(a, b, n / base, base);
    }
    assert s == a + [s[|s| - 1]] && t == b + [t[|t| - 1]];
  }

  /** The last digit is the remainder; what is before it is nothing, or the text of the quotient. */
  lemma SplitLast(s: seq<char>, n: int, base: int)
    requires IsBase(base) && IsTextOf(s, n, base)
    ensures A2d(s[|s| - 1]) == n % base && n >= 0
    ensures var a := s[..|s| - 1]; if a == [] then n / base == 0 else IsTextOf(a, n / base, base) && n / base > 0
  {
    var a := s[..|s| - 1];
    var d := A2d(s[|s| - 1]);
    assert n == Numeral(a, base) * base + d;
    if a != [] {
      LeadingPositive(a, base);
    }
    QuotientOf(Numeral(a, base), base, d);
  }

  lemma QuotientOf(v: int, base: int, d: int)
    requires base > 0 && 0 <= d < base
    ensures (v * base + d) / base == v && (v * base + d) % base == d
  {
    var q, r := (v * base + d) / base, (v * base + d) % base;
    assert (q - v) * base == d - r;
    if q > v {
      MulMonotone(1, q - v, base);
    } else if q < v {
      MulMonotone(q - v, -1, base);
    }
  }

  lemma {:induction false} LeadingPositive(s: seq<char>, base: int)
    requires IsBase(base) && s != [] && (forall k :: 0 <= k < |s| ==> 0 <= A2d(s[k]) < base) && A2d(s[0]) > 0
    ensures Numeral(s, base) > 0
    decreases |s|
  {
    if |s| > 1 {
      LeadingPositive(s[..|s| - 1], base);
      MulMonotone(1, Numeral(s[..|s| - 1], base), base);
    } else {
      assert s[..0] == [];
      assert Numeral([], base) == 0;
    }
  }

  lemma SameDigit(c: char, d: char)
    requires IsSmall(c) && IsSmall(d) && A2d(c) == A2d(d)
    ensures c == d
  {
  }

  ghost function Power(base: int, k: nat): (p: int)
    requires base >= 1
    ensures p >= 1
  {
    if k == 0 then 1 else base * Power(base, k - 1)
  }

  // ---------- Printing ----------

  /** The digits written so far, and `places` more places for the rest of the number. */
  ghost predicate Written(s: seq<char>, rest: int, places: nat, n: int, base: int)
    requires base >= 1
  {
    && 0 <= rest < Power(base, places)
    && (forall k :: 0 <= k < |s| ==> 0 <= A2d(s[k]) < base && IsSmall(s[k]))
    && (s != [] && (|s| > 1 || places > 0) ==> A2d(s[0]) > 0)
    && Numeral(s, base) * Power(base, places) + rest == n
  }

  lemma NumeralAppend(s: seq<char>, ch: char, base: int)
    ensures Numeral(s + [ch], base) == Numeral(s, base) * base + A2d(ch)
  {
    assert (s + [ch])[..|s|] == s;
  }

  lemma DivideBy(n: int, d: int, base: int)
    requires d >= 1 && base >= 1 && 0 <= n < base * d
    ensures 0 <= n / d < base && 0 <= n % d < d && n == (n / d) * d + n % d
  {
    if n / d >= base {
      assert (n / d) * d >= base * d by {
        MulMonotone(base, n / d, d);
      }
    }
  }

  lemma MulMonotone(a: int, b: int, c: int)
    requires a <= b && c >= 0
    ensures a * c <= b * c
  {
    assert b * c - a * c == (b - a) * c;
  }

  lemma PlaceValue(v: int, base: int, d: int, dgt: int, r: int)
    ensures (v * base + dgt) * d + r == v * (base * d) + (dgt * d + r)
  {
    assert (v * base + dgt) * d == v * base * d + dgt * d;
    assert v * base * d == v * (base * d);
  }

  /** One turn of the printing loop, which skips leading zeros. */
  lemma WriteDigit(s: seq<char>, rest: int, places: nat, n: int, base: int)
    requires IsBase(base) && places > 0 && Written(s, rest, places, n, base)
    ensures var d := Power(base, places - 1);
      var dgt := rest / d;
      && 0 <= dgt < base
      && Written(if s != [] || dgt > 0 || places == 1 then s + [DigitChar(dgt)] else s, rest % d, places - 1, n, base)
  {
    hide Power, Numeral;
    var d := Power(base, places - 1);
    PowerStep(base, places - 1);
    DivideBy(rest, d, base);
    var dgt, r := rest / d, rest % d;
    NumeralAppend(s, DigitChar(dgt), base);
    PlaceValue(Numeral(s, base), base, d, dgt, r);
    if s == [] {
      EmptyNumeral(base);
    }
  }

  lemma PowerStep(base: int, k: nat)
    requires base >= 1
    ensures Power(base, k + 1) == base * Power(base, k)
  {
  }

  lemma EmptyNumeral(base: int)
    ensures Numeral([], base) == 0
  {
  }

  lemma LowerPower(base: int, k: nat)
    requires IsBase(base) && k > 0
    ensures Power(base, k) / base == Power(base, k - 1) && (k > 1 ==> Power(base, k - 1) / base == Power(base, k - 2))
  {
    if base == 10 {
      assert Power(10, k) == 10 * Power(10, k - 1);
    } else {
      assert Power(16, k) == 16 * Power(16, k - 1);
    }
  }

  /** A number of this size has at most ten decimal places, or eight hexadecimal ones. */
  lemma Places(base: int, k: nat)
    requires IsBase(base) && Power(base, k) <= MAX_UNSIGNED
    ensures k + 1 <= MaxPlaces(base)
  {
    if k + 1 > MaxPlaces(base) {
      PowerMonotone(base, MaxPlaces(base), k);
      if base == 10 {
        TenPowers();
      } else {
        SixteenPowers();
      }
    }
  }

  ghost function MaxPlaces(base: int): (k: nat) {
    if base == 10 then 10 else 8
  }

  lemma TenPowers()
    ensures Power(10, 10) == 10_000_000_000
  {
    assert Power(10, 5) == 100_000 by {
      assert Power(10, 3) == 1000;
    }
    assert Power(10, 8) == 100_000_000 by {
      assert Power(10, 6) == 1_000_000;
    }
  }

  lemma SixteenPowers()
    ensures Power(16, 8) == 0x1_0000_0000
  {
    assert Power(16, 4) == 0x1_0000 by {
      assert Power(16, 2) == 0x100;
    }
    assert Power(16, 6) == 0x100_0000;
  }

  lemma {:induction false} PowerMonotone(base: int, j: nat, k: nat)
    requires base >= 1 && j <= k
    ensures Power(base, j) <= Power(base, k)
    decreases k - j
  {
    if j < k {
      PowerMonotone(base, j, k - 1);
      MulMonotone(1, base, Power(base, k - 1));
    }
  }

  /** The weight of the first digit of num, found without overflow. */
  method LeadingWeight(num: int, base: int) returns (d: int, ghost places: nat)
    requires 0 <= num <= MAX_UNSIGNED && IsBase(base)
    ensures 1 <= places <= MaxPlaces(base)
    ensures d == Power(base, places - 1) && num < base * d
  {
    hide Power;
    d := 1;
    places := 1;
    PowerStep(base, 0);
    FirstPowers(base);
    while num / d >= base
      invariant 1 <= places && d == Power(base, places - 1)
      invariant 1 <= d <= MAX_UNSIGNED
      decreases num - d
    {
      StillFits(num, d, base);
      PowerStep(base, places - 1);
      d := d * base;
      places := places + 1;
    }
    Places(base, places - 1);
    LastWeight(num, d, base);
  }

  lemma FirstPowers(base: int)
    requires base >= 1
    ensures Power(base, 0) == 1
  {
  }

  lemma StillFits(num: int, d: int, base: int)
    requires 0 <= num && d >= 1 && base >= 2 && num / d >= base
    ensures d < d * base <= num
  {
    MulMonotone(base, num / d, d);
    MulMonotone(2, base, d);
    assert (num / d) * d + num % d == num;
  }

  lemma LastWeight(num: int, d: int, base: int)
    requires 0 <= num && d >= 1 && num / d < base
    ensures num < base * d
  {
    MulMonotone(num / d + 1, base, d);
    assert (num / d) * d + num % d == num;
  }

  lemma NothingWritten(num: int, base: int, places: nat)
    requires IsBase(base) && places >= 1 && 0 <= num < base * Power(base, places - 1)
    ensures Written([], num, places, num, base)
  {
    PowerStep(base, places - 1);
  }

  lemma WrittenAll(s: seq<char>, rest: int, n: int, base: int)
    requires base >= 1 && s != [] && Written(s, rest, 0, n, base)
    ensures IsTextOf(s, n, base)
  {
  }

  /** The next digit, the rest of the number, and the weight of the place after it. */
  method TakeDigit(num: int, d: int, base: int, ghost s: seq<char>, ghost places: nat, ghost n: int)
    returns (dgt: int, rest: int, lower: int)
    requires IsBase(base) && places > 0 && d == Power(base, places - 1) && Written(s, num, places, n, base)
    ensures 0 <= dgt < base && lower == if places == 1 then 0 else Power(base, places - 2)
    ensures Written(if s != [] || dgt > 0 || lower == 0 then s + [DigitChar(dgt)] else s, rest, places - 1, n, base)
  {
    hide Written, Numeral;
    WriteDigit(s, num, places, n, base);
    dgt := num / d;
    rest := num % d;
    if places > 1 {
      LowerPower(base, places - 1);
    }
    lower := d / base;
  }

  /** Writes the text of num and a terminator at bf[at..]. */
  method Ui2a(num: int, base: int, bf: array<char>, at: nat) returns (n: nat)
    requires 0 <= num <= MAX_UNSIGNED && IsBase(base)
    requires at + MaxPlaces(base) < bf.Length
    modifies bf
    ensures 1 <= n <= MaxPlaces(base) && bf[at + n] == '\0'
    ensures IsTextOf(bf[at..at + n], num, base)
    ensures forall k :: 0 <= k < at || at + n < k < bf.Length ==> bf[k] == old(bf[k])
  {
    hide Power, Numeral, Written, IsTextOf;
    var d, places := LeadingWeight(num, base);
    var rest := num;
    n := 0;
    assert bf[at..at] == [];
    NothingWritten(num, base, places);
    ghost var maxPlaces := places;
    while d != 0
      invariant d == if places == 0 then 0 else Power(base, places - 1)
      invariant n + places <= maxPlaces
      invariant Written(bf[at..at + n], rest, places, num, base)
      invariant places == 0 ==> n > 0
      invariant forall k :: 0 <= k < at || at + n <= k < bf.Length ==> bf[k] == old(bf[k])
      decreases places
    {
      var dgt;
      dgt, rest, d := TakeDigit(rest, d, base, bf[at..at + n], places, num);
      places := places - 1;
      if n > 0 || dgt > 0 || d == 0 {
        ghost var before := bf[at..at + n];
        bf[at + n] := DigitChar(dgt);
        n := n + 1;
        assert bf[at..at + n] == before + [DigitChar(dgt)];
      }
    }
    ghost var text := bf[at..at + n];
    WrittenAll(text, rest, num, base);
    bf[at + n] := '\0';
    assert bf[at..at + n] == text;
  }

  /** Every 32-bit integer, with its sign, fits the buffer of the formatter. */
  method I2a(num: int, bf: array<char>) returns (n: nat)
    requires MIN_INT <= num <= MAX_INT && bf.Length == BUFFER_LENGTH
    modifies bf
    ensures n < BUFFER_LENGTH && bf[n] == '\0'
    ensures num >= 0 ==> IsTextOf(bf[..n], num, 10)
    ensures num < 0 ==> n > 1 && bf[0] == '-' && IsTextOf(bf[1..n], -num, 10)
  {
    if num < 0 {
      bf[0] := '-';
      var m := Ui2a(-num, 10, bf, 1);
      n := m + 1;
    } else {
      n := Ui2a(num, 10, bf, 0);
      assert bf[..n] == bf[0..n];
    }
  }

  // ---------- Reading ----------

  /** The number of leading characters that the reader takes for digits.  It takes a digit
      equal to the base as well. */
  ghost function Accepted(s: seq<char>, base: int): (k: nat)
    ensures k <= |s| && (k < |s| ==> !(0 <= A2d(s[k]) <= base))
    ensures forall j :: 0 <= j < k ==> 0 <= A2d(s[j]) <= base
  {
    if s == [] || !(0 <= A2d(s[0]) <= base) then 0 else 1 + Accepted(s[1..], base)
  }

  /** The number of leading characters that are digits of the base. */
  ghost function ProperDigits(s: seq<char>, base: int): (k: nat)
    ensures k <= |s| && (k < |s| ==> !(0 <= A2d(s[k]) < base))
    ensures forall j :: 0 <= j < k ==> 0 <= A2d(s[j]) < base
  {
    if s == [] || !(0 <= A2d(s[0]) < base) then 0 else 1 + ProperDigits(s[1..], base)
  }

  /** The int with the same low 32 bits. */
  function ToInt(x: int): (r: int)
    ensures MIN_INT <= r <= MAX_INT && (r - x) % 0x1_0000_0000 == 0
    ensures MIN_INT <= x <= MAX_INT ==> r == x
  {
    (x - MIN_INT) % 0x1_0000_0000 + MIN_INT
  }

  lemma SameInt(x: int, y: int)
    requires (x - y) % 0x1_0000_0000 == 0
    ensures ToInt(x) == ToInt(y)
  {
  }

  /** Wrapping in the middle of the computation does not change the result. */
  lemma WrapsOnce(x: int, base: int, digit: int)
    ensures ToInt(ToInt(x) * base + digit) == ToInt(x * base + digit)
  {
    var k := (ToInt(x) - x) / 0x1_0000_0000;
    assert ToInt(x) == x + 0x1_0000_0000 * k;
    assert (x + 0x1_0000_0000 * k) * base == x * base + 0x1_0000_0000 * (k * base);
    SameInt(ToInt(x) * base + digit, x * base + digit);
  }

  /** Reads the number whose first character is ch and whose others follow in src; `used`
      is how far src has been read, one past the character that ended the number.  A number
      that does not fit an int wraps around. */
  method A2i(ch: char, src: seq<char>, base: int) returns (end: char, used: nat, num: int)
    requires IsBase(base) && Accepted([ch] + src, base) <= |src|
    ensures var s := [ch] + src;
      used == Accepted(s, base) && end == s[used] && num == ToInt(Numeral(s[..used], base))
  {
    hide Numeral, ToInt;
    ghost var s := [ch] + src;
    end := ch;
    used := 0;
    num := 0;
    EmptyNumeral(base);
    var digit := A2d(end);
    while digit >= 0
      invariant used <= Accepted(s, base) && used < |s| && end == s[used] && digit == A2d(end)
      invariant num == ToInt(Numeral(s[..used], base))
      decreases Accepted(s, base) - used
    {
      if digit > base {
        break;
      }
      NextNumeral(s, used, base);
      WrapsOnce(Numeral(s[..used], base), base, digit);
      num := ToInt(num * base + digit);
      end := src[used];
      used := used + 1;
      digit := A2d(end);
    }
  }

  lemma NextNumeral(s: seq<char>, k: nat, base: int)
    requires k < |s|
    ensures Numeral(s[..k + 1], base) == Numeral(s[..k], base) * base + A2d(s[k])
  {
    assert s[..k + 1] == s[..k] + [s[k]];
    NumeralAppend(s[..k], s[k], base);
  }

  /** The reader stops at the first character that is no digit of the base exactly when
      that character is not the digit for the base itself; in base sixteen there is none. */
  lemma {:induction false} StopsAtNonDigit(s: seq<char>, base: int)
    requires IsBase(base)
    ensures var k := ProperDigits(s, base);
      Accepted(s, base) == k <==> (k < |s| ==> A2d(s[k]) != base)
    ensures base == 16 ==> Accepted(s, base) == ProperDigits(s, base)
    decreases |s|
  {
    if s != [] && 0 <= A2d(s[0]) < base {
      StopsAtNonDigit(s[1..], base);
    }
  }

  /** The texts of two numbers, one in each base. */
  lemma SampleTexts()
    ensures IsTextOf("34", 34, 10) && IsTextOf("cb", 0xcb, 16)
  {
    assert "34"[..1] == "3" && "3"[..0] == "" && Numeral("3", 10) == 3;
    assert "cb"[..1] == "c" && "c"[..0] == "" && Numeral("c", 16) == 12;
    DigitValues(3);
    DigitValues(4);
    DigitValues(11);
    DigitValues(12);
  }

  /** In base ten, the text "1a", with its terminator, reads as twenty. */
  lemma ReadsDigitTen()
    ensures var s := "1a\0"; Accepted(s, 10) == 2 == |s| - 1 && ToInt(Numeral(s[..2], 10)) == 20
  {
    assert "1a\0"[1..] == "a\0" && "a\0"[1..] == "\0" && "1a\0"[..2] == "1a";
    assert Accepted("\0", 10) == 0;
    assert Accepted("a\0", 10) == 1;
    NumeralAppend("1", 'a', 10);
    assert "1" + "a" == "1a";
    assert Numeral("1", 10) == 1;
  }

  /** The text of a number ends the reading exactly at its terminator. */
  lemma {:induction false} AcceptsText(s: seq<char>, base: int)
    requires forall k :: 0 <= k < |s| ==> 0 <= A2d(s[k]) < base
    ensures Accepted(s + ['\0'], base) == |s|
    decreases |s|
  {
    if s != [] {
      assert (s + ['\0'])[1..] == s[1..] + ['\0'];
      AcceptsText(s[1..], base);
    }
  }

  /** Printing a non-negative integer and reading the text gives the integer back. */
  method PrintAndRead(num: int, base: int) returns (text: seq<char>, back: int)
    requires 0 <= num <= MAX_UNSIGNED && IsBase(base)
    ensures IsTextOf(text, num, base) && |text| < BUFFER_LENGTH
    ensures back == ToInt(num) && (num <= MAX_INT ==> back == num)
  {
    var bf := new char[BUFFER_LENGTH];
    var n := Ui2a(num, base, bf, 0);
    text := bf[0..n];
    var src := bf[1..n + 1];
    AcceptsText(text, base);
    assert [bf[0]] + src == text + ['\0'];
    assert (text + ['\0'])[..n] == text;
    var end, used, value := A2i(bf[0], src, base);
    back := value;
  }
}
