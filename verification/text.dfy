/** White space and decimal numerals, as the Rust standard library reads and prints them. */
module Text {
  import opened Wrappers

  /** Unicode White_Space. */
  predicate White(c: char) {
    var n := c as int;
    || 0x09 <= n <= 0x0d || n == 0x20 || n == 0x85 || n == 0xa0 || n == 0x1680
    || 0x2000 <= n <= 0x200a || n == 0x2028 || n == 0x2029 || n == 0x202f || n == 0x205f || n == 0x3000
  }

  predicate Digit(c: char) { '0' <= c <= '9' }

  function DigitChar(d: nat): char
    requires d < 10
  {
    '0' + d as char
  }

  function DigitValue(c: char): nat
    requires Digit(c)
  {
    (c - '0') as nat
  }

  function Show(n: nat): (s: string)
    ensures s != ""
    ensures forall i | 0 <= i < |s| :: Digit(s[i])
  {
    if n < 10 then [DigitChar(n)] else Show(n / 10) + [DigitChar(n % 10)]
  }

  predicate AllDigits(s: string) {
    forall i | 0 <= i < |s| :: Digit(s[i])
  }

  function Value(s: string): nat
    requires AllDigits(s)
  {
    if s == "" then 0 else 10 * Value(s[..|s| - 1]) + DigitValue(s[|s| - 1])
  }

  /** `str::parse::<u64>`: an optional plus sign, at least one digit, and no overflow. */
  function ParseU64(s: string): Option<nat> {
    var digits := if s != "" && s[0] == '+' then s[1..] else s;
    if digits == "" || !AllDigits(digits) || Value(digits) >= 0x1_0000_0000_0000_0000 then None else Some(Value(digits))
  }

  lemma {:induction false} ShowThenValue(n: nat)
    ensures Value(Show(n)) == n
  {
    if n >= 10 {
      ShowThenValue(n / 10);
      assert Show(n)[..|Show(n)| - 1] == Show(n / 10);
    }
  }

  /** A printed number is read back if it fits 64 bits, with or without a plus sign; no other sign is read. */
  lemma ParseOfShow(n: nat)
    ensures ParseU64(Show(n)) == if n < 18446744073709551616 then Some(n) else None
    ensures ParseU64("+" + Show(n)) == ParseU64(Show(n)) && ParseU64("-" + Show(n)) == None
  {
    ShowThenValue(n);
    assert Digit(Show(n)[0]);
    assert ("+" + Show(n))[1..] == Show(n);
    assert ("-" + Show(n))[0] == '-' && !Digit('-');
  }

  lemma ShowIsInjective(m: nat, n: nat)
    requires Show(m) == Show(n)
    ensures m == n
  {
    ShowThenValue(m);
    ShowThenValue(n);
  }
}
