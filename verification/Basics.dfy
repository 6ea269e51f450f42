/** Small shared vocabulary: optional values, text helpers, hexadecimal, powers of two. */
module Basics {

  datatype Option<+T> = None | Some(value: T)

  /** Nanoseconds since Go's zero instant; 0 is the value for which `IsZero` holds. */
  type Time = nat

  type Byte = x: int | 0 <= x < 256

  /** White space, as far as `strings.TrimSpace` matters to ASCII text. */
  predicate IsSpace(c: char) {
    c == ' ' || c == '\t' || c == '\n' || c == '\r' || c == 11 as char || c == 12 as char
  }

  /** `strings.TrimSpace(s) == ""` */
  predicate Blank(s: string) {
    forall i | 0 <= i < |s| :: IsSpace(s[i])
  }

  function TrimLeft(s: string): string {
    if s != "" && IsSpace(s[0]) then TrimLeft(s[1..]) else s
  }

  function TrimRight(s: string): string {
    if s != "" && IsSpace(s[|s| - 1]) then TrimRight(s[..|s| - 1]) else s
  }

  function Lower(s: string): string {
    seq(|s|, i requires 0 <= i < |s| => if 'A' <= s[i] <= 'Z' then (s[i] as int + 32) as char else s[i])
  }

  /** `strings.ToLower(strings.TrimSpace(account))` */
  function Normalize(account: string): string {
    Lower(TrimRight(TrimLeft(account)))
  }

  /** What is left of an account name: its lower-case text without the white space around it. */
  lemma NormalForm(account: string) returns (left: string, right: string)
    ensures Lower(account) == left + Normalize(account) + right && Blank(left) && Blank(right)
    ensures var n := Normalize(account); n != "" ==> !IsSpace(n[0]) && !IsSpace(n[|n| - 1])
  {
    var rest := TrimLeft(account);
    var l := LeftTrimmed(account);
    var r := RightTrimmed(rest);
    left, right := Lower(l), Lower(r);
    var kept := TrimRight(rest);
    assert account == l + kept + r;
    assert Lower(account) == Lower(l) + Lower(kept) + Lower(r);
  }

  lemma {:induction false} LeftTrimmed(s: string) returns (left: string)
    ensures s == left + TrimLeft(s) && Blank(left) && (TrimLeft(s) != "" ==> !IsSpace(TrimLeft(s)[0]))
  {
    left := "";
    if s != "" && IsSpace(s[0]) {
      var more := LeftTrimmed(s[1..]);
      left := [s[0]] + more;
      assert s == [s[0]] + s[1..];
    }
  }

  lemma {:induction false} RightTrimmed(s: string) returns (right: string)
    ensures s == TrimRight(s) + right && Blank(right)
    ensures TrimRight(s) != "" ==> TrimRight(s)[0] == s[0] && !IsSpace(TrimRight(s)[|TrimRight(s)| - 1])
  {
    right := "";
    if s != "" && IsSpace(s[|s| - 1]) {
      var more := RightTrimmed(s[..|s| - 1]);
      right := more + [s[|s| - 1]];
      assert s == s[..|s| - 1] + [s[|s| - 1]];
    }
  }

  function Decimal(n: nat): string {
    (if n < 10 then "" else Decimal(n / 10)) + [('0' as int + n % 10) as char]
  }

  function HexDigit(n: int): char
    requires 0 <= n < 16
  {
    if n < 10 then ('0' as int + n) as char else ('a' as int + n - 10) as char
  }

  /** `hex.EncodeToString` */
  function Hex(bytes: seq<Byte>): (text: string)
    ensures |text| == 2 * |bytes|
  {
    if bytes == [] then "" else [HexDigit(bytes[0] / 16), HexDigit(bytes[0] % 16)] + Hex(bytes[1..])
  }

  lemma {:induction false} HexInjective(a: seq<Byte>, b: seq<Byte>)
    requires Hex(a) == Hex(b)
    ensures a == b
  {
    assert |a| == |b|;
    if a != [] {
      assert Hex(a)[0] == Hex(b)[0] && Hex(a)[1] == Hex(b)[1];
      assert Hex(a)[2..] == Hex(a[1..]) && Hex(b)[2..] == Hex(b[1..]);
      HexInjective(a[1..], b[1..]);
      assert a == [a[0]] + a[1..] && b == [b[0]] + b[1..];
    }
  }

  lemma HexNotBlank(bytes: seq<Byte>)
    requires bytes != []
    ensures !Blank(Hex(bytes))
  {
    assert !IsSpace(Hex(bytes)[0]);
  }

  function Pow2(n: nat): (p: nat)
    ensures p >= 1
  {
    if n == 0 then 1 else 2 * Pow2(n - 1)
  }

  lemma {:induction false} Pow2Monotone(a: nat, b: nat)
    requires a <= b
    ensures Pow2(a) <= Pow2(b)
    decreases b
  {
    if a < b {
      Pow2Monotone(a, b - 1);
    }
  }

  lemma ScaleUp(m: int, a: int, b: int)
    requires 0 <= m && a <= b
    ensures m * a <= m * b
  {
  }

  function Min(a: int, b: int): int {
    if a <= b then a else b
  }

  /** The only value congruent to `x` in `[0, n)`. */
  lemma ModUnique(x: int, n: nat, q: int, r: int)
    requires n > 0 && x == q * n + r && 0 <= r < n
    ensures x % n == r
  {
    var d := x / n - q;
    assert (x / n) * n + x % n == x;
    MultipleGrows(d, n);
    assert d * n == (x / n) * n - q * n == r - x % n;
  }

  lemma MultipleGrows(d: int, n: nat)
    ensures d >= 1 ==> d * n >= n
    ensures d <= -1 ==> d * n <= 0 - n
  {
  }

  lemma ModSucc(x: int, n: nat)
    requires n > 0
    ensures (x % n + 1) % n == (x + 1) % n
  {
    if x % n + 1 < n {
      ModUnique(x + 1, n, x / n, x % n + 1);
      ModUnique(x % n + 1, n, 0, x % n + 1);
    } else {
      assert x + 1 == (x / n + 1) * n;
      ModUnique(x + 1, n, x / n + 1, 0);
      ModUnique(x % n + 1, n, 1, 0);
    }
  }
}
