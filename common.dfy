/** Values shared by the session store and the pages: optional values, the
    outcome of a call to the remote API, the user profile the server returns,
    and the few JavaScript idioms the pages rely on (`||` on strings,
    `String.prototype.trim`, `String.prototype.includes`, `Math.round`). */
module Common {

  datatype Option<T> = None | Some(value: T)

  /** The outcome of an `api.get`/`api.post`/`api.put` call: the response
      data, or a rejection whose `error.response?.data?.message` may be absent. */
  datatype Reply<T> = Ok(data: T) | Failed(message: Option<string>)

  /** JavaScript's `message || fallback` where `message` may be undefined:
      an absent or empty string is falsy and yields the fallback. */
  function OrElse(message: Option<string>, fallback: string): string {
    if message.Some? && message.value != "" then message.value else fallback
  }

  datatype Streak = Streak(count: int)

  /** The profile record the server returns. Every field the pages read
      through `?.` is optional; `isOnboarded` reads as false when missing. */
  datatype User = User(
    id: string,
    name: Option<string>,
    email: Option<string>,
    age: Option<int>,
    educationLevel: Option<string>,
    learningStyle: Option<string>,
    isOnboarded: bool,
    totalPoints: Option<int>,
    streak: Option<Streak>)

  /** `user?.isOnboarded` used as a condition. */
  predicate IsOnboarded(user: Option<User>) {
    user.Some? && user.value.isOnboarded
  }

  /** `user?.streak?.count || 0`. */
  function StreakCount(user: Option<User>): int {
    if user.Some? && user.value.streak.Some? then user.value.streak.value.count else 0
  }

  /** A file picked in a file input: only its name and size matter here. */
  datatype File = File(name: string, size: nat)

  /** The characters `trim` strips that a text box can plausibly hold. */
  predicate IsSpace(c: char) {
    c == ' ' || c == '\t' || c == '\n' || c == '\r' || c == '\U{000B}' || c == '\U{000C}' || c == '\U{00A0}'
  }

  /** `!s.trim()`: the string is empty once surrounding whitespace is removed. */
  predicate IsBlank(s: string) {
    forall i :: 0 <= i < |s| ==> IsSpace(s[i])
  }

  /** `s.includes(sub)`. */
  predicate Contains(s: string, sub: string)
    decreases |s|
  {
    sub <= s || (|s| > 0 && Contains(s[1..], sub))
  }

  /** `sub` occurs in `s` at offset `i`. */
  predicate OccursAt(s: string, sub: string, i: int) {
    0 <= i && i + |sub| <= |s| && s[i..i + |sub|] == sub
  }

  lemma DropOneSlice(s: string, a: int, b: int)
    requires 0 <= a <= b && b + 1 <= |s|
    ensures s[1..][a..b] == s[a + 1..b + 1]
  {
    assert |s[1..][a..b]| == |s[a + 1..b + 1]|;
    forall k | 0 <= k < b - a
      ensures s[1..][a..b][k] == s[a + 1..b + 1][k]
    {
    }
  }

  /** `Contains` agrees with the plain definition of a substring. */
  lemma {:induction false} ContainsIffOccurs(s: string, sub: string)
    ensures Contains(s, sub) <==> exists i :: OccursAt(s, sub, i)
    decreases |s|
  {
    if sub <= s {
      assert OccursAt(s, sub, 0);
    } else if |s| > 0 {
      ContainsIffOccurs(s[1..], sub);
      if Contains(s[1..], sub) {
        var j :| OccursAt(s[1..], sub, j);
        DropOneSlice(s, j, j + |sub|);
        assert OccursAt(s, sub, j + 1);
      }
      if i :| OccursAt(s, sub, i) {
        assert i != 0;
        DropOneSlice(s, i - 1, i - 1 + |sub|);
        assert OccursAt(s[1..], sub, i - 1);
      }
    }
  }

  /** `Math.round(num / den)` for a positive integer divisor: the nearest
      integer, halves rounded up. Dafny's `/` floors when the divisor is
      positive, so this is exact for every integer numerator. */
  function RoundHalfUp(num: int, den: nat): int
    requires den > 0
  {
    (2 * num + den) / (2 * den)
  }

  /** The rounded quotient is the integer within one half of `num / den`,
      ties going up: `r - 1/2 <= num/den < r + 1/2`. */
  lemma RoundHalfUpNearest(num: int, den: nat)
    requires den > 0
    ensures 2 * den * RoundHalfUp(num, den) - den <= 2 * num < 2 * den * RoundHalfUp(num, den) + den
  {
    var d := 2 * den;
    var q := (2 * num + den) / d;
    var m := (2 * num + den) % d;
    assert 2 * num + den == d * q + m && 0 <= m < d;
    assert d * q == 2 * den * q;
  }

  /** Nothing else rounds the same way: the half-open window of the lemma
      above holds for one integer only. */
  lemma RoundHalfUpUnique(num: int, den: nat, r: int)
    requires den > 0
    requires 2 * den * r - den <= 2 * num < 2 * den * r + den
    ensures r == RoundHalfUp(num, den)
  {
    var k := RoundHalfUp(num, den);
    RoundHalfUpNearest(num, den);
    if r < k {
      ScaleMonotone(2 * den, r + 1, k);
    } else if r > k {
      ScaleMonotone(2 * den, k + 1, r);
    }
  }

  lemma ScaleMonotone(c: nat, a: int, b: int)
    requires a <= b
    ensures c * a <= c * b
  {
    assert c * b - c * a == c * (b - a);
  }

  predicate IsDigit(c: char) {
    '0' <= c <= '9'
  }

  function Digit(k: nat): char
    requires k < 10
  {
    ('0' as int + k) as char
  }

  /** The value of a non-empty run of decimal digits. */
  function DigitsValue(d: string): nat
    requires forall i :: 0 <= i < |d| ==> IsDigit(d[i])
  {
    if d == [] then 0
    else
      assert IsDigit(d[|d| - 1]);
      10 * DigitsValue(d[..|d| - 1]) + (d[|d| - 1] as int - '0' as int)
  }

  /** The longest prefix of `s` made of decimal digits. */
  function LeadingDigits(s: string): (d: string)
    ensures d <= s
    ensures forall i :: 0 <= i < |d| ==> IsDigit(d[i])
    ensures |d| < |s| ==> !IsDigit(s[|d|])
  {
    if s != [] && IsDigit(s[0]) then [s[0]] + LeadingDigits(s[1..]) else []
  }

  /** `s` without its leading white space. */
  function TrimStart(s: string): (t: string)
    ensures |t| <= |s| && t == s[|s| - |t|..]
    ensures forall i :: 0 <= i < |s| - |t| ==> IsSpace(s[i])
    ensures t == [] || !IsSpace(t[0])
  {
    if s != [] && IsSpace(s[0]) then TrimStart(s[1..]) else s
  }

  /** `parseInt(s)` in base ten: leading white space, an optional sign, then
      the longest run of digits; `None` stands for `NaN`. */
  function ParseInt(s: string): Option<int> {
    ParseSigned(TrimStart(s))
  }

  /** The sign and digits `parseInt` reads once white space is skipped. */
  function ParseSigned(t: string): Option<int> {
    if t != [] && t[0] == '-' then
      match ParseDigits(t[1..])
      case None => None
      case Some(v) => Some(-v)
    else if t != [] && t[0] == '+' then ParseDigits(t[1..])
    else ParseDigits(t)
  }

  /** The value of the leading digits of `b`; `None` when there are none. */
  function ParseDigits(b: string): Option<int> {
    var d := LeadingDigits(b);
    if d == [] then None else Some(DigitsValue(d))
  }

  /** `n.toString()` for a non-negative integer. */
  function NatToString(n: nat): (s: string)
    ensures |s| > 0
    ensures forall i :: 0 <= i < |s| ==> IsDigit(s[i])
  {
    if n < 10 then [Digit(n)] else NatToString(n / 10) + [Digit(n % 10)]
  }

  lemma {:induction false} DigitsValueOfNatToString(n: nat)
    ensures DigitsValue(NatToString(n)) == n
  {
    if n >= 10 {
      var s := NatToString(n);
      assert s[..|s| - 1] == NatToString(n / 10);
      DigitsValueOfNatToString(n / 10);
    }
  }

  /** A run of digits is read in full. */
  lemma {:induction false} AllDigitsRead(d: string)
    requires forall i :: 0 <= i < |d| ==> IsDigit(d[i])
    ensures LeadingDigits(d) == d
    decreases |d|
  {
    if d != [] {
      AllDigitsRead(d[1..]);
      assert [d[0]] + d[1..] == d;
    }
  }

  /** The digits printed for `n` are read back as `n`. */
  lemma ParseDigitsOfNatToString(n: nat)
    ensures ParseDigits(NatToString(n)) == Some(n)
  {
    AllDigitsRead(NatToString(n));
    DigitsValueOfNatToString(n);
  }

  /** `parseInt` skips no character of a text that starts with neither
      white space nor nothing. */
  lemma NoLeadingSpace(s: string)
    requires s != [] && !IsSpace(s[0])
    ensures TrimStart(s) == s
  {
  }

  /** Reading back a printed number gives the number: `parseInt(n.toString())`
      is `n`. */
  lemma ParseIntOfNatToString(n: nat)
    ensures ParseInt(NatToString(n)) == Some(n)
  {
    var s := NatToString(n);
    assert IsDigit(s[0]);
    NoLeadingSpace(s);
    ParseDigitsOfNatToString(n);
  }

  /** `n.toString()` for any integer: a minus sign before the digits of a
      negative number. */
  function IntToString(n: int): string {
    if n < 0 then "-" + NatToString(-n) else NatToString(n)
  }

  /** A minus sign before printed digits is read as their negation. */
  lemma ParseSignedNegative(m: nat)
    ensures ParseSigned("-" + NatToString(m)) == Some(-(m as int))
  {
    var t := "-" + NatToString(m);
    assert t[1..] == NatToString(m);
    ParseDigitsOfNatToString(m);
  }

  /** `parseInt(n.toString())` is `n` for every integer, negative ones
      included. */
  lemma ParseIntOfIntToString(n: int)
    ensures ParseInt(IntToString(n)) == Some(n)
  {
    if n < 0 {
      NoLeadingSpace(IntToString(n));
      ParseSignedNegative(-n);
    } else {
      ParseIntOfNatToString(n);
    }
  }
}
