/**
 * Language features of Swift 5: a `Result`-returning status check, a
 * failable initializer, integer multiples (a hand-written `isMultiple` and
 * the parity checks built on the standard one) and a custom string
 * interpolation.
 *
 * `Int` is modelled by unbounded integers. Nothing here can overflow:
 * `%` is only applied to a positive divisor.
 */
module Swift5 {
  import opened Wrappers

  // SE-0235 Result

  datatype NetworkError = BadURL | ServerFailure

  /** The response status that `fetchUnreadCount` hard-codes. */
  const ResponseStatus := 305

  /** The status check of `fetchUnreadCount`: a 2xx status succeeds with itself. */
  function CheckStatus(responseStatus: int): (r: Result<int, NetworkError>)
    ensures r.Success? <==> 200 <= responseStatus < 300
    ensures r.Success? ==> r.value == responseStatus
    ensures r.Failure? ==> r.error == ServerFailure
  {
    if responseStatus >= 200 && responseStatus < 300 then Success(responseStatus)
    else Failure(ServerFailure)
  }

  /**
   * The one value `fetchUnreadCount` passes to its completion handler;
   * `isURL` says whether `URL(string:)` accepts the string.
   */
  function FetchUnreadCount(isURL: bool): (r: Result<int, NetworkError>)
    ensures !isURL ==> r == Failure(BadURL)
    ensures isURL ==> (r.Success? <==> 200 <= ResponseStatus < 300)
    ensures isURL && r.Failure? ==> r.error == ServerFailure
  {
    if !isURL then Failure(BadURL) else CheckStatus(ResponseStatus)
  }

  /** With the status hard-coded to 305, fetching never succeeds. */
  lemma FetchUnreadCountNeverSucceeds(isURL: bool)
    ensures FetchUnreadCount(isURL) == if isURL then Failure(ServerFailure) else Failure(BadURL)
  {
  }

  // SE-0230 failable initializers

  datatype User = User(id: int)

  /** `User.init?(id:)`: fails for ids below 1. */
  function NewUser(id: int): (r: Option<User>)
    ensures r.None? <==> id < 1
    ensures r.Some? ==> r.value.id == id
  {
    if id < 1 then None else Some(User(id))
  }

  // SE-0225 integer multiples

  function Abs(n: int): int
  {
    if n < 0 then -n else n
  }

  /** The product `k * n`, as a function so that `Divides`' quantifier has a trigger. */
  function Times(k: int, n: int): int
  {
    k * n
  }

  /** `n` divides `a`: `a` is some whole multiple of `n`. */
  ghost predicate Divides(n: int, a: int)
  {
    exists k :: a == Times(k, n)
  }

  /**
   * Swift's `%` on `Int`: truncating division, so the remainder has the sign
   * of `a`, is smaller than `b` in magnitude, and differs from `a` by a
   * multiple of `b`.
   */
  function Rem(a: int, b: int): (r: int)
    requires b != 0
    ensures a >= 0 ==> 0 <= r < Abs(b)
    ensures a < 0 ==> -Abs(b) < r <= 0
    ensures Divides(b, a - r)
  {
    var n := Abs(b);
    var sign := if b < 0 then -1 else 1;
    if a >= 0 then
      var q := a / n;
      assert a - a % n == Times(q * sign, b);
      a % n
    else
      var q := (-a) / n;
      assert a + (-a) % n == Times(-q * sign, b);
      -((-a) % n)
  }

  /** The hand-written `isMultiple(ofInteger:)`: `number` is positive and divides `self`. */
  function IsMultipleOfInteger(self: int, number: int): (b: bool)
    ensures b <==> number > 0 && Divides(number, self)
  {
    if number <= 0 then false
    else
      RemZeroIffDivides(self, number);
      Rem(self, number) == 0
  }

  /** The standard `isMultiple(of:)`: `other` divides `self`, so zero is a multiple only of itself. */
  function IsMultipleOf(self: int, other: int): (b: bool)
    ensures b <==> Divides(other, self)
    ensures other == 0 ==> (b <==> self == 0)
  {
    if other == 0 then
      DividesZero(self);
      self == 0
    else
      RemZeroIffDivides(self, Abs(other));
      DividesAbs(other, self);
      Rem(self, other) == 0
  }

  function IsEven(self: int): (b: bool)
    ensures b <==> Divides(2, self)
  {
    IsMultipleOf(self, 2)
  }

  function IsOdd(self: int): (b: bool)
    ensures b <==> !Divides(2, self)
  {
    !IsMultipleOf(self, 2)
  }

  /** Only zero is a multiple of zero. */
  lemma DividesZero(a: int)
    ensures Divides(0, a) <==> a == 0
  {
    if a == 0 {
      assert a == Times(0, 0);
    }
  }

  /** Divisibility does not depend on the sign of the divisor. */
  lemma DividesAbs(n: int, a: int)
    ensures Divides(Abs(n), a) <==> Divides(n, a)
  {
    if Divides(Abs(n), a) {
      var k :| a == Times(k, Abs(n));
      assert a == Times(if n < 0 then -k else k, n);
    }
    if Divides(n, a) {
      var k :| a == Times(k, n);
      assert a == Times(if n < 0 then -k else k, Abs(n));
    }
  }

  /** For a positive `n`, a zero Euclidean remainder means `n` divides `a`, and conversely. */
  lemma EuclideanDivides(a: int, n: int)
    requires n > 0
    ensures a % n == 0 <==> Divides(n, a)
  {
    if a % n == 0 {
      assert a == Times(a / n, n);
    }
    if Divides(n, a) {
      var k :| a == Times(k, n);
      MultipleHasNoRemainder(k, n);
    }
  }

  lemma MultipleHasNoRemainder(k: int, n: int)
    requires n > 0
    ensures (k * n) % n == 0
  {
    var a := k * n;
    var q, r := a / n, a % n;
    assert a == q * n + r && 0 <= r < n;
    Distribute(k, q, n);
    assert (k - q) * n == r;
    ProductBounds(k - q, n);
  }

  lemma Distribute(k: int, q: int, n: int)
    ensures (k - q) * n == k * n - q * n
  {
  }

  lemma ProductBounds(m: int, n: int)
    requires n > 0
    ensures m >= 1 ==> m * n >= n
    ensures m <= -1 ==> m * n <= -n
  {
  }

  lemma DividesNegation(n: int, a: int)
    ensures Divides(n, a) <==> Divides(n, -a)
  {
    if Divides(n, a) {
      var k :| a == Times(k, n);
      assert -a == Times(-k, n);
    }
    if Divides(n, -a) {
      var k :| -a == Times(k, n);
      assert a == Times(-k, n);
    }
  }

  /** Swift's remainder by a positive `n` is zero exactly when `n` divides `a`, negative `a` included. */
  lemma RemZeroIffDivides(a: int, n: int)
    requires n > 0
    ensures Rem(a, n) == 0 <==> Divides(n, a)
  {
    if a >= 0 {
      EuclideanDivides(a, n);
    } else {
      EuclideanDivides(-a, n);
      DividesNegation(n, a);
    }
  }

  /**
   * `isMultiple(ofInteger:)` holds exactly when `number` is positive and
   * divides `self`; in particular it is false for `0.isMultiple(ofInteger: 0)`.
   */
  lemma IsMultipleOfIntegerMeaning(self: int, number: int)
    ensures IsMultipleOfInteger(self, number) <==> number > 0 && Divides(number, self)
    ensures !IsMultipleOfInteger(0, 0)
  {
    if number > 0 {
      RemZeroIffDivides(self, number);
    }
  }

  /**
   * The old and the new way agree for every positive `number` and differ
   * for zero: `0.isMultiple(of: 0)` is true.
   */
  lemma OldAndNewMultiples(self: int, number: int)
    ensures number > 0 ==> (IsMultipleOfInteger(self, number) <==> IsMultipleOf(self, number))
    ensures IsMultipleOf(0, 0) && !IsMultipleOfInteger(0, 0)
  {
  }

  /** `isEven` means "multiple of 2" in the hand-written sense too, and `isOdd` is its negation. */
  lemma ParityMeaning(self: int)
    ensures IsEven(self) <==> IsMultipleOfInteger(self, 2)
    ensures IsEven(self) <==> Divides(2, self)
    ensures IsOdd(self) <==> !IsEven(self)
  {
    RemZeroIffDivides(self, 2);
  }

  /** Parity alternates: the successor of an even number is odd and conversely. */
  lemma ParityAlternates(self: int)
    ensures IsEven(self + 1) <==> IsOdd(self)
  {
    RemZeroIffDivides(self, 2);
    RemZeroIffDivides(self + 1, 2);
    EuclideanDivides(self, 2);
    EuclideanDivides(self + 1, 2);
  }

  // SE-0228 string interpolation

  datatype SomeUser = SomeUser(name: string, age: int)

  function DigitChar(d: nat): char
    requires d < 10
  {
    ('0' as int + d) as char
  }

  function DigitValue(c: char): int
  {
    c as int - '0' as int
  }

  predicate IsDigit(c: char)
  {
    '0' <= c <= '9'
  }

  /** The decimal digits of `n`, most significant first, without leading zeros. */
  function Digits(n: nat): (s: string)
    ensures |s| >= 1
    ensures forall k :: 0 <= k < |s| ==> IsDigit(s[k])
    ensures s[0] == '0' ==> n == 0 && |s| == 1
  {
    if n < 10 then [DigitChar(n)] else Digits(n / 10) + [DigitChar(n % 10)]
  }

  /** How an `Int` appears in string interpolation: a '-' for negatives, then its digits. */
  function Decimal(n: int): (s: string)
    ensures |s| >= 1
    ensures s[0] == '-' <==> n < 0
    ensures forall k :: (if n < 0 then 1 else 0) <= k < |s| ==> IsDigit(s[k])
    ensures var d := if n < 0 then 1 else 0; |s| > d && (s[d] == '0' ==> s == "0")
  {
    if n < 0 then "-" + Digits(-n) else Digits(n)
  }

  /** Reads a non-empty string of decimal digits. */
  function ParseDigits(s: string): Option<nat>
  {
    if s == [] then None
    else if !IsDigit(s[|s| - 1]) then None
    else if |s| == 1 then Some(DigitValue(s[0]))
    else match ParseDigits(s[..|s| - 1])
      case None => None
      case Some(p) => Some(p * 10 + DigitValue(s[|s| - 1]))
  }

  /** Reads an integer as interpolation writes it. */
  function ParseDecimal(s: string): Option<int>
  {
    if |s| > 0 && s[0] == '-' then
      match ParseDigits(s[1..])
      case None => None
      case Some(p) => Some(-(p as int))
    else ParseDigits(s)
  }

  lemma {:induction false} DigitsRoundTrip(n: nat)
    ensures ParseDigits(Digits(n)) == Some(n)
  {
    if n >= 10 {
      DigitsRoundTrip(n / 10);
      var init, last := Digits(n / 10), DigitChar(n % 10);
      assert Digits(n)[..|Digits(n)| - 1] == init;
      assert DigitValue(last) == n % 10;
    }
  }

  /** Every integer can be read back from its decimal form. */
  lemma {:induction false} DecimalRoundTrip(n: int)
    ensures ParseDecimal(Decimal(n)) == Some(n)
  {
    if n < 0 {
      NegativeRoundTrip(-n);
    } else {
      DigitsRoundTrip(n);
      assert IsDigit(Digits(n)[0]);
    }
  }

  lemma NegativeRoundTrip(m: nat)
    requires m > 0
    ensures ParseDecimal("-" + Digits(m)) == Some(-(m as int))
  {
    var s := "-" + Digits(m);
    DigitsRoundTrip(m);
    assert s[1..] == Digits(m);
  }

  const NamePrefix := "My name is "
  const AgeInfix := " and I'm "

  /** `appendInterpolation(_ value: SomeUser)`. */
  function Interpolate(u: SomeUser): (s: string)
    ensures var i := |NamePrefix| + |u.name|;
            |s| == i + |AgeInfix| + |Decimal(u.age)| &&
            s[..|NamePrefix|] == NamePrefix &&
            s[|NamePrefix|..i] == u.name &&
            s[i..i + |AgeInfix|] == AgeInfix &&
            s[i + |AgeInfix|..] == Decimal(u.age)
  {
    NamePrefix + u.name + AgeInfix + Decimal(u.age)
  }

  /**
   * The interpolation of a user is the fixed prefix, the name, the fixed
   * infix and the age in decimal, from which the age reads back.
   */
  lemma InterpolationReadsBack(u: SomeUser)
    ensures var s := Interpolate(u);
            var i := |NamePrefix| + |u.name|;
            |s| > i + |AgeInfix| &&
            s[..|NamePrefix|] == NamePrefix &&
            s[|NamePrefix|..i] == u.name &&
            s[i..i + |AgeInfix|] == AgeInfix &&
            ParseDecimal(s[i + |AgeInfix|..]) == Some(u.age)
  {
    var s := Interpolate(u);
    var i := |NamePrefix| + |u.name|;
    assert s[i + |AgeInfix|..] == Decimal(u.age);
    DecimalRoundTrip(u.age);
  }
}
