/** The maximum file size from the body-size annotation of the Ingress, in 64-bit integers. */
module BodySize {
  import opened Kube

  const SIZE_MB: int := 1048576
  const SIZE_GB: int := 1048576000
  const DEFAULT_MAX_FILE_SIZE: int := 1000
  const BODY_SIZE_ANNOTATION := "nginx.ingress.kubernetes.io/proxy-body-size"

  const MAX_INT64: int := 0x7fff_ffff_ffff_ffff
  const MIN_INT64: int := -0x8000_0000_0000_0000
  const TWO_TO_64: int := 0x1_0000_0000_0000_0000

  predicate IsInt64(n: int) {
    MIN_INT64 <= n <= MAX_INT64
  }

  /** 64-bit wrap-around */
  function Wrap(n: int): (r: int)
    ensures IsInt64(r)
    ensures r == n <==> IsInt64(n)
  {
    (n - MIN_INT64) % TWO_TO_64 + MIN_INT64
  }

  // ---------- Decimal text ----------

  function Digit(d: nat): char
    requires d < 10
  {
    "0123456789"[d]
  }

  predicate IsDigit(c: char) {
    '0' <= c <= '9'
  }

  function DigitValue(c: char): nat
    requires IsDigit(c)
  {
    c as int - '0' as int
  }

  function Digits(n: nat): string {
    if n < 10 then [Digit(n)] else Digits(n / 10) + [Digit(n % 10)]
  }

  function Itoa(n: int): string {
    if n < 0 then "-" + Digits(-n) else Digits(n)
  }

  function Value(digits: string): Option<nat> {
    if digits == [] then None
    else
      var front, c := digits[..|digits| - 1], digits[|digits| - 1];
      if !IsDigit(c) then None
      else if front == [] then Some(DigitValue(c))
      else
        match Value(front)
        case None => None
        case Some(n) => Some(n * 10 + DigitValue(c))
  }

  function Clamp(n: int): int {
    if n > MAX_INT64 then MAX_INT64 else if n < MIN_INT64 then MIN_INT64 else n
  }

  predicate IsSigned(s: string) {
    s != "" && (s[0] == '-' || s[0] == '+')
  }

  function Unsigned(s: string): string {
    if IsSigned(s) then s[1..] else s
  }

  /** The number that Atoi returns next to its error: zero for what is no number, the nearest bound for what
      is out of range. */
  function Atoi(s: string): int {
    match Value(Unsigned(s))
    case None => 0
    case Some(n) =>
      var number: int := n;
      Clamp(if IsSigned(s) && s[0] == '-' then -number else number)
  }

  // ---------- The annotation ----------

  datatype Outcome = Panic | Size(text: string)

  /** An empty annotation has no last character: the index is out of range. */
  function DetermineMaxBodySize(annotations: map<string, string>, defaultSize: string): Outcome {
    if BODY_SIZE_ANNOTATION !in annotations then Size(defaultSize)
    else
      var size := annotations[BODY_SIZE_ANNOTATION];
      if size == "" then Panic
      else
        var unit, number := size[|size| - 1], Atoi(size[..|size| - 1]);
        if unit == 'M' || unit == 'm' then Size(Itoa(Wrap(number * SIZE_MB)))
        else if unit == 'G' || unit == 'g' then Size(Itoa(Wrap(number * SIZE_GB)))
        else Size(defaultSize)
  }

  /** The size for an Ingress without the annotation. */
  function DefaultBodySize(): string {
    Itoa(DEFAULT_MAX_FILE_SIZE * SIZE_MB)
  }

  // ---------- Proofs ----------

  lemma {:induction false} DigitsAreRead(n: nat)
    ensures Value(Digits(n)) == Some(n)
    ensures Digits(n) != "" && IsDigit(Digits(n)[0])
  {
    if n >= 10 {
      DigitsAreRead(n / 10);
      assert Digits(n)[..|Digits(n)| - 1] == Digits(n / 10);
    }
  }

  /** Reading back what was written gives the number. */
  lemma TextRoundTrip(n: int)
    ensures Atoi(Itoa(n)) == Clamp(n)
  {
    if n < 0 {
      DigitsAreRead(-n);
      assert ("-" + Digits(-n))[1..] == Digits(-n);
    } else {
      DigitsAreRead(n);
    }
  }

  lemma ItoaIsInjective(a: int, b: int)
    requires IsInt64(a) && IsInt64(b)
    ensures Itoa(a) == Itoa(b) <==> a == b
  {
    TextRoundTrip(a);
    TextRoundTrip(b);
    hide Itoa, Atoi;
  }

  predicate IsUnit(unit: char) {
    unit in "MmGg"
  }

  function UnitSize(unit: char): int {
    if unit in "Mm" then SIZE_MB else SIZE_GB
  }

  function Annotated(text: string): map<string, string> {
    map[BODY_SIZE_ANNOTATION := text]
  }

  /** A text with a unit gives the wrapped product of the unit and the number that the text is read as. */
  lemma UnitsMultiply(text: string, unit: char, defaultSize: string)
    requires IsUnit(unit)
    ensures DetermineMaxBodySize(Annotated(text + [unit]), defaultSize) == Size(Itoa(Wrap(Atoi(text) * UnitSize(unit))))
  {
    hide Itoa, Atoi, Wrap;
    assert (text + [unit])[..|text|] == text;
  }

  /** The operator panics exactly on an annotation that is there and empty. */
  lemma PanicsIff(annotations: map<string, string>, defaultSize: string)
    ensures DetermineMaxBodySize(annotations, defaultSize) == Panic <==>
      BODY_SIZE_ANNOTATION in annotations && annotations[BODY_SIZE_ANNOTATION] == ""
  {
    hide Itoa, Atoi, Wrap;
  }

  /** What is read back from a wrapped number is the number exactly when it fits into 64 bits. */
  lemma WrappedTextIff(n: int)
    ensures Atoi(Itoa(Wrap(n))) == n <==> IsInt64(n)
  {
    TextRoundTrip(Wrap(n));
    hide Itoa, Atoi;
  }

  /** A size in megabytes becomes the decimal of its bytes, and reading that gives the bytes, exactly when the
      bytes fit into 64 bits. */
  lemma {:induction false} MegabytesBecomeBytesIff(n: int, defaultSize: string)
    requires IsInt64(n)
    ensures var outcome := DetermineMaxBodySize(Annotated(Itoa(n) + "M"), defaultSize);
      && outcome.Size?
      && (IsInt64(n * SIZE_MB) ==> outcome.text == Itoa(n * SIZE_MB))
      && (Atoi(outcome.text) == n * SIZE_MB <==> IsInt64(n * SIZE_MB))
  {
    TextRoundTrip(n);
    UnitsMultiply(Itoa(n), 'M', defaultSize);
    WrappedTextIff(n * SIZE_MB);
    hide Itoa, Atoi, Wrap, DetermineMaxBodySize, Annotated;
    assert IsInt64(n * SIZE_MB) ==> Wrap(n * SIZE_MB) == n * SIZE_MB;
  }

  // ---------- Sizes of zero ----------

  const LOST_IN_MB: int := 0x1000_0000_0000
  const LOST_IN_GB: int := 0x200_0000_0000
  const INVERSE_OF_125: int := 211106232533

  lemma WrapIsZero(n: int)
    ensures Wrap(n) == 0 <==> n % TWO_TO_64 == 0
  {
  }

  /** In 64 bits, multiplying by a unit loses the upper bits: nothing is left of exactly these numbers. */
  lemma ProductWrapsToZeroIff(n: int)
    ensures Wrap(n * SIZE_MB) == 0 <==> n % LOST_IN_MB == 0
    ensures Wrap(n * SIZE_GB) == 0 <==> n % LOST_IN_GB == 0
  {
    WrapIsZero(n * SIZE_MB);
    WrapIsZero(n * SIZE_GB);
    hide Wrap;
    var q := n * SIZE_MB / TWO_TO_64;
    if n * SIZE_MB % TWO_TO_64 == 0 {
      assert n == q * LOST_IN_MB;
    }
    if n % LOST_IN_MB == 0 {
      assert n * SIZE_MB == n / LOST_IN_MB * TWO_TO_64;
    }
    GigabytesWrapToZeroIff(n);
  }

  lemma GigabytesWrapToZeroIff(n: int)
    ensures n * SIZE_GB % TWO_TO_64 == 0 <==> n % LOST_IN_GB == 0
  {
    if n * SIZE_GB % TWO_TO_64 == 0 {
      FactorOfGigabytes(n, n * SIZE_GB / TWO_TO_64);
    }
    if n % LOST_IN_GB == 0 {
      assert n * SIZE_GB == n / LOST_IN_GB * 125 * TWO_TO_64;
    }
  }

  lemma FactorOfGigabytes(n: int, q: int)
    requires n * SIZE_GB == q * TWO_TO_64
    ensures n % LOST_IN_GB == 0
  {
    assert n == (q * INVERSE_OF_125 - n * 12) * LOST_IN_GB by {
      assert 125 * n == q * LOST_IN_GB;
      assert 125 * INVERSE_OF_125 == 1 + 12 * LOST_IN_GB;
    }
  }

  /** Whatever text stands before the unit, signed or not, a number or not: the size is zero exactly when the
      number that the text is read as has no lower bits that survive the product. */
  lemma {:induction false} SizeIsZeroIff(text: string, unit: char, defaultSize: string)
    requires IsUnit(unit)
    ensures DetermineMaxBodySize(Annotated(text + [unit]), defaultSize) == Size("0") <==>
      Atoi(text) % (if unit in "Mm" then LOST_IN_MB else LOST_IN_GB) == 0
  {
    UnitsMultiply(text, unit, defaultSize);
    ProductWrapsToZeroIff(Atoi(text));
    ItoaIsInjective(Wrap(Atoi(text) * UnitSize(unit)), 0);
    assert Itoa(0) == "0";
    hide DetermineMaxBodySize, Atoi, Itoa, Wrap;
  }

  /** A text is read as zero exactly when it is no number, or a number of zero, after its sign. */
  lemma ReadAsZeroIff(text: string)
    ensures Atoi(text) == 0 <==> Value(Unsigned(text)) == None || Value(Unsigned(text)) == Some(0)
  {
    hide Value;
  }

  /** A gigabyte is taken as a thousand megabytes exactly when the megabytes can still be read, or when both
      are lost: a number of megabytes out of range is read as the nearest bound. */
  lemma {:induction false} GigabytesAreThousandMegabytesIff(n: int, defaultSize: string)
    requires IsInt64(n)
    ensures var gigabytes := DetermineMaxBodySize(Annotated(Itoa(n) + "G"), defaultSize);
      var megabytes := DetermineMaxBodySize(Annotated(Itoa(1000 * n) + "M"), defaultSize);
      gigabytes == megabytes <==> IsInt64(1000 * n) || (n < 0 && n % LOST_IN_GB == 0)
  {
    TextRoundTrip(n);
    TextRoundTrip(1000 * n);
    UnitsMultiply(Itoa(n), 'G', defaultSize);
    UnitsMultiply(Itoa(1000 * n), 'M', defaultSize);
    ItoaIsInjective(Wrap(n * SIZE_GB), Wrap(Clamp(1000 * n) * SIZE_MB));
    ProductsAgreeIff(n);
    hide DetermineMaxBodySize, Itoa, Atoi, Wrap, Clamp, Annotated;
    assert Clamp(n) == n by { WithinRange(n); }
  }

  lemma WithinRange(n: int)
    requires IsInt64(n)
    ensures Clamp(n) == n
  {
  }

  lemma ProductsAgreeIff(n: int)
    ensures Wrap(n * SIZE_GB) == Wrap(Clamp(1000 * n) * SIZE_MB) <==>
      IsInt64(1000 * n) || (n < 0 && n % LOST_IN_GB == 0)
  {
    if 1000 * n > MAX_INT64 {
      assert Wrap(MAX_INT64 * SIZE_MB) == -SIZE_MB;
      NoProductIsMinusOneMegabyte(n);
    } else if 1000 * n < MIN_INT64 {
      assert Wrap(MIN_INT64 * SIZE_MB) == 0;
      ProductWrapsToZeroIff(n);
      hide Wrap;
    } else {
      assert n * SIZE_GB == 1000 * n * SIZE_MB;
      hide Wrap;
    }
  }

  lemma NoProductIsMinusOneMegabyte(n: int)
    ensures Wrap(n * SIZE_GB) != -SIZE_MB
  {
    OddMegabytesNeverWrap(n, (n * SIZE_GB - MIN_INT64) / TWO_TO_64);
    assert Wrap(n * SIZE_GB) == n * SIZE_GB - (n * SIZE_GB - MIN_INT64) / TWO_TO_64 * TWO_TO_64;
  }

  lemma OddMegabytesNeverWrap(n: int, q: int)
    ensures n * SIZE_GB + SIZE_MB != q * TWO_TO_64
  {
    assert n * SIZE_GB + SIZE_MB == q * TWO_TO_64 ==> 1000 * n + 1 == q * LOST_IN_MB;
    assert 2 * (500 * n) + 1 != 2 * (q * (LOST_IN_MB / 2));
  }

  // ---------- The default ----------

  lemma SomeDecimals()
    ensures Itoa(1000) == "1000" && Itoa(1) == "1"
  {
    assert Digits(10) == "10";
    assert Digits(100) == "100";
  }

  lemma DefaultSizeWithoutAnnotation(annotations: map<string, string>, defaultSize: string)
    requires BODY_SIZE_ANNOTATION !in annotations
    ensures DetermineMaxBodySize(annotations, defaultSize) == Size(defaultSize)
  {
  }

  /** No annotation means a thousand megabytes, which is what one gigabyte means as well. */
  lemma DefaultIsOneGigabyte(annotations: map<string, string>)
    requires BODY_SIZE_ANNOTATION !in annotations
    ensures var outcome := DetermineMaxBodySize(annotations, DefaultBodySize());
      && outcome == DetermineMaxBodySize(Annotated("1000M"), DefaultBodySize())
      && outcome == DetermineMaxBodySize(Annotated("1G"), DefaultBodySize())
  {
    assert Itoa(1000) + "M" == "1000M" && Itoa(1) + "G" == "1G" by {
      SomeDecimals();
    }
    MegabytesBecomeBytesIff(1000, DefaultBodySize());
    GigabytesAreThousandMegabytesIff(1, DefaultBodySize());
    DefaultSizeWithoutAnnotation(annotations, DefaultBodySize());
    hide Itoa, Atoi, Annotated, DetermineMaxBodySize, Wrap;
  }
}
