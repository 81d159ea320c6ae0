/** `SystemMetricsService.FormatBytesHuman`: a byte count as a magnitude
    in base-1024 units, at most two decimals. */
module ByteFormat {
  import opened Text

  const Sizes: seq<string> := ["B", "KB", "MB", "GB", "TB", "PB"]

  /** The index of the largest unit. */
  const MaxOrder: nat := |Sizes| - 1

  function Pow1024(k: nat): (p: nat)
    ensures p >= 1
  {
    if k == 0 then 1 else 1024 * Pow1024(k - 1)
  }

  lemma {:induction false} Pow1024Monotone(i: nat, j: nat)
    requires i <= j
    ensures Pow1024(i) <= Pow1024(j)
  {
    if i < j {
      Pow1024Monotone(i, j - 1);
    }
  }

  /** The unit a byte count is shown in: the largest unit (up to PB) that
      is at most the count, and bytes below 1 KB. */
  predicate IsUnitOrder(bytes: nat, order: nat) {
    && order <= MaxOrder
    && (order == 0 || Pow1024(order) <= bytes)
    && (order == MaxOrder || bytes < Pow1024(order + 1))
  }

  function UnitOrder(bytes: nat): (order: nat)
    ensures IsUnitOrder(bytes, order)
  {
    if bytes < 1024 then 0
    else
      var below := UnitOrder(bytes / 1024);
      if below == MaxOrder then MaxOrder else below + 1
  }

  /** At most one unit fits a byte count. */
  lemma UnitOrderUnique(bytes: nat, order: nat)
    requires IsUnitOrder(bytes, order)
    ensures order == UnitOrder(bytes)
  {
    var o := UnitOrder(bytes);
    if order < o {
      Pow1024Monotone(order + 1, o);
    } else if o < order {
      Pow1024Monotone(o + 1, order);
    }
  }

  /** A larger count is never shown in a smaller unit. */
  lemma UnitOrderMonotone(b1: nat, b2: nat)
    requires b1 <= b2
    ensures UnitOrder(b1) <= UnitOrder(b2)
  {
    var o1, o2 := UnitOrder(b1), UnitOrder(b2);
    if o2 < o1 {
      Pow1024Monotone(o2 + 1, o1);
    }
  }

  /** `bytes` expressed in the unit of index `order`. */
  function Scaled(bytes: nat, order: nat): real {
    bytes as real / Pow1024(order) as real
  }

  /** The number shown before the unit, before rounding. */
  function Magnitude(bytes: nat): real {
    Scaled(bytes, UnitOrder(bytes))
  }

  /** For a positive divisor, `b / p >= k` exactly when `b >= k * p`. */
  lemma QuotientAtLeast(b: real, p: real, k: real)
    requires p > 0.0
    ensures b / p >= k <==> b >= k * p
  {
    var m := b / p;
    assert m * p == b;
    if m < k {
      ProductPositive(k - m, p);
      assert (k - m) * p == k * p - m * p;
    } else if m > k {
      ProductPositive(m - k, p);
      assert (m - k) * p == m * p - k * p;
    }
  }

  /** A count is at least `c` of a unit exactly when it is at least `c`
      times that unit in bytes. */
  lemma ScaledAtLeast(bytes: nat, order: nat, c: nat)
    ensures Scaled(bytes, order) >= c as real <==> bytes >= c * Pow1024(order)
  {
    QuotientAtLeast(bytes as real, Pow1024(order) as real, c as real);
    assert (c * Pow1024(order)) as real == c as real * Pow1024(order) as real;
  }

  /** Moving to the next unit divides the number by 1024. */
  lemma ScaledStep(bytes: nat, order: nat)
    ensures Scaled(bytes, order + 1) == Scaled(bytes, order) / 1024.0
  {
    var p := Pow1024(order) as real;
    assert Pow1024(order + 1) as real == 1024.0 * p;
    var m := bytes as real / p;
    assert m * p == bytes as real;
    assert (m / 1024.0) * (1024.0 * p) == bytes as real;
  }

  /** Where the scaling loop stops is the unit of the count, and the number
      there is at least 1 in every unit but bytes. */
  lemma StopIsUnit(bytes: nat, order: nat)
    requires order <= MaxOrder && (order == 0 || Pow1024(order) <= bytes)
    requires order == MaxOrder || Scaled(bytes, order) < 1024.0
    ensures order == UnitOrder(bytes)
    ensures order > 0 ==> Scaled(bytes, order) >= 1.0
  {
    ScaledAtLeast(bytes, order, 1024);
    ScaledAtLeast(bytes, order, 1);
    UnitOrderUnique(bytes, order);
  }

  /** The magnitude is below 1024 except in the largest unit, and at least 1
      in every unit but bytes. */
  lemma MagnitudeBounds(bytes: nat)
    ensures UnitOrder(bytes) < MaxOrder ==> Magnitude(bytes) < 1024.0
    ensures UnitOrder(bytes) > 0 ==> Magnitude(bytes) >= 1.0
    ensures Magnitude(bytes) >= 0.0
  {
    var o := UnitOrder(bytes);
    ScaledAtLeast(bytes, o, 1024);
    ScaledAtLeast(bytes, o, 1);
    ScaledAtLeast(bytes, o, 0);
  }

  /** `FormatBytesHuman(bytes)`: the magnitude with `0.##` and the unit. */
  function HumanBytes(bytes: nat): string {
    FormatTrimmed(Magnitude(bytes), 2) + " " + Sizes[UnitOrder(bytes)]
  }

  lemma HumanBytesExamples()
    ensures HumanBytes(0) == "0 B"
    ensures HumanBytes(1024) == "1 KB"
    ensures HumanBytes(1536) == "1.5 KB"
  {
    HumanBytesZero();
    HumanBytesOneKilo();
    HumanBytesOneAndHalfKilo();
  }

  lemma HumanBytesZero()
    ensures HumanBytes(0) == "0 B"
  {
    assert UnitOrder(0) == 0 && Magnitude(0) == 0.0;
    assert RoundScaled(0.0, 2) == 0;
    assert FractionDigits(0, 2) == "00";
    assert TrimTrailingZeros("00") == "";
    assert WholeDigits(0, 2) == "0";
  }

  lemma HumanBytesOneKilo()
    ensures HumanBytes(1024) == "1 KB"
  {
    assert UnitOrder(1024) == 1;
    assert Magnitude(1024) == 1.0;
    assert RoundScaled(1.0, 2) == 100;
    assert FractionDigits(100, 2) == "00";
    assert TrimTrailingZeros("00") == "";
    assert WholeDigits(100, 2) == "1";
  }

  lemma HumanBytesOneAndHalfKilo()
    ensures HumanBytes(1536) == "1.5 KB"
  {
    assert UnitOrder(1536) == 1;
    assert Magnitude(1536) == 1.5;
    OneAndHalfDigits();
  }

  lemma OneAndHalfDigits()
    ensures FormatTrimmed(1.5, 2) == "1.5"
  {
    RoundOneAndHalf();
    FiftyHundredths();
    OneHundredths();
  }

  lemma RoundOneAndHalf()
    ensures RoundScaled(1.5, 2) == 150
  {
    assert 1.5 * Pow10(2) as real == 150.0;
  }

  lemma OneHundredths()
    ensures WholeDigits(150, 2) == "1"
  {
    assert 150 / Pow10(2) == 1;
  }

  lemma FiftyHundredths()
    ensures TrimTrailingZeros(FractionDigits(150, 2)) == "5"
  {
    PadFifty();
    assert 150 % Pow10(2) == 50;
    TrimFifty();
  }

  lemma PadFifty()
    ensures PadDigits(50, 2) == "50"
  {
    assert PadDigits(5, 1) == "5";
  }

  lemma TrimFifty()
    ensures TrimTrailingZeros("50") == "5"
  {
    assert "50"[..1] == "5";
  }

  /** The loop of `FormatBytesHuman`: divide by 1024 while the value is at
      least 1024 and a larger unit remains. */
  method ScaleBytes(bytes: u64) returns (len: real, order: nat)
    ensures order <= MaxOrder
    ensures len == bytes as real / Pow1024(order) as real
    ensures order == MaxOrder || len < 1024.0
    ensures order > 0 ==> len >= 1.0
    ensures order == UnitOrder(bytes) && len == Magnitude(bytes)
  {
    len, order := bytes as real, 0;
    while len >= 1024.0 && order < MaxOrder
      invariant order <= MaxOrder
      invariant len == Scaled(bytes, order)
      invariant order == 0 || Pow1024(order) <= bytes
    {
      ScaledAtLeast(bytes, order, 1024);
      ScaledStep(bytes, order);
      order, len := order + 1, len / 1024.0;
    }
    StopIsUnit(bytes, order);
  }

  method FormatBytesHuman(bytes: u64) returns (s: string)
    ensures s == HumanBytes(bytes)
  {
    var len, order := ScaleBytes(bytes);
    s := FormatTrimmed(len, 2) + " " + Sizes[order];
  }
}
