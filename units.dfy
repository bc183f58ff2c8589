/** The byte-count formatter `human_unit`: a byte count is scaled to
    megabytes and then divided by 1024 until it drops below 1024, moving one
    step along the unit names each time. */
module Units {
  import opened Faults

  /** The unit names `human_unit` indexes, smallest first. */
  const UnitNames: seq<string> := ["MB", "GB", "TB", "PB"]

  /** A formatted capacity: the exact magnitude and the unit it is in (the
      two-decimal rendering of the magnitude is not modelled). */
  datatype Readable = Readable(amount: real, unit: string)

  /** 1024 raised to the power `k`. */
  function Pow1024(k: nat): (p: nat)
    ensures p >= 1
  {
    if k == 0 then 1 else 1024 * Pow1024(k - 1)
  }

  /** The smallest byte count for which the loop divides once more while
      unit `i` is selected: the scaled value `bytes / 1024^(2+i)` reaches 1024
      exactly when `bytes >= 1024^(3+i)`. */
  function UnitLimit(i: nat): (limit: nat)
    ensures limit == 1024 * Pow1024(2 + i)
  {
    Pow1024(3 + i)
  }

  /** The number of divisions the loop performs for `bytes`, counted on
      integers: dividing by 1024 and rounding down keeps every comparison with
      a multiple of 1024 intact. */
  function UnitIndex(bytes: int): nat
    decreases bytes
  {
    if bytes < UnitLimit(0) then 0 else 1 + UnitIndex(bytes / 1024)
  }

  /** What `human_unit(bytes)` yields: the magnitude `bytes / 1024^(2+i)` in
      unit `UnitNames[i]` for i = UnitIndex(bytes), or an IndexError when i
      runs past the last unit. */
  function ReadableOf(bytes: int): Result<Readable> {
    var i := UnitIndex(bytes);
    if i < |UnitNames| then
      Ok(Readable(bytes as real / Pow1024(2 + i) as real, UnitNames[i]))
    else
      Raised(IndexError)
  }

  lemma {:induction false} LimitMonotone(i: nat, j: nat)
    requires i <= j
    ensures UnitLimit(i) <= UnitLimit(j)
    decreases j - i
  {
    if i < j {
      LimitMonotone(i, j - 1);
    }
  }

  /** Loop step `i` is taken (the scaled value is still at least 1024) exactly
      when the byte count has reached 1024^(3+i). */
  lemma {:induction false} UnitIndexExceeds(bytes: int, i: nat)
    ensures i < UnitIndex(bytes) <==> UnitLimit(i) <= bytes
    decreases i
  {
    if bytes < UnitLimit(0) {
      LimitMonotone(0, i);
    } else if i > 0 {
      UnitIndexExceeds(bytes / 1024, i - 1);
      assert UnitLimit(i) == 1024 * UnitLimit(i - 1);
    }
  }

  /** The unit chosen is the least `i` with `bytes < 1024^(3+i)`. */
  lemma UnitIndexIsLeast(bytes: int)
    ensures bytes < UnitLimit(UnitIndex(bytes))
    ensures forall j: nat :: j < UnitIndex(bytes) ==> UnitLimit(j) <= bytes
  {
    UnitIndexExceeds(bytes, UnitIndex(bytes));
    forall j: nat | j < UnitIndex(bytes) ensures UnitLimit(j) <= bytes {
      UnitIndexExceeds(bytes, j);
    }
  }

  /** The scaled value compared with 1024, restated on the byte count. */
  lemma ScaledReachesLimit(bytes: int, i: nat)
    ensures bytes as real / Pow1024(2 + i) as real >= 1024.0 <==> UnitLimit(i) <= bytes
  {
  }

  /** One more division by 1024 scales by the next power of 1024. */
  lemma ScaleOnce(bytes: int, i: nat)
    ensures bytes as real / Pow1024(2 + i) as real / 1024.0 == bytes as real / Pow1024(3 + i) as real
  {
  }

  /** `human_unit`: scale to megabytes, divide by 1024 while the value is at
      least 1024, then look the unit up by the number of divisions. */
  method HumanUnit(bytes: int) returns (r: Result<Readable>)
    ensures r == ReadableOf(bytes)
  {
    var amount := bytes as real / 1024.0 / 1024.0;
    var i: nat := 0;
    while amount >= 1024.0
      invariant i <= UnitIndex(bytes)
      invariant amount == bytes as real / Pow1024(2 + i) as real
      decreases UnitIndex(bytes) - i
    {
      ScaledReachesLimit(bytes, i);
      UnitIndexExceeds(bytes, i);
      ScaleOnce(bytes, i);
      amount := amount / 1024.0;
      i := i + 1;
    }
    ScaledReachesLimit(bytes, i);
    UnitIndexExceeds(bytes, i);
    if i < |UnitNames| {
      r := Ok(Readable(amount, UnitNames[i]));
    } else {
      r := Raised(IndexError);
    }
  }

  /** `units[i]` is in range exactly when the byte count is below 1024^6
      (2^60); from there on `human_unit` raises IndexError. */
  lemma ReadableDefined(bytes: int)
    ensures ReadableOf(bytes).Ok? <==> bytes < Pow1024(6)
  {
    UnitIndexExceeds(bytes, 3);
  }

  /** The unit bands: MB below 2^30, GB below 2^40, TB below 2^50, PB below 2^60. */
  lemma UnitBands(bytes: int)
    ensures ReadableOf(bytes).Ok? && ReadableOf(bytes).value.unit == "MB" <==> bytes < Pow1024(3)
    ensures ReadableOf(bytes).Ok? && ReadableOf(bytes).value.unit == "GB" <==> Pow1024(3) <= bytes < Pow1024(4)
    ensures ReadableOf(bytes).Ok? && ReadableOf(bytes).value.unit == "TB" <==> Pow1024(4) <= bytes < Pow1024(5)
    ensures ReadableOf(bytes).Ok? && ReadableOf(bytes).value.unit == "PB" <==> Pow1024(5) <= bytes < Pow1024(6)
  {
    UnitIndexExceeds(bytes, 0);
    UnitIndexExceeds(bytes, 1);
    UnitIndexExceeds(bytes, 2);
    UnitIndexExceeds(bytes, 3);
  }

  /** The magnitude shown is below 1024, is at least 1 once a unit above MB is
      chosen, and times 1024^(2+i) gives back the byte count. */
  lemma ReadableMagnitude(bytes: int)
    ensures ReadableOf(bytes).Ok? ==> ReadableOf(bytes).value.amount < 1024.0
    ensures ReadableOf(bytes).Ok? && Pow1024(3) <= bytes ==> 1.0 <= ReadableOf(bytes).value.amount
    ensures ReadableOf(bytes).Ok? ==>
      ReadableOf(bytes).value.amount * Pow1024(2 + UnitIndex(bytes)) as real == bytes as real
  {
    var i := UnitIndex(bytes);
    var p := Pow1024(2 + i) as real;
    UnitIndexExceeds(bytes, i);
    ScaledReachesLimit(bytes, i);
    if i > 0 {
      UnitIndexExceeds(bytes, i - 1);
      assert UnitLimit(i - 1) == Pow1024(2 + i);
      QuotientAtLeastOne(bytes as real, p);
    }
    assert bytes as real / p * p == bytes as real;
  }

  lemma QuotientAtLeastOne(x: real, p: real)
    requires 0.0 < p <= x
    ensures 1.0 <= x / p
  {
  }

  /** The sample values: 0 bytes is 0 MB, 1024^2 is 1 MB, 1024^3 is 1 GB and
      1024^4 is 1 TB. */
  lemma SampleValues()
    ensures ReadableOf(0) == Ok(Readable(0.0, "MB"))
    ensures ReadableOf(1048576) == Ok(Readable(1.0, "MB"))
    ensures ReadableOf(1073741824) == Ok(Readable(1.0, "GB"))
    ensures ReadableOf(1099511627776) == Ok(Readable(1.0, "TB"))
  {
  }
}
