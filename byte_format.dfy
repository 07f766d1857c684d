/** The two byte-size formatters: formatBytes in internal/handlers/api.go (used
    for the storage-usage summary) and formatBytes in main.go (the template
    helper). Only their integer logic and the choice of unit are modelled; a
    scaled size is kept as the exact quotient that would be printed. */
module ByteFormat {
  import opened Common

  /** What a formatter produces. `OneDecimal(value, unit)` stands for `value`
      printed with fmt's "%.1f" followed by a space and `unit`. */
  datatype ByteText = Text(s: string) | OneDecimal(value: real, unit: string)

  function Pow1024(k: nat): (p: nat)
    ensures p >= 1
  {
    if k == 0 then 1 else 1024 * Pow1024(k - 1)
  }

  lemma {:induction false} Pow1024Monotone(j: nat, k: nat)
    requires j <= k
    ensures Pow1024(j) <= Pow1024(k)
    decreases k
  {
    if j < k {
      Pow1024Monotone(j, k - 1);
    }
  }

  /** Multiplication by a natural number is monotone: the one nonlinear fact
      the exponent loop below needs, at each of its four uses. */
  lemma MulMonotone(a: nat, b: nat, c: nat)
    requires b <= c
    ensures a * b <= a * c
  {
  }

  // ---------------------------------------------------------------------------
  // internal/handlers/api.go

  const ApiUnits: seq<string> := ["KB", "MB", "GB", "TB", "PB"]

  /** The exponent loop of api.go's formatBytes: starting from one kibibyte, the
      divisor grows by 1024 while at least 1024 of it still fit into `bytes`,
      so it ends as the largest power of 1024 not above `bytes`. */
  method ApiExponent(bytes: int) returns (div: nat, exp: nat)
    requires bytes >= 1024
    ensures div == Pow1024(exp + 1)
    ensures div <= bytes < 1024 * div
  {
    div, exp := 1024, 0;
    var n := bytes / 1024;
    while n >= 1024
      invariant div == Pow1024(exp + 1)
      invariant div * n <= bytes < div * (n + 1)
      invariant n >= 1
    {
      var n' := n / 1024;
      assert n' * 1024 <= n < (n' + 1) * 1024;
      MulMonotone(div, n' * 1024, n);
      MulMonotone(div, n + 1, (n' + 1) * 1024);
      assert div * (n' * 1024) == (div * 1024) * n';
      assert div * ((n' + 1) * 1024) == (div * 1024) * (n' + 1);
      div := div * 1024;
      exp := exp + 1;
      n := n';
    }
    MulMonotone(div, 1, n);
    MulMonotone(div, n + 1, 1024);
  }

  /** The exponent the loop ends with stays below 5, the length of the unit
      table, exactly when `bytes` is below 1024^6 (one exbibyte). */
  lemma {:induction false} ApiExponentInRange(bytes: int, div: nat, exp: nat)
    requires div == Pow1024(exp + 1) && div <= bytes < 1024 * div
    ensures exp < |ApiUnits| <==> bytes < Pow1024(6)
  {
    if exp < 5 {
      Pow1024Monotone(exp + 2, 6);
    } else {
      Pow1024Monotone(6, exp + 1);
    }
  }

  /** api.go's formatBytes exactly as written. `None` stands for the
      index-out-of-range panic of `units[exp]`, which happens for every size
      of at least one exbibyte; every text it does produce is the one the
      completed formatter gives (IsApiText). */
  method FormatBytesApiAsWritten(bytes: int) returns (r: Option<ByteText>)
    ensures bytes < 0 ==> r == Some(Text("N/A"))
    ensures 0 <= bytes < 1024 ==> r == Some(Text(IntToDecimal(bytes) + " B"))
    ensures bytes >= 1024 ==> (r.None? <==> bytes >= Pow1024(6))
    ensures r.None? <==> bytes >= Pow1024(6)
    ensures r.Some? ==> IsApiText(bytes, r.value)
    ensures bytes >= 1024 && r.Some? ==>
              exists exp | 0 <= exp < |ApiUnits| ::
                Pow1024(exp + 1) <= bytes < Pow1024(exp + 2)
                && r.value == OneDecimal(bytes as real / Pow1024(exp + 1) as real, ApiUnits[exp])
  {
    if bytes < 0 {
      return Some(Text("N/A"));
    }
    if bytes < 1024 {
      return Some(Text(IntToDecimal(bytes) + " B"));
    }
    var div, exp := ApiExponent(bytes);
    ApiExponentInRange(bytes, div, exp);
    if exp >= |ApiUnits| {
      return None;
    }
    r := Some(OneDecimal(bytes as real / div as real, ApiUnits[exp]));
    assert CorrectedApiUnits[exp] == ApiUnits[exp];
    assert Pow1024(exp + 2) == 1024 * div;
  }

  /** A size that makes the as-written formatter panic is a legal int64 value. */
  lemma ExbibyteIsInt64()
    ensures 1024 <= Pow1024(6) <= MaxInt64
    ensures Pow1024(6) == 1_152_921_504_606_846_976
  {
  }

  /** The unit table with the exbibyte unit it is missing. */
  const CorrectedApiUnits: seq<string> := ApiUnits + ["EB"]

  /** No int64 size is 1024^7 or more, so with "EB" added the exponent is always in range. */
  lemma {:induction false} ExponentFitsCorrectedUnits(bytes: int, div: nat, exp: nat)
    requires bytes <= MaxInt64
    requires div == Pow1024(exp + 1) && div <= bytes < 1024 * div
    ensures exp < |CorrectedApiUnits|
  {
    if exp + 1 >= 7 {
      Pow1024Monotone(7, exp + 1);
    }
    assert Pow1024(7) > MaxInt64;
  }

  /** `r` is what api.go's formatBytes, with the unit table completed, gives
      for `bytes`: "N/A" for a negative size, the exact count of bytes below
      one kibibyte, and otherwise the size scaled by the largest power of 1024
      not above it, with that power's unit. */
  predicate IsApiText(bytes: int, r: ByteText)
  {
    (bytes < 0 ==> r == Text("N/A"))
    && (0 <= bytes < 1024 ==> r == Text(IntToDecimal(bytes) + " B"))
    && (bytes >= 1024 ==>
          exists exp | 0 <= exp < |CorrectedApiUnits| ::
            Pow1024(exp + 1) <= bytes < Pow1024(exp + 2)
            && r == OneDecimal(bytes as real / Pow1024(exp + 1) as real, CorrectedApiUnits[exp]))
  }

  /** api.go's formatBytes with the unit table completed: every int64 size
      gets a unit, the one whose scale is the largest power of 1024 not above
      the size. */
  method FormatBytesApi(bytes: int) returns (r: ByteText)
    requires bytes <= MaxInt64
    ensures IsApiText(bytes, r)
  {
    if bytes < 0 {
      return Text("N/A");
    }
    if bytes < 1024 {
      return Text(IntToDecimal(bytes) + " B");
    }
    var div, exp := ApiExponent(bytes);
    ExponentFitsCorrectedUnits(bytes, div, exp);
    r := OneDecimal(bytes as real / div as real, CorrectedApiUnits[exp]);
  }

  // ---------------------------------------------------------------------------
  // main.go

  const PanelUnits: seq<string> := ["B", "KB", "MB", "GB", "TB"]

  /** main.go's formatBytes: "Calculating..." for the not-yet-known size -1
      (any negative size), "Empty" for 0, otherwise the size divided by 1024
      while it is at least 1024 and a larger unit remains, so the unit index
      never leaves the five-entry table and everything from a tebibyte up is
      shown in TB. */
  method FormatBytesPanel(bytes: int) returns (r: ByteText, unitIndex: nat)
    ensures bytes < 0 ==> r == Text("Calculating...")
    ensures bytes == 0 ==> r == Text("Empty")
    ensures bytes > 0 ==> unitIndex < |PanelUnits|
    ensures bytes > 0 ==> Pow1024(unitIndex) <= bytes
    ensures bytes > 0 && unitIndex < |PanelUnits| - 1 ==> bytes < Pow1024(unitIndex + 1)
    ensures bytes > 0 && unitIndex == 0 ==> r == Text(IntToDecimal(bytes) + " B")
    ensures bytes > 0 && unitIndex > 0 ==>
              r == OneDecimal(bytes as real / Pow1024(unitIndex) as real, PanelUnits[unitIndex])
  {
    unitIndex := 0;
    if bytes < 0 {
      return Text("Calculating..."), 0;
    }
    if bytes == 0 {
      return Text("Empty"), 0;
    }
    // The float `size` is kept as the exact quotient bytes / div, so the
    // test size >= 1024 reads bytes >= 1024 * div.
    var div: nat := 1;
    while bytes >= 1024 * div && unitIndex < |PanelUnits| - 1
      invariant unitIndex < |PanelUnits|
      invariant div == Pow1024(unitIndex) && div <= bytes
    {
      div := div * 1024;
      unitIndex := unitIndex + 1;
    }
    if unitIndex == 0 {
      r := Text(IntToDecimal(bytes) + " B");
    } else {
      r := OneDecimal(bytes as real / div as real, PanelUnits[unitIndex]);
    }
  }
}
