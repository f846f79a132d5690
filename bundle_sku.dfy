/**
 * Bundle SKUs: a marketplace SKU "BASE**N" stands for N units of BASE. The
 * multiplier is accepted only when it is a positive integer written without
 * sign, spaces or anything after the digits (leading zeros are tolerated).
 */
module BundleSku {

  import opened Base
  import opened PhpStrings
  import opened Statuses

  /** The SKU after decomposition and the number of units one marketplace unit stands for. */
  datatype Bundle = Bundle(sku: string, multiplier: int)

  /**
   * The multiplier check: `(string) intval($q) === ltrim($q, '0')` and
   * `intval($q) > 0`.
   */
  predicate IsValidMultiplier(q: string) {
    IntString(Intval(q)) == LTrim(q, {'0'}) && Intval(q) > 0
  }

  /** The last `**`-separated segment of a SKU (the whole SKU when it has no separator). */
  function LastSegment(sku: string): string {
    var parts := Explode(BundleSkuSeparator, sku);
    parts[|parts| - 1]
  }

  /**
   * Splits a SKU on "**": when there is a separator and the last segment is a
   * valid multiplier, the SKU is the other segments rejoined and the multiplier
   * is the segment's value; otherwise the SKU is unchanged and the multiplier 1.
   */
  function Decompose(sku: string): (b: Bundle)
    ensures b.multiplier >= 1
  {
    var parts := Explode(BundleSkuSeparator, sku);
    var last := parts[|parts| - 1];
    if |parts| > 1 && IsValidMultiplier(last) then
      Bundle(Implode(BundleSkuSeparator, parts[..|parts| - 1]), Intval(last))
    else
      Bundle(sku, 1)
  }

  /** A string made of digits only is all leading digits. */
  lemma {:induction false} LeadingDigitsOfDigits(s: string)
    requires AllDigits(s)
    ensures LeadingDigits(s) == s
    decreases |s|
  {
    if s != [] {
      LeadingDigitsOfDigits(s[1..]);
      assert s == [s[0]] + s[1..];
    }
  }

  /** An accepted multiplier is, after its leading zeros, a run of digits worth intval of it. */
  lemma ValidMultiplierIsDigits(q: string)
    requires IsValidMultiplier(q)
    ensures var t := LTrim(q, {'0'}); t != [] && AllDigits(t) && DigitsValue(t) == Intval(q)
  {
    var v := Intval(q);
    NatStringDigits(v);
    assert IntString(v) == NatString(v);
  }

  /** A run of digits has no leading whitespace to skip. */
  lemma DigitsHaveNoLeadingSpace(q: string)
    requires q != [] && AllDigits(q)
    ensures LTrim(q, NumericLeadingWhitespace) == q
  {
    assert IsDigit(q[0]);
    assert q[0] !in NumericLeadingWhitespace;
  }

  /** intval of a run of digits that fits a 64-bit int is the run's value. */
  lemma IntvalOfDigits(q: string)
    requires q != [] && AllDigits(q) && DigitsValue(q) <= PhpIntMax
    ensures Intval(q) == DigitsValue(q)
  {
    DigitsHaveNoLeadingSpace(q);
    assert q[0] != '-' && q[0] != '+' by { assert IsDigit(q[0]); }
    LeadingDigitsOfDigits(q);
  }

  /** A string is its leading zeros followed by what ltrim leaves. */
  lemma ZerosThenRest(q: string, z: string, t: string)
    requires t == LTrim(q, {'0'}) && z == q[..|q| - |t|]
    ensures q == z + t && forall i :: 0 <= i < |z| ==> z[i] == '0'
  {
    LTrimSpec(q, {'0'});
    forall i | 0 <= i < |z|
      ensures z[i] == '0'
    {
      assert z[i] == q[i];
    }
  }

  /** intval skips leading zeros: it reads the value of the digits after them. */
  lemma IntvalAfterZeros(q: string, t: string)
    requires t == LTrim(q, {'0'}) && t != [] && AllDigits(t) && DigitsValue(t) <= PhpIntMax
    ensures Intval(q) == DigitsValue(t)
  {
    var z := q[..|q| - |t|];
    ZerosThenRest(q, z, t);
    LeadingZerosValue(z, t);
    IntvalOfDigits(z + t);
  }

  /** The digits ltrim leaves after the zeros render back from their value, which is positive. */
  lemma TrimmedDigitsRender(q: string, t: string)
    requires t == LTrim(q, {'0'}) && t != [] && AllDigits(t)
    ensures DigitsValue(t) >= 1 && IntString(DigitsValue(t)) == t
  {
    LTrimSpec(q, {'0'});
    DigitsValuePositive(t);
    NatStringOfDigits(t);
  }

  /** A run of digits after leading zeros that fits a 64-bit int is an accepted multiplier. */
  lemma DigitsAreValidMultiplier(q: string)
    requires var t := LTrim(q, {'0'}); t != [] && AllDigits(t) && DigitsValue(t) <= PhpIntMax
    ensures IsValidMultiplier(q) && Intval(q) == DigitsValue(LTrim(q, {'0'}))
  {
    var t := LTrim(q, {'0'});
    IntvalAfterZeros(q, t);
    TrimmedDigitsRender(q, t);
  }

  /**
   * The multiplier check accepts exactly the strings that are, after their
   * leading zeros, a non-empty run of digits whose value fits a 64-bit int;
   * the multiplier is that value.
   */
  lemma ValidMultiplierDigits(q: string)
    ensures var t := LTrim(q, {'0'});
      IsValidMultiplier(q) <==> t != [] && AllDigits(t) && DigitsValue(t) <= PhpIntMax
    ensures var t := LTrim(q, {'0'});
      IsValidMultiplier(q) ==> AllDigits(t) && Intval(q) == DigitsValue(t)
  {
    var t := LTrim(q, {'0'});
    if IsValidMultiplier(q) {
      ValidMultiplierIsDigits(q);
    }
    if t != [] && AllDigits(t) && DigitsValue(t) <= PhpIntMax {
      DigitsAreValidMultiplier(q);
    }
  }

  /** The last segment never holds the separator. */
  lemma LastSegmentHasNoSeparator(sku: string)
    ensures forall j: nat :: !OccursAt(LastSegment(sku), BundleSkuSeparator, j)
  {
    var parts := Explode(BundleSkuSeparator, sku);
    ExplodePiecesFree(BundleSkuSeparator, sku);
    assert LastSegment(sku) == parts[|parts| - 1];
  }

  /** Rejoining all segments but the last, then the separator and the last, gives the SKU back. */
  lemma RejoinSegments(sku: string)
    requires |Explode(BundleSkuSeparator, sku)| > 1
    ensures var parts := Explode(BundleSkuSeparator, sku);
      Implode(BundleSkuSeparator, parts[..|parts| - 1]) + BundleSkuSeparator + parts[|parts| - 1] == sku
  {
    var parts := Explode(BundleSkuSeparator, sku);
    var n := |parts|;
    ImplodeExplode(BundleSkuSeparator, sku);
    ImplodeSnoc(BundleSkuSeparator, parts[..n - 1], parts[n - 1]);
    assert parts[..n - 1] + [parts[n - 1]] == parts;
  }

  /** The last segment of a SKU is the last piece explode gives; there are several pieces exactly when the SKU has a separator. */
  lemma {:induction false} SegmentsOf(sku: string, parts: seq<string>)
    requires parts == Explode(BundleSkuSeparator, sku)
    ensures LastSegment(sku) == parts[|parts| - 1]
    ensures |parts| > 1 <==> FindFrom(sku, BundleSkuSeparator, 0).Some?
  {
  }

  /** Decompose on a SKU whose last segment is a valid multiplier. */
  lemma DecomposeAccepts(sku: string, parts: seq<string>)
    requires parts == Explode(BundleSkuSeparator, sku)
    requires |parts| > 1 && IsValidMultiplier(parts[|parts| - 1])
    ensures Decompose(sku) == Bundle(Implode(BundleSkuSeparator, parts[..|parts| - 1]), Intval(parts[|parts| - 1]))
    ensures Decompose(sku).sku + BundleSkuSeparator + parts[|parts| - 1] == sku
  {
    RejoinSegments(sku);
  }

  /** Decompose on a SKU without separator or without a valid multiplier. */
  lemma DecomposeRejects(sku: string, parts: seq<string>)
    requires parts == Explode(BundleSkuSeparator, sku)
    requires !(|parts| > 1 && IsValidMultiplier(parts[|parts| - 1]))
    ensures Decompose(sku) == Bundle(sku, 1)
  {
  }

  /**
   * A SKU with a separator whose last segment is a valid multiplier is split:
   * the base SKU, the separator and the last segment spell the original SKU,
   * and the multiplier is intval of that segment.
   */
  lemma DecomposeSplits(sku: string)
    requires FindFrom(sku, BundleSkuSeparator, 0).Some? && IsValidMultiplier(LastSegment(sku))
    ensures Decompose(sku).sku + BundleSkuSeparator + LastSegment(sku) == sku
    ensures Decompose(sku).multiplier == Intval(LastSegment(sku))
  {
    var parts := Explode(BundleSkuSeparator, sku);
    SegmentsOf(sku, parts);
    DecomposeAccepts(sku, parts);
  }

  /**
   * A SKU without separator, or whose last segment is not a valid multiplier,
   * is left unchanged with multiplier 1.
   */
  lemma DecomposeKeeps(sku: string)
    requires !(FindFrom(sku, BundleSkuSeparator, 0).Some? && IsValidMultiplier(LastSegment(sku)))
    ensures Decompose(sku) == Bundle(sku, 1)
  {
    var parts := Explode(BundleSkuSeparator, sku);
    SegmentsOf(sku, parts);
    DecomposeRejects(sku, parts);
  }

  /** A separator-free character pair. */
  lemma NoSeparatorAt(s: string, i: nat)
    requires i + 2 <= |s| && s[i] != '*'
    ensures !OccursAt(s, BundleSkuSeparator, i)
  {
    assert s[i..i + 2][0] == s[i];
  }

  /** "ABC**03": leading zeros are accepted, giving ABC with multiplier 3. */
  lemma DecomposeLeadingZeroExample()
    ensures Decompose("ABC**03") == Bundle("ABC", 3)
  {
    var sku := "ABC**03";
    assert OccursAt(sku, "**", 3);
    NoSeparatorAt(sku, 0);
    NoSeparatorAt(sku, 1);
    NoSeparatorAt(sku, 2);
    assert FindFrom(sku, "**", 0) == Some(3);
    assert sku[5..] == "03";
    NoSeparatorAt("03", 0);
    assert FindFrom("03", "**", 0).None?;
    assert LastSegment(sku) == "03";
    assert LTrim("03", {'0'}) == "3";
    assert DigitsValue("3") == 3;
    DigitsAreValidMultiplier("03");
    DecomposeSplits(sku);
    var b := Decompose(sku);
    assert b.sku == sku[..|b.sku|];
    assert |b.sku| == 3;
  }

  /** "ABC**0", "ABC**x" and "ABC**-2": zero, letters and signs are rejected and the SKU is kept whole. */
  lemma DecomposeRejectedExamples()
    ensures Decompose("ABC**0") == Bundle("ABC**0", 1)
    ensures Decompose("ABC**x") == Bundle("ABC**x", 1)
    ensures Decompose("ABC**-2") == Bundle("ABC**-2", 1)
  {
    RejectedMultiplier("0", "ABC**0");
    RejectedMultiplier("x", "ABC**x");
    RejectedMultiplier("-2", "ABC**-2");
  }

  /** A last segment after "ABC**" that is not a valid multiplier keeps the SKU whole. */
  lemma RejectedMultiplier(q: string, sku: string)
    requires sku == "ABC**" + q
    requires q == "0" || q == "x" || q == "-2"
    ensures Decompose(sku) == Bundle(sku, 1)
  {
    assert OccursAt(sku, "**", 3);
    NoSeparatorAt(sku, 0);
    NoSeparatorAt(sku, 1);
    NoSeparatorAt(sku, 2);
    assert FindFrom(sku, "**", 0) == Some(3);
    assert sku[5..] == q && sku[..3] == "ABC";
    if |q| >= 2 { NoSeparatorAt(q, 0); }
    assert FindFrom(q, "**", 0).None?;
    assert Explode("**", q) == [q];
    assert Explode("**", sku) == ["ABC", q];
    assert LastSegment(sku) == q;
    var t := LTrim(q, {'0'});
    if q == "0" {
      assert t == [];
    } else {
      assert t == q;
      assert !IsDigit(q[0]);
    }
    ValidMultiplierDigits(q);
    DecomposeKeeps(sku);
  }

  /** A SKU without separator is kept with multiplier 1. */
  lemma DecomposePlainExample()
    ensures Decompose("ABC") == Bundle("ABC", 1)
  {
    NoSeparatorAt("ABC", 0);
    NoSeparatorAt("ABC", 1);
    assert FindFrom("ABC", "**", 0).None?;
    DecomposeKeeps("ABC");
  }
}
