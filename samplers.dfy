/**
 * The random samplers of the projection: annual returns, inflation, and the crash and correction
 * magnitudes looked up by instrument name. Each takes the uniform draws in [0, 1) it consumes as
 * parameters, in the order the calculator draws them.
 */
module Samplers {
  import opened Wrappers
  import opened Text
  import opened Allocation
  import opened RealArith

  predicate IsUnit(d: real) { 0.0 <= d < 1.0 }

  function Abs(x: real): real { if x < 0.0 then -x else x }

  function Max(a: real, b: real): real { if a < b then b else a }

  function Min(a: real, b: real): real { if a < b then a else b }

  /** A point of a range chosen by a unit draw: `lo + draw * (hi - lo)`. */
  function Uniform(r: Range, d: real): real
  {
    r.lo + d * (r.hi - r.lo)
  }

  /** The point lies in [lo, hi], and in [lo, hi) when the range is not empty. */
  lemma UniformWithin(r: Range, d: real)
    requires r.lo <= r.hi && IsUnit(d)
    ensures r.lo <= Uniform(r, d) <= r.hi
    ensures r.lo < r.hi ==> Uniform(r, d) < r.hi
  {
    var width := r.hi - r.lo;
    ProductAtMost(width, d);
    assert Uniform(r, d) == r.lo + Product(width, d);
  }

  /** The return noise: the base moved by up to 15% of itself, times the volatility factor, either way. */
  function Jitter(baseReturn: real, volatilityFactor: real, d: real): real
  {
    var volatility := baseReturn * 0.15 * volatilityFactor;
    baseReturn + (d - 0.5) * 2.0 * volatility
  }

  /** With factor 1 the noise scales a non-negative base by a factor in [0.85, 1.15]. */
  lemma JitterScalesBase(b: real, d: real)
    requires b >= 0.0 && IsUnit(d)
    ensures 0.85 * b <= Jitter(b, 1.0, d) <= 1.15 * b
  {
    var m := 1.0 + 0.3 * (d - 0.5);
    assert Jitter(b, 1.0, d) == b * m;
    ScaleMonotone(b, 0.85, m);
    ScaleMonotone(b, m, 1.15);
  }

  /** Lottery-ticket assets are recognised by name. */
  predicate IsMoonshot(name: string)
  {
    Contains(name, "Moonshot") || Contains(name, "moonshot")
  }

  /** The inflation hedge (English or Lithuanian name) gains in crashes and corrections. */
  predicate IsGold(name: string)
  {
    Contains(name, "Auksas") || Contains(name, "Gold")
  }

  /**
   * One annual return in percent. Moonshots: with the first draw below 0.85 a loss drawn from
   * [-80, -10), otherwise a gain drawn from [50, 500). Others: a base drawn from the range, moved by
   * up to 15% of itself (times the volatility factor) either way, floored at -95.
   */
  function RandomReturn(baseRange: Range, volatilityFactor: real, assetName: string, d1: real, d2: real): (r: real)
    requires IsUnit(d1) && IsUnit(d2)
    ensures !IsMoonshot(assetName) ==> r >= -95.0
    ensures IsMoonshot(assetName) && d1 < 0.85 ==> -80.0 <= r < -10.0
    ensures IsMoonshot(assetName) && d1 >= 0.85 ==> 50.0 <= r < 500.0
  {
    if IsMoonshot(assetName) then
      if d1 < 0.85 then -80.0 + d2 * 70.0 else 50.0 + d2 * 450.0
    else
      Max(-95.0, Jitter(Uniform(baseRange, d1), volatilityFactor, d2))
  }

  /** Every return the projection can draw is above -100%, so a grown allocation never changes sign. */
  lemma ReturnAboveTotalLoss(baseRange: Range, assetName: string, d1: real, d2: real)
    requires IsUnit(d1) && IsUnit(d2)
    ensures RandomReturn(baseRange, 1.0, assetName, d1, d2) >= -95.0
  {
  }

  /** For a non-negative range the noise stays within 15% of it, so the -95 floor never applies. */
  lemma ReturnWithinSpreadOfRange(baseRange: Range, assetName: string, d1: real, d2: real)
    requires IsUnit(d1) && IsUnit(d2)
    requires !IsMoonshot(assetName) && 0.0 <= baseRange.lo <= baseRange.hi
    ensures 0.85 * baseRange.lo <= RandomReturn(baseRange, 1.0, assetName, d1, d2) <= 1.15 * baseRange.hi
  {
    var b := Uniform(baseRange, d1);
    UniformWithin(baseRange, d1);
    JitterScalesBase(b, d2);
  }

  /** The yearly inflation rate in percent: 1.5–2.5 with the first draw below 0.8, else 2.5–4. */
  function InflationRate(d1: real, d2: real): (r: real)
    requires IsUnit(d1) && IsUnit(d2)
    ensures d1 < 0.8 ==> 1.5 <= r < 2.5
    ensures d1 >= 0.8 ==> 2.5 <= r < 4.0
  {
    if d1 < 0.8 then 1.5 + d2 * 1.0 else 2.5 + d2 * 1.5
  }

  /** A volatility table: keys tried in order against the instrument name. */
  type LossTable = seq<(string, Range)>

  /**
   * The entry test of the lookup loop. Any name that contains "ETF" passes at the first entry,
   * whatever its key, so the first range shadows every ETF-specific entry.
   */
  predicate EntryMatches(key: string, name: string)
  {
    Contains(name, key) || Contains(name, "ETF")
  }

  /** The range of the first entry that passes the test, if any. */
  function FirstMatch(table: LossTable, name: string): Option<Range>
  {
    if |table| == 0 then None
    else if EntryMatches(table[0].0, name) then Some(table[0].1)
    else FirstMatch(table[1..], name)
  }

  /** The least index whose entry passes the test is the one the lookup picks; no passing entry gives `None`. */
  lemma {:induction false} FirstMatchIsLeastMatchingEntry(table: LossTable, name: string)
    ensures FirstMatch(table, name).None? <==> forall i :: 0 <= i < |table| ==> !EntryMatches(table[i].0, name)
    ensures FirstMatch(table, name).Some? ==>
      exists i :: 0 <= i < |table| && EntryMatches(table[i].0, name) && FirstMatch(table, name) == Some(table[i].1)
        && forall j :: 0 <= j < i ==> !EntryMatches(table[j].0, name)
  {
    if |table| > 0 && !EntryMatches(table[0].0, name) {
      FirstMatchIsLeastMatchingEntry(table[1..], name);
      if FirstMatch(table, name).Some? {
        var i :| 0 <= i < |table[1..]| && EntryMatches(table[1..][i].0, name) && FirstMatch(table[1..], name) == Some(table[1..][i].1)
          && forall j :: 0 <= j < i ==> !EntryMatches(table[1..][j].0, name);
        assert forall j :: 0 <= j < i + 1 ==> !EntryMatches(table[j].0, name) by {
          forall j | 0 <= j < i + 1 ensures !EntryMatches(table[j].0, name) {
            if j > 0 { assert table[j] == table[1..][j - 1]; }
          }
        }
        assert table[i + 1] == table[1..][i];
      }
      forall i | 0 <= i < |table| && i > 0 ensures table[i] == table[1..][i - 1] { }
    } else if |table| > 0 {
      assert EntryMatches(table[0].0, name);
    }
  }

  /** The lookup loop: tries the entries in order and returns at the first that passes. */
  method FindLossRange(table: LossTable, name: string) returns (r: Option<Range>)
    ensures r == FirstMatch(table, name)
  {
    var i := 0;
    while i < |table|
      invariant 0 <= i <= |table|
      invariant FirstMatch(table, name) == FirstMatch(table[i..], name)
    {
      var (key, range) := table[i];
      if EntryMatches(key, name) {
        return Some(range);
      }
      assert table[i..][1..] == table[i + 1..];
      i := i + 1;
    }
    return None;
  }

  /** Crash loss ranges by volatility class, in the calculator's key order. */
  const CrashTable: LossTable := [
    ("ETF", Range(15.0, 25.0)),
    ("Augimo akcijos", Range(20.0, 30.0)),
    ("Growth stocks", Range(20.0, 30.0)),
    ("Technologijų ETF", Range(25.0, 35.0)),
    ("Technology ETF", Range(25.0, 35.0)),
    ("Sveikatos sektorius ETF", Range(25.0, 35.0)),
    ("Healthcare ETF", Range(25.0, 35.0)),
    ("Energetikos ETF", Range(25.0, 35.0)),
    ("Energy ETF", Range(25.0, 35.0)),
    ("Europos rinkų ETF", Range(25.0, 35.0)),
    ("European markets ETF", Range(25.0, 35.0)),
    ("Besivystančių rinkų ETF", Range(30.0, 40.0)),
    ("Emerging markets ETF", Range(30.0, 40.0)),
    ("Kriptovaliutų ETF", Range(35.0, 45.0)),
    ("Crypto ETF", Range(35.0, 45.0)),
    ("Leveraged produktai", Range(40.0, 45.0)),
    ("Leveraged products", Range(40.0, 45.0)),
    ("Opcionai", Range(40.0, 45.0)),
    ("Options", Range(40.0, 45.0)),
    ("Kriptovaliutos", Range(40.0, 45.0)),
    ("Cryptocurrencies", Range(40.0, 45.0)),
    ("Moonshot aktyvai", Range(40.0, 45.0)),
    ("Moonshot assets", Range(40.0, 45.0))
  ]

  /** Correction loss ranges by volatility class, in the calculator's key order. */
  const CorrectionTable: LossTable := [
    ("ETF", Range(8.0, 12.0)),
    ("Augimo akcijos", Range(10.0, 15.0)),
    ("Growth stocks", Range(10.0, 15.0)),
    ("Technologijų ETF", Range(12.0, 18.0)),
    ("Technology ETF", Range(12.0, 18.0)),
    ("Sveikatos sektorius ETF", Range(12.0, 18.0)),
    ("Healthcare ETF", Range(12.0, 18.0)),
    ("Energetikos ETF", Range(12.0, 18.0)),
    ("Energy ETF", Range(12.0, 18.0)),
    ("Europos rinkų ETF", Range(12.0, 18.0)),
    ("European markets ETF", Range(12.0, 18.0)),
    ("Besivystančių rinkų ETF", Range(15.0, 20.0)),
    ("Emerging markets ETF", Range(15.0, 20.0)),
    ("Kriptovaliutų ETF", Range(18.0, 25.0)),
    ("Crypto ETF", Range(18.0, 25.0)),
    ("Leveraged produktai", Range(20.0, 30.0)),
    ("Leveraged products", Range(20.0, 30.0)),
    ("Opcionai", Range(20.0, 30.0)),
    ("Options", Range(20.0, 30.0)),
    ("Kriptovaliutos", Range(20.0, 30.0)),
    ("Cryptocurrencies", Range(20.0, 30.0)),
    ("Moonshot aktyvai", Range(20.0, 30.0)),
    ("Moonshot assets", Range(20.0, 30.0))
  ]

  /** Every range of the table lies within [lo, hi] and is not empty. */
  predicate TableWithin(table: LossTable, lo: real, hi: real)
  {
    forall i :: 0 <= i < |table| ==> lo <= table[i].1.lo < table[i].1.hi <= hi
  }

  /** Whatever the lookup returns is one of the table's ranges. */
  lemma {:induction false} FirstMatchWithin(table: LossTable, name: string, lo: real, hi: real)
    requires TableWithin(table, lo, hi)
    ensures FirstMatch(table, name).Some? ==> lo <= FirstMatch(table, name).value.lo < FirstMatch(table, name).value.hi <= hi
  {
    if |table| > 0 && !EntryMatches(table[0].0, name) {
      assert TableWithin(table[1..], lo, hi) by {
        forall i | 0 <= i < |table[1..]| ensures lo <= table[1..][i].1.lo < table[1..][i].1.hi <= hi {
          assert table[1..][i] == table[i + 1];
        }
      }
      FirstMatchWithin(table[1..], name, lo, hi);
    }
  }

  /**
   * The crash magnitude in percent for one instrument. Gold returns a negative number (the size of
   * its gain); other names a loss from the first table entry that passes, or 20–30 when none does.
   */
  function CrashLoss(instrumentName: string, d: real): (r: real)
    requires IsUnit(d)
    ensures IsGold(instrumentName) ==> -25.0 < r <= -15.0
    ensures !IsGold(instrumentName) ==> 15.0 <= r < 45.0
    ensures !IsGold(instrumentName) && Contains(instrumentName, "ETF") ==> 15.0 <= r < 25.0
  {
    if IsGold(instrumentName) then
      -(15.0 + d * 10.0)
    else
      CrashTableWithin();
      FirstMatchWithin(CrashTable, instrumentName, 15.0, 45.0);
      match FirstMatch(CrashTable, instrumentName)
      case Some(range) => UniformWithin(range, d); Uniform(range, d)
      case None => 20.0 + d * 10.0
  }

  /** The correction magnitude in percent: gold -10 to -5, other names 8–30, unmatched names 10–15. */
  function CorrectionLoss(instrumentName: string, d: real): (r: real)
    requires IsUnit(d)
    ensures IsGold(instrumentName) ==> -10.0 < r <= -5.0
    ensures !IsGold(instrumentName) ==> 8.0 <= r < 30.0
    ensures !IsGold(instrumentName) && Contains(instrumentName, "ETF") ==> 8.0 <= r < 12.0
  {
    if IsGold(instrumentName) then
      -(5.0 + d * 5.0)
    else
      CorrectionTableWithin();
      FirstMatchWithin(CorrectionTable, instrumentName, 8.0, 30.0);
      match FirstMatch(CorrectionTable, instrumentName)
      case Some(range) => UniformWithin(range, d); Uniform(range, d)
      case None => 10.0 + d * 5.0
  }

  lemma CrashTableWithin()
    ensures TableWithin(CrashTable, 15.0, 45.0)
  {
  }

  lemma CorrectionTableWithin()
    ensures TableWithin(CorrectionTable, 8.0, 30.0)
  {
  }

  /** The crash-loss sampler as the calculator runs it, with its table-lookup loop. */
  method CalculateCrashLoss(instrumentName: string, d: real) returns (loss: real)
    requires IsUnit(d)
    ensures loss == CrashLoss(instrumentName, d)
  {
    if IsGold(instrumentName) {
      return -(15.0 + d * 10.0);
    }
    var range := FindLossRange(CrashTable, instrumentName);
    if range.Some? {
      return range.value.lo + d * (range.value.hi - range.value.lo);
    }
    return 20.0 + d * 10.0;
  }

  /** The correction-loss sampler as the calculator runs it, with its table-lookup loop. */
  method CalculateCorrectionLoss(instrumentName: string, d: real) returns (loss: real)
    requires IsUnit(d)
    ensures loss == CorrectionLoss(instrumentName, d)
  {
    if IsGold(instrumentName) {
      return -(5.0 + d * 5.0);
    }
    var range := FindLossRange(CorrectionTable, instrumentName);
    if range.Some? {
      return range.value.lo + d * (range.value.hi - range.value.lo);
    }
    return 10.0 + d * 5.0;
  }

  /** A name without the first letter of `t` cannot contain `t`. */
  lemma NotContainsWithoutFirstChar(s: string, t: string)
    requires |t| > 0 && forall i :: 0 <= i < |s| ==> s[i] != t[0]
    ensures !Contains(s, t)
  {
    ContainsIffOccurs(s, t);
    forall i | 0 <= i && i + |t| <= |s|
      ensures !OccursAt(s, t, i)
    {
      assert s[i..i + |t|][0] == s[i];
    }
  }

  /** Any name containing "ETF" gets the first crash entry, even one with its own wider entry such as "Crypto ETF". */
  lemma ETFShadowsCrashTable(name: string)
    requires Contains(name, "ETF")
    ensures FirstMatch(CrashTable, name) == Some(Range(15.0, 25.0))
    ensures FirstMatch(CorrectionTable, name) == Some(Range(8.0, 12.0))
  {
  }

  /**
   * Every name the passive broad-market slot can get contains "ETF", so that slot always draws its
   * crash and correction losses from the first table entries, whatever its sector.
   */
  lemma PassiveSlotIsShadowed(sector: string, geography: string, language: string, managementPreference: int)
    requires managementPreference < 1
    ensures FirstMatch(CrashTable, ETFName(sector, geography, language, managementPreference)) == Some(Range(15.0, 25.0))
    ensures FirstMatch(CorrectionTable, ETFName(sector, geography, language, managementPreference)) == Some(Range(8.0, 12.0))
  {
    PassiveNameHasETF(sector, geography, language, managementPreference);
    ETFShadowsCrashTable(ETFName(sector, geography, language, managementPreference));
  }

  /** Every name of the passive broad-market slot contains "ETF". */
  lemma PassiveNameHasETF(sector: string, geography: string, language: string, managementPreference: int)
    requires managementPreference < 1
    ensures Contains(ETFName(sector, geography, language, managementPreference), "ETF")
  {
    // every candidate name contains "ETF"; the slot picks one of them
    TechnologyETFName();
    TechnologyETFNameLithuanian();
    HealthcareETFName();
    HealthcareETFNameLithuanian();
    EnergyETFName();
    EnergyETFNameLithuanian();
    AutomotiveETFName();
    AutomotiveETFNameLithuanian();
    RealEstateETFName();
    RealEstateETFNameLithuanian();
    GlobalETFName();
    GlobalETFNameLithuanian();
    EuropeanETFName();
    EuropeanETFNameLithuanian();
    EmergingETFName();
    EmergingETFNameLithuanian();
    ETFAt("VWCE ETF", 5);
  }

  // The passive names one by one.

  lemma TechnologyETFName()
    ensures Contains("Technology ETF (e.g. EQQQ, IITU)", "ETF")
  {
    ETFAt("Technology ETF (e.g. EQQQ, IITU)", 11);
  }

  lemma TechnologyETFNameLithuanian()
    ensures Contains("Technologijų ETF (pvz. EQQQ, IITU)", "ETF")
  {
    ETFAt("Technologijų ETF (pvz. EQQQ, IITU)", 13);
  }

  lemma HealthcareETFName()
    ensures Contains("Healthcare ETF (e.g. HEAL, IEHS)", "ETF")
  {
    ETFAt("Healthcare ETF (e.g. HEAL, IEHS)", 11);
  }

  lemma HealthcareETFNameLithuanian()
    ensures Contains("Sveikatos sektorius ETF (pvz. HEAL, IEHS)", "ETF")
  {
    ETFAt("Sveikatos sektorius ETF (pvz. HEAL, IEHS)", 20);
  }

  lemma EnergyETFName()
    ensures Contains("Energy ETF (e.g. INRG, IQQH)", "ETF")
  {
    ETFAt("Energy ETF (e.g. INRG, IQQH)", 7);
  }

  lemma EnergyETFNameLithuanian()
    ensures Contains("Energetikos ETF (pvz. INRG, IQQH)", "ETF")
  {
    ETFAt("Energetikos ETF (pvz. INRG, IQQH)", 12);
  }

  lemma AutomotiveETFName()
    ensures Contains("Automotive ETF (e.g. ECAR, DRIV)", "ETF")
  {
    ETFAt("Automotive ETF (e.g. ECAR, DRIV)", 11);
  }

  lemma AutomotiveETFNameLithuanian()
    ensures Contains("Automobilių ETF (pvz. ECAR, DRIV)", "ETF")
  {
    ETFAt("Automobilių ETF (pvz. ECAR, DRIV)", 12);
  }

  lemma RealEstateETFName()
    ensures Contains("Real Estate ETF (e.g. IPRP, EPRA)", "ETF")
  {
    ETFAt("Real Estate ETF (e.g. IPRP, EPRA)", 12);
  }

  lemma RealEstateETFNameLithuanian()
    ensures Contains("Nekilnojamojo turto ETF (pvz. IPRP, EPRA)", "ETF")
  {
    ETFAt("Nekilnojamojo turto ETF (pvz. IPRP, EPRA)", 20);
  }

  lemma GlobalETFName()
    ensures Contains("Global ETF (VWCE, IWDA, SWDA)", "ETF")
  {
    ETFAt("Global ETF (VWCE, IWDA, SWDA)", 7);
  }

  lemma GlobalETFNameLithuanian()
    ensures Contains("Globalūs ETF (VWCE, IWDA, SWDA)", "ETF")
  {
    ETFAt("Globalūs ETF (VWCE, IWDA, SWDA)", 9);
  }

  lemma EuropeanETFName()
    ensures Contains("European markets ETF (IEUS, VMEU, CSSPX)", "ETF")
  {
    ETFAt("European markets ETF (IEUS, VMEU, CSSPX)", 17);
  }

  lemma EuropeanETFNameLithuanian()
    ensures Contains("Europos rinkų ETF (IEUS, VMEU, CSSPX)", "ETF")
  {
    ETFAt("Europos rinkų ETF (IEUS, VMEU, CSSPX)", 14);
  }

  lemma EmergingETFName()
    ensures Contains("Emerging markets ETF (EIMI, IEMM, VFEM)", "ETF")
  {
    ETFAt("Emerging markets ETF (EIMI, IEMM, VFEM)", 17);
  }

  lemma EmergingETFNameLithuanian()
    ensures Contains("Besivystančių rinkų ETF (EIMI, IEMM, VFEM)", "ETF")
  {
    ETFAt("Besivystančių rinkų ETF (EIMI, IEMM, VFEM)", 20);
  }

  /** The letters E, T, F at an offset are enough for a name to contain "ETF". */
  lemma ETFAt(name: string, k: nat)
    requires k + 3 <= |name| && name[k] == 'E' && name[k + 1] == 'T' && name[k + 2] == 'F'
    ensures Contains(name, "ETF")
  {
    assert name[k..k + 3] == "ETF";
    ContainsAt(name, "ETF", k);
  }

  /** The crypto ETF's name contains "ETF" and is not gold. */
  lemma CryptoETFIsAnETF()
    ensures Contains("Crypto ETF", "ETF") && !IsGold("Crypto ETF")
  {
    var name := "Crypto ETF";
    ContainsAt(name, "ETF", 7);
    assert forall i :: 0 <= i < |name| ==> name[i] != 'G' && name[i] != 'A';
    NotContainsWithoutFirstChar(name, "Gold");
    NotContainsWithoutFirstChar(name, "Auksas");
  }

  /** The crypto ETF is listed at 35–45 but draws its crash loss from 15–25. */
  lemma CryptoETFDrawsFirstEntry(d: real)
    requires IsUnit(d)
    ensures CrashTable[14] == ("Crypto ETF", Range(35.0, 45.0))
    ensures 15.0 <= CrashLoss("Crypto ETF", d) < 25.0
  {
    CryptoETFIsAnETF();
  }
}
