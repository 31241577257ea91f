/**
 * The allocation provider: for a risk tier (0–5) and the sector, geography and management
 * choices, the ordered list of instruments with their weights and base return ranges.
 */
module Allocation {
  import opened Wrappers

  /** A base annual return range, in percent. */
  datatype Range = Range(lo: real, hi: real)

  datatype Instrument = Instrument(name: string, percentage: real, returnRange: Range)

  /** The user's answers; the calculator reads the money, the tier and the three preferences. */
  datatype InvestmentInputs = InvestmentInputs(
    age: int,
    familySituation: string,
    initialSum: real,
    monthlyContribution: real,
    timeHorizon: int,
    riskTolerance: int,
    managementPreference: int,
    sectorPreference: string,
    geographyPreference: string)

  /** The warnings a portfolio can carry, in the order they are shown (their wording is localized text). */
  datatype Notice =
    | MediumRiskForBeginners
    | NotForBeginners
    | HighRisk
    | ExtremeRisk
    | MediumActiveManagement
    | ActiveManagement

  /** `warning` is empty when the calculator leaves it undefined. */
  datatype Portfolio = Portfolio(instruments: seq<Instrument>, riskTier: nat, warning: seq<Notice>)

  predicate IsEnglish(language: string) { language == "en" }

  /** Picks the English or the Lithuanian text. */
  function Localize(language: string, en: string, lt: string): string
  {
    if IsEnglish(language) then en else lt
  }

  /** The name of the broad-market slot: an ETF for passive management, individual stocks for active management. */
  function ETFName(sector: string, geography: string, language: string, managementPreference: int): string
  {
    if managementPreference >= 1 then
      var fallback := Localize(language, "Individual stocks (S&P 500 picks)", "Individualios akcijos (S&P 500 atranka)");
      if sector != "general" then
        if sector == "technology" then Localize(language, "Tech stocks (Apple, Microsoft, Google, Tesla)", "Technologijų akcijos (Apple, Microsoft, Google, Tesla)")
        else if sector == "healthcare" then Localize(language, "Healthcare stocks (Johnson & Johnson, Pfizer, Moderna)", "Sveikatos sektorius akcijos (Johnson & Johnson, Pfizer, Moderna)")
        else if sector == "energy" then Localize(language, "Energy stocks (ExxonMobil, Shell, BP)", "Energetikos akcijos (ExxonMobil, Shell, BP)")
        else if sector == "automotive" then Localize(language, "Auto stocks (Tesla, Ford, BMW, Toyota)", "Automobilių akcijos (Tesla, Ford, BMW, Toyota)")
        else if sector == "realestate" then Localize(language, "REIT stocks (American Tower, Prologis, Crown Castle)", "REIT akcijos (American Tower, Prologis, Crown Castle)")
        else fallback
      else if geography == "global" then Localize(language, "Global stocks (Apple, Microsoft, ASML, Samsung)", "Globalios akcijos (Apple, Microsoft, ASML, Samsung)")
      else if geography == "europe" then Localize(language, "European stocks (ASML, SAP, Nestlé, LVMH)", "Europos akcijos (ASML, SAP, Nestlé, LVMH)")
      else if geography == "emerging" then Localize(language, "Emerging market stocks (Taiwan Semi, Tencent, Alibaba)", "Besivystančių rinkų akcijos (Taiwan Semi, Tencent, Alibaba)")
      else fallback
    else if sector != "general" then
      if sector == "technology" then Localize(language, "Technology ETF (e.g. EQQQ, IITU)", "Technologijų ETF (pvz. EQQQ, IITU)")
      else if sector == "healthcare" then Localize(language, "Healthcare ETF (e.g. HEAL, IEHS)", "Sveikatos sektorius ETF (pvz. HEAL, IEHS)")
      else if sector == "energy" then Localize(language, "Energy ETF (e.g. INRG, IQQH)", "Energetikos ETF (pvz. INRG, IQQH)")
      else if sector == "automotive" then Localize(language, "Automotive ETF (e.g. ECAR, DRIV)", "Automobilių ETF (pvz. ECAR, DRIV)")
      else if sector == "realestate" then Localize(language, "Real Estate ETF (e.g. IPRP, EPRA)", "Nekilnojamojo turto ETF (pvz. IPRP, EPRA)")
      else "VWCE ETF"
    else if geography == "global" then Localize(language, "Global ETF (VWCE, IWDA, SWDA)", "Globalūs ETF (VWCE, IWDA, SWDA)")
    else if geography == "europe" then Localize(language, "European markets ETF (IEUS, VMEU, CSSPX)", "Europos rinkų ETF (IEUS, VMEU, CSSPX)")
    else if geography == "emerging" then Localize(language, "Emerging markets ETF (EIMI, IEMM, VFEM)", "Besivystančių rinkų ETF (EIMI, IEMM, VFEM)")
    else "VWCE ETF"
  }

  /** The base return range of the broad-market slot; an unknown sector or geography falls back to the global range. */
  function ETFReturnRange(sector: string, geography: string): (r: Range)
    ensures 2.1 <= r.lo < r.hi <= 18.8
    ensures sector == "general" && geography !in {"europe", "emerging"} ==> r == Range(12.8, 13.2)
    ensures sector !in {"general", "technology", "healthcare", "energy", "automotive", "realestate"} ==> r == Range(12.8, 13.2)
  {
    if sector != "general" then
      if sector == "technology" then Range(18.3, 18.8)
      else if sector == "healthcare" then Range(8.5, 10.2)
      else if sector == "energy" then Range(2.1, 4.8)
      else if sector == "automotive" then Range(10.0, 15.0)
      else if sector == "realestate" then Range(7.2, 8.8)
      else Range(12.8, 13.2)
    else if geography == "global" then Range(12.8, 13.2)
    else if geography == "europe" then Range(6.8, 8.2)
    else if geography == "emerging" then Range(4.2, 6.1)
    else Range(12.8, 13.2)
  }

  /** The eight building blocks the tiers are made of, each at weight `percentage`. */
  function Etf(inputs: InvestmentInputs, language: string, percentage: real): Instrument
  {
    Instrument(
      ETFName(inputs.sectorPreference, inputs.geographyPreference, language, inputs.managementPreference),
      percentage,
      ETFReturnRange(inputs.sectorPreference, inputs.geographyPreference))
  }
  function GrowthStock(language: string, percentage: real): Instrument
  { Instrument(Localize(language, "Growth stocks", "Augimo akcijos"), percentage, Range(10.0, 15.0)) }
  function CryptoETF(language: string, percentage: real): Instrument
  { Instrument(Localize(language, "Crypto ETF", "Kriptovaliutų ETF"), percentage, Range(15.0, 35.0)) }
  function Crypto(language: string, percentage: real): Instrument
  { Instrument(Localize(language, "Cryptocurrencies", "Kriptovaliutos"), percentage, Range(10.0, 50.0)) }
  function Gold(language: string, percentage: real): Instrument
  { Instrument(Localize(language, "Gold", "Auksas"), percentage, Range(3.0, 8.0)) }
  function Options(language: string, percentage: real): Instrument
  { Instrument(Localize(language, "Options", "Opcionai"), percentage, Range(15.0, 75.0)) }
  function Leveraged(language: string, percentage: real): Instrument
  { Instrument(Localize(language, "Leveraged products", "Leveraged produktai"), percentage, Range(25.0, 35.0)) }
  function Moonshot(language: string, percentage: real): Instrument
  { Instrument(Localize(language, "Moonshot assets", "Moonshot aktyvai"), percentage, Range(-80.0, 500.0)) }

  /** The instruments of one risk tier, in the calculator's order. */
  function TierInstruments(inputs: InvestmentInputs, language: string, tier: nat): seq<Instrument>
    requires tier <= 5
  {
    match tier
    case 0 => [Etf(inputs, language, 100.0)]
    case 1 => [Etf(inputs, language, 50.0), GrowthStock(language, 50.0)]
    case 2 => [GrowthStock(language, 50.0), Etf(inputs, language, 30.0), CryptoETF(language, 10.0), Gold(language, 10.0)]
    case 3 => [GrowthStock(language, 50.0), Options(language, 20.0), Leveraged(language, 20.0), Crypto(language, 10.0)]
    case 4 => [GrowthStock(language, 30.0), Crypto(language, 30.0), Leveraged(language, 30.0), Options(language, 10.0)]
    case 5 => [Crypto(language, 30.0), Options(language, 30.0), Leveraged(language, 30.0), Moonshot(language, 10.0)]
  }

  /** The tier's own warning, before any management warning. */
  function TierWarning(tier: nat): seq<Notice>
  {
    match tier
    case 2 => [MediumRiskForBeginners]
    case 3 => [NotForBeginners]
    case 4 => [HighRisk]
    case 5 => [ExtremeRisk]
    case _ => []
  }

  /** Sum of the weights. */
  function TotalPercentage(instruments: seq<Instrument>): real
  {
    if |instruments| == 0 then 0.0 else TotalPercentage(instruments[..|instruments| - 1]) + instruments[|instruments| - 1].percentage
  }

  /** What the projection needs of an allocation: at least one instrument, positive weights summing to 100. */
  predicate WellFormedAllocation(instruments: seq<Instrument>)
  {
    && |instruments| > 0
    && (forall i :: 0 <= i < |instruments| ==> instruments[i].percentage > 0.0)
    && TotalPercentage(instruments) == 100.0
  }

  /**
   * The allocation for the chosen tier. A tier outside 0–5 has no configuration, where the calculator
   * fails on the missing entry; that failure is `None`. Active management puts its warning in front
   * of the tier's own warning.
   */
  function CalculatePortfolio(inputs: InvestmentInputs, language: string): (r: Option<Portfolio>)
    ensures r.Some? <==> 0 <= inputs.riskTolerance <= 5
    ensures r.Some? ==> WellFormedAllocation(r.value.instruments) && r.value.riskTier == inputs.riskTolerance
    ensures r.Some? ==> (r.value.warning == [] <==> inputs.riskTolerance < 2 && inputs.managementPreference < 1)
    ensures r.Some? && inputs.managementPreference >= 1 ==>
      r.value.warning[0] == (if inputs.managementPreference == 1 then MediumActiveManagement else ActiveManagement)
  {
    if 0 <= inputs.riskTolerance <= 5 then
      var tier := inputs.riskTolerance as nat;
      var instruments := TierInstruments(inputs, language, tier);
      var warning :=
        if inputs.managementPreference >= 1 then
          [if inputs.managementPreference == 1 then MediumActiveManagement else ActiveManagement] + TierWarning(tier)
        else TierWarning(tier);
      TierIsWellFormed(inputs, language, tier);
      Some(Portfolio(instruments, tier, warning))
    else
      None
  }

  /** Every tier's weights are positive and sum to 100. */
  lemma TierIsWellFormed(inputs: InvestmentInputs, language: string, tier: nat)
    requires tier <= 5
    ensures WellFormedAllocation(TierInstruments(inputs, language, tier))
  {
    var s := TierInstruments(inputs, language, tier);
    if tier == 0 {
      assert TotalPercentage(s) == TotalPercentage(s[..0]) + 100.0;
    } else if tier == 1 {
      assert s[..1][..0] == [];
      assert TotalPercentage(s) == TotalPercentage(s[..1]) + 50.0;
    } else {
      TotalOfFour(s);
    }
  }

  /** The total of four weights, written out. */
  lemma TotalOfFour(s: seq<Instrument>)
    requires |s| == 4
    ensures TotalPercentage(s) == s[0].percentage + s[1].percentage + s[2].percentage + s[3].percentage
  {
    assert s[..3][..2][..1][..0] == [];
    assert TotalPercentage(s[..3][..2][..1]) == s[0].percentage;
    assert TotalPercentage(s[..3][..2]) == s[0].percentage + s[1].percentage;
    assert TotalPercentage(s[..3]) == s[0].percentage + s[1].percentage + s[2].percentage;
  }
}
