/** The `Ticker` object of ticker.py as far as it classifies a symbol: the
    normalised symbol, the market cap and sector snapshots with their fallbacks,
    and the role list used to mention subscribers. */
module Classify {
  import opened Outcome
  import opened Text
  import opened Series

  /** The provider's quote fields; a field the provider omits is `None`. */
  datatype Info = Info(marketCap: Option<int>, sector: Option<string>,
                       currentPrice: Option<real>, volume: Option<int>)

  /** A constructed ticker. Its fields are fixed at construction. */
  datatype Ticker = Ticker(symbol: string, marketCap: int, sector: string, series: seq<Bar>)

  /** Raw provider sector to display category (eleven sectors; both consumer
      sectors share one category). */
  const SectorTable: map<string, string> := map[
    "Utilities" := "Utilities",
    "Basic Materials" := "Materials",
    "Healthcare" := "Healthcare",
    "Technology" := "Technology",
    "Financial Services" := "Financials",
    "Consumer Defensive" := "Consumer",
    "Consumer Cyclical" := "Consumer",
    "Real Estate" := "Real Estate",
    "Energy" := "Energy",
    "Communication Services" := "Communications",
    "Industrials" := "Industrials"]

  /** The sector used when the provider has none (ticker.py get_sector). */
  function SectorFallback(symbol: string): (r: string)
    ensures r == "Unknown" <==> symbol !in {"L", "BF.B", "CAT"}
  {
    if symbol == "L" then "Consumer Cyclical"
    else if symbol == "BF.B" then "Consumer Defensive"
    else if symbol == "CAT" then "Industrials"
    else "Unknown"
  }

  /** Exactly the three hard-coded symbols fall back to a mapped sector; every
      other symbol falls back to "Unknown", which the table does not map. */
  lemma SectorFallbackMapped(symbol: string)
    ensures SectorFallback(symbol) in SectorTable <==> symbol in {"L", "BF.B", "CAT"}
    ensures symbol !in {"L", "BF.B", "CAT"} ==> SectorFallback(symbol) == "Unknown"
  {
  }

  /** Both consumer sectors map to one category, and "Unknown" is not a key. */
  lemma SectorTableShape()
    ensures SectorTable["Consumer Defensive"] == SectorTable["Consumer Cyclical"] == "Consumer"
    ensures "Unknown" !in SectorTable
  {
  }

  /** `Ticker.__init__`: the symbol is uppercased; a missing market cap becomes -1
      and a missing sector the fallback for the uppercased symbol. */
  function NewTicker(raw: string, info: Info, series: seq<Bar>): (t: Ticker)
    ensures t.symbol == Upper(raw) && t.series == series
    ensures t.marketCap == (if info.marketCap.Some? then info.marketCap.value else -1)
    ensures info.sector.Some? ==> t.sector == info.sector.value
    ensures info.sector.None? ==> t.sector == SectorFallback(Upper(raw))
  {
    var symbol := Upper(raw);
    Ticker(symbol,
           match info.marketCap case Some(c) => c case None => -1,
           match info.sector case Some(s) => s case None => SectorFallback(symbol),
           series)
  }

  /** The stored symbol is upper-case: uppercasing it again changes nothing. */
  lemma NewTickerSymbolNormal(raw: string, info: Info, series: seq<Bar>)
    ensures Upper(NewTicker(raw, info, series).symbol) == NewTicker(raw, info, series).symbol
  {
    UpperIdempotent(raw);
  }

  /** The market-cap role, from strictly-greater thresholds. */
  function CapRole(cap: int): (r: Option<string>)
    ensures r == Some("Mega Cap") <==> cap > 200_000_000_000
    ensures r == Some("Large Cap") <==> 10_000_000_000 < cap <= 200_000_000_000
    ensures r == Some("Mid Cap") <==> 2_000_000_000 < cap <= 10_000_000_000
    ensures r == Some("Small Cap") <==> 300_000_000 < cap <= 2_000_000_000
    ensures r == None <==> cap <= 300_000_000
  {
    if cap > 200_000_000_000 then Some("Mega Cap")
    else if cap > 10_000_000_000 then Some("Large Cap")
    else if cap > 2_000_000_000 then Some("Mid Cap")
    else if cap > 300_000_000 then Some("Small Cap")
    else None
  }

  /** Rank of a cap role, 0 for none up to 4 for Mega. */
  function CapRank(r: Option<string>): nat
  {
    match r
    case None => 0
    case Some(name) =>
      if name == "Small Cap" then 1 else if name == "Mid Cap" then 2
      else if name == "Large Cap" then 3 else 4
  }

  /** A larger company never gets a smaller cap role. */
  lemma CapRoleMonotone(a: int, b: int)
    requires a <= b
    ensures CapRank(CapRole(a)) <= CapRank(CapRole(b))
  {
  }

  /** `get_roles`: the optional cap role, then the sector's category; a sector the
      table does not map raises KeyError. */
  function Roles(t: Ticker): (r: Result<seq<string>>)
    ensures r.Err? <==> t.sector !in SectorTable
    ensures r.Err? ==> r.error == KeyError(t.sector)
    ensures r.Ok? ==> var roles := r.value;
      && 1 <= |roles| <= 2
      && roles[|roles| - 1] == SectorTable[t.sector]
      && (|roles| == 2 <==> CapRole(t.marketCap).Some?)
      && (|roles| == 2 ==> Some(roles[0]) == CapRole(t.marketCap))
  {
    if t.sector !in SectorTable then Err(KeyError(t.sector))
    else
      var category := SectorTable[t.sector];
      match CapRole(t.marketCap)
      case Some(c) => Ok([c, category])
      case None => Ok([category])
  }

  /** `Ticker.get_roles`, appending to a list through the if/elif chain. */
  method GetRoles(t: Ticker) returns (r: Result<seq<string>>)
    ensures r == Roles(t)
  {
    var roles: seq<string> := [];
    if t.marketCap > 200_000_000_000 {
      roles := roles + ["Mega Cap"];
    } else if t.marketCap > 10_000_000_000 {
      roles := roles + ["Large Cap"];
    } else if t.marketCap > 2_000_000_000 {
      roles := roles + ["Mid Cap"];
    } else if t.marketCap > 300_000_000 {
      roles := roles + ["Small Cap"];
    }
    if t.sector !in SectorTable {
      return Err(KeyError(t.sector));
    }
    roles := roles + [SectorTable[t.sector]];
    r := Ok(roles);
    if CapRole(t.marketCap).Some? {
      assert roles == [CapRole(t.marketCap).value, SectorTable[t.sector]];
      assert Roles(t) == Ok(roles);
    } else {
      assert roles == [SectorTable[t.sector]];
      assert Roles(t) == Ok(roles);
    }
  }

  /** A ticker whose market cap is missing gets no cap role: its roles are the
      sector category alone (when the sector is mapped). */
  lemma MissingCapNoCapRole(raw: string, info: Info, series: seq<Bar>)
    requires info.marketCap.None?
    ensures var r := Roles(NewTicker(raw, info, series));
      r.Ok? ==> |r.value| == 1
  {
  }

  /** A ticker whose sector is missing can be given roles exactly when its
      uppercased symbol is L, BF.B or CAT; otherwise get_roles fails. */
  lemma MissingSectorRoles(raw: string, info: Info, series: seq<Bar>)
    requires info.sector.None?
    ensures Roles(NewTicker(raw, info, series)).Ok? <==> Upper(raw) in {"L", "BF.B", "CAT"}
  {
    SectorFallbackMapped(Upper(raw));
  }
}
