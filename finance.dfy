/**
 * The Yahoo Finance adapter (scripts/yahoo_finance.py): the command line is
 * decoded into a command and the command is answered from the yfinance
 * provider, whose entry points are inputs here.
 *
 * The arithmetic on prices (percent changes, rounding) is floating point
 * and is not modelled: the responses carry the history rows the script
 * takes its figures from, so what is proved is which rows those are.
 */
module YahooFinance {
  import opened Wrappers
  import opened PyStr
  import opened PyInt

  /** A value of an `info` dictionary or of a history row; numbers are kept
      as their text. */
  datatype Value = Null | Text(text: string) | Number(digits: string)

  /** `Ticker(symbol).info` */
  type Info = map<string, Value>

  /** One row of a price history, column name to value. */
  type Row = map<string, Value>

  /** The yfinance library as the script uses it. */
  datatype Provider = Provider(
    /** `Ticker(symbol).history(period=period)`, rows oldest first */
    history: (string, string) -> Fetched<seq<Row>>,
    /** `Ticker(symbol).info` */
    info: string -> Fetched<Info>,
    /** the message `Tickers(query)` raises, if it does */
    tickers: string -> Option<string>,
    /** `datetime.fromtimestamp(v).strftime('%Y-%m-%d')` */
    formatDate: Value -> string,
    /** `datetime.now().strftime('%Y-%m-%d')` */
    today: string)

  /** The figures of one index, before arithmetic: its name and the rows its
      price and change are taken from. */
  datatype Quote = Quote(name: Value, current: Row, previous: Row)

  /** The figures of one sector, before arithmetic: the rows its day, week
      and month changes compare. */
  datatype SectorMove = SectorMove(sector: string, current: Row, pastDay: Row, pastWeek: Row, pastMonth: Row, lastUpdated: string)

  /** One search result. */
  datatype Hit = Hit(symbol: string, name: Value, exchange: Value, sector: Value, industry: Value)

  /** The dictionaries the script prints; `Failure` is the error status. */
  datatype Response =
    | Failure(message: string)
    | StockData(info: Info, history: seq<Row>)
    | MarketData(indices: map<string, Quote>)
    | SectorData(date: string, sectors: seq<SectorMove>)
    | SearchData(hits: seq<Hit>)

  /** What a run of the script leaves behind: one printed response, or the
      traceback of an exception nothing caught. */
  datatype Printed = Output(response: Response) | Traceback

  // ----- the command line -----

  datatype Command = Stock(symbol: string, period: string) | Market | Sectors | Search(query: string, limit: int)

  /** The outcome of `main`'s dispatch: an error response printed at once,
      an exception escaping `main`, or a command to answer. */
  datatype Dispatched = Refused(message: string) | Aborted | Ready(cmd: Command)

  const DefaultPeriod: string := "1mo"
  const DefaultLimit: int := 10

  /** The dispatch of `main` on `sys.argv` (whose entry 0 is the script). */
  function Dispatch(argv: seq<string>): Dispatched
  {
    if |argv| < 2 then Refused("No command specified")
    else
      var command := argv[1];
      if command == "stock" then
        if |argv| < 3 then Refused("No symbol specified")
        else Ready(Stock(argv[2], if |argv| > 3 then argv[3] else DefaultPeriod))
      else if command == "market" then Ready(Market)
      else if command == "sectors" then Ready(Sectors)
      else if command == "search" then
        if |argv| < 3 then Refused("No query specified")
        else if |argv| > 3 then
          match ParseInt(argv[3])
          case None => Aborted
          case Some(limit) => Ready(Search(argv[2], limit))
        else Ready(Search(argv[2], DefaultLimit))
      else Refused("Unknown command: " + command)
  }

  /** The error responses of `main`. */
  lemma DispatchMessages(argv: seq<string>)
    ensures |argv| < 2 ==> Dispatch(argv) == Refused("No command specified")
    ensures |argv| == 2 && argv[1] == "stock" ==> Dispatch(argv) == Refused("No symbol specified")
    ensures |argv| == 2 && argv[1] == "search" ==> Dispatch(argv) == Refused("No query specified")
    ensures |argv| >= 2 && argv[1] !in {"stock", "market", "sectors", "search"} ==>
              Dispatch(argv) == Refused("Unknown command: " + argv[1])
  {
  }

  /** The period defaults to "1mo" and the search limit to 10. */
  lemma DispatchDefaults(argv: seq<string>)
    ensures |argv| == 3 && argv[1] == "stock" ==> Dispatch(argv) == Ready(Stock(argv[2], "1mo"))
    ensures |argv| == 3 && argv[1] == "search" ==> Dispatch(argv) == Ready(Search(argv[2], 10))
  {
  }

  /** A limit that is not a number escapes as an exception: there is no
      response at all. A limit with no digit in it is such a limit. */
  lemma DispatchBadLimit(argv: seq<string>)
    requires |argv| > 3 && argv[1] == "search"
    requires forall k :: 0 <= k < |argv[3]| ==> !IsDigit(argv[3][k])
    ensures Dispatch(argv) == Aborted
  {
    NoDigitNoInt(argv[3]);
  }

  /** Only an unparsable limit makes `main` abort. */
  lemma DispatchAborts(argv: seq<string>)
    ensures Dispatch(argv) == Aborted <==>
              |argv| > 3 && argv[1] == "search" && ParseInt(argv[3]).None?
  {
  }

  /** A limit padded with a separator U+001C makes `int()` raise, while one
      padded with an ideographic space is read as the number. */
  lemma DispatchPaddedLimit()
    ensures Dispatch(["yahoo_finance.py", "search", "AAPL", "5\U{1C}"]) == Aborted
    ensures Dispatch(["yahoo_finance.py", "search", "AAPL", "5\U{3000}"]) == Ready(Search("AAPL", 5))
  {
    IntSpacePadding();
  }

  /** A command line that asks for `cmd`: the inverse of `Dispatch`. */
  function Args(cmd: Command): seq<string>
  {
    var program := "yahoo_finance.py";
    match cmd
    case Stock(symbol, period) => [program, "stock", symbol, period]
    case Market => [program, "market"]
    case Sectors => [program, "sectors"]
    case Search(query, limit) => [program, "search", query, Show(limit)]
  }

  /** Every command is what its own command line dispatches to; the limit
      makes the round trip through `str` and `int`. */
  lemma DispatchArgs(cmd: Command)
    ensures Dispatch(Args(cmd)) == Ready(cmd)
  {
    if cmd.Search? {
      ParseShow(cmd.limit);
    }
  }

  // ----- stock data -----

  /** The `info` keys `get_stock_data` keeps. */
  const InfoKeys: seq<string> := [
    "shortName", "longName", "sector", "industry", "website",
    "market", "marketCap", "currency", "previousClose", "open",
    "fiftyTwoWeekHigh", "fiftyTwoWeekLow", "volume",
    "averageVolume", "beta", "trailingPE", "forwardPE"]

  const DividendKey: string := "lastDividendDate"

  /** `filtered_info`: the listed keys present in `info` with their values,
      and the last dividend date, formatted, when it is there and not
      `None`. */
  function FilteredInfo(info: Info, formatDate: Value -> string): (r: Info)
    ensures forall k :: k in r <==> (k in InfoKeys && k in info) || (k == DividendKey && k in info && info[k] != Null)
    ensures forall k :: k in r && k != DividendKey ==> r[k] == info[k]
    ensures DividendKey in r ==> r[DividendKey] == Text(formatDate(info[DividendKey]))
  {
    var kept := map k | k in InfoKeys && k in info :: info[k];
    if DividendKey in info && info[DividendKey] != Null then kept[DividendKey := Text(formatDate(info[DividendKey]))]
    else kept
  }

  /** The keys of a sequence hold no more elements than it does. */
  lemma {:induction false} SeqKeysCard(ks: seq<string>)
    ensures |set k | k in ks| <= |ks|
  {
    if ks != [] {
      SeqKeysCard(ks[1..]);
      assert (set k | k in ks) == {ks[0]} + (set k | k in ks[1..]);
    }
  }

  /** The filtered info has at most eighteen keys, whatever `info` holds. */
  lemma FilteredInfoSize(info: Info, formatDate: Value -> string)
    ensures |FilteredInfo(info, formatDate)| <= |InfoKeys| + 1
  {
    var r := FilteredInfo(info, formatDate);
    var allowed := (set k | k in InfoKeys) + {DividendKey};
    SeqKeysCard(InfoKeys);
    assert r.Keys <= allowed;
    assert allowed == r.Keys + (allowed - r.Keys);
  }

  /** `get_stock_data(symbol, period)`: the history, then the filtered
      info, each step's exception ending the call. */
  function GetStockData(symbol: string, period: string, p: Provider): (r: Response)
    ensures r.StockData? || r.Failure?
    ensures r.StockData? <==> p.history(symbol, period).Got? && p.info(symbol).Got?
    ensures r.StockData? ==>
              r.history == p.history(symbol, period).value && r.info == FilteredInfo(p.info(symbol).value, p.formatDate)
  {
    match p.history(symbol, period)
    case Raised(message) => Failure(message)
    case Got(rows) =>
      match p.info(symbol)
      case Raised(message) => Failure(message)
      case Got(info) => StockData(FilteredInfo(info, p.formatDate), rows)
  }

  // ----- rows by position -----

  const OutOfBounds: string := "single positional indexer is out-of-bounds"

  /** The row a Python position (negative counts from the end) names. */
  function Position(n: nat, i: int): int
  {
    if i < 0 then n + i else i
  }

  /** `hist.iloc[i]` */
  function Iloc(rows: seq<Row>, i: int): (r: Result<Row>)
    ensures r.Ok? <==> -|rows| <= i < |rows|
    ensures r.Ok? ==> 0 <= Position(|rows|, i) < |rows| && r.value == rows[Position(|rows|, i)]
    ensures r.Err? ==> r.error == OutOfBounds
  {
    if -|rows| <= i < |rows| then Ok(rows[Position(|rows|, i)]) else Err(OutOfBounds)
  }

  /** The positions `get_industry_performance` reads for a history of `n`
      rows: now, a day, a week and a month back, each falling back to the
      current row when the history is too short. */
  datatype References = References(current: int, day: int, week: int, month: int)

  function SectorReferences(n: nat): References
  {
    References(-1, if n > 1 then -2 else -1, if n > 5 then -5 else -1, if n > 20 then 0 else -1)
  }

  /** For a non-empty history every reference is a row of it: the day back
      is row n-2, the week back row n-5 and the month back row 0 when the
      history is long enough, and the current row n-1 otherwise. */
  lemma SectorReferenceRows(n: nat)
    requires n > 0
    ensures var refs := SectorReferences(n);
            && Position(n, refs.current) == n - 1
            && Position(n, refs.day) == (if n > 1 then n - 2 else n - 1)
            && Position(n, refs.week) == (if n > 5 then n - 5 else n - 1)
            && Position(n, refs.month) == (if n > 20 then 0 else n - 1)
            && 0 <= Position(n, refs.day) < n && 0 <= Position(n, refs.week) < n
            && 0 <= Position(n, refs.month) < n
  {
  }

  // ----- sectors -----

  /** The sector ETFs, in the dictionary's order. */
  const SectorEtfs: seq<(string, string)> := [
    ("Technology", "XLK"), ("Healthcare", "XLV"), ("Financials", "XLF"),
    ("Energy", "XLE"), ("Consumer Cyclicals", "XLY"), ("Consumer Staples", "XLP"),
    ("Industrials", "XLI"), ("Materials", "XLB"), ("Utilities", "XLU"),
    ("Real Estate", "XLRE"), ("Communication Services", "XLC")]

  /** The entry of a sector with a non-empty history. */
  function Move(sector: string, rows: seq<Row>, date: string): (m: SectorMove)
    requires rows != []
    ensures var refs := SectorReferences(|rows|);
            && m.current == rows[Position(|rows|, refs.current)]
            && m.pastDay == rows[Position(|rows|, refs.day)]
            && m.pastWeek == rows[Position(|rows|, refs.week)]
            && m.pastMonth == rows[Position(|rows|, refs.month)]
  {
    SectorReferenceRows(|rows|);
    var refs := SectorReferences(|rows|);
    SectorMove(sector, Iloc(rows, refs.current).value, Iloc(rows, refs.day).value,
               Iloc(rows, refs.week).value, Iloc(rows, refs.month).value, date)
  }

  /** The state of the sector loop: the entries so far, or the exception
      that ended it. */
  datatype Swept = Moves(moves: seq<SectorMove>) | Halted(message: string)

  /** The history the loop asks for sector `i`. */
  function SectorHistory(i: nat, p: Provider): Fetched<seq<Row>>
    requires i < |SectorEtfs|
  {
    p.history(SectorEtfs[i].1, "1mo")
  }

  /** The sector loop of `get_industry_performance` over the first `n`
      sectors. */
  function Sweep(n: nat, p: Provider): (s: Swept)
    requires n <= |SectorEtfs|
    ensures s.Moves? ==> |s.moves| <= n
  {
    if n == 0 then Moves([])
    else
      match Sweep(n - 1, p)
      case Halted(message) => Halted(message)
      case Moves(moves) =>
        match SectorHistory(n - 1, p)
        case Raised(message) => Halted(message)
        case Got(rows) => if rows != [] then Moves(moves + [Move(SectorEtfs[n - 1].0, rows, p.today)]) else Moves(moves)
  }

  lemma {:induction false} SweepHalted(n: nat, m: nat, p: Provider)
    requires n <= m <= |SectorEtfs| && Sweep(n, p).Halted?
    ensures Sweep(m, p) == Sweep(n, p)
    decreases m - n
  {
    if n < m {
      SweepHalted(n, m - 1, p);
    }
  }

  /** The loop ends in an exception exactly when some sector's history
      raised one. */
  lemma {:induction false} SweepHalts(n: nat, p: Provider)
    requires n <= |SectorEtfs|
    ensures Sweep(n, p).Halted? <==> exists i :: 0 <= i < n && SectorHistory(i, p).Raised?
  {
    if n > 0 {
      SweepHalts(n - 1, p);
    }
  }

  /** The sector names of the entries are those of the sectors with a
      non-empty history, in order. */
  function Listed(n: nat, p: Provider): seq<string>
    requires n <= |SectorEtfs|
  {
    if n == 0 then []
    else
      var h := SectorHistory(n - 1, p);
      Listed(n - 1, p) + (if h.Got? && h.value != [] then [SectorEtfs[n - 1].0] else [])
  }

  lemma {:induction false} SweepListed(n: nat, p: Provider)
    requires n <= |SectorEtfs| && Sweep(n, p).Moves?
    ensures var moves := Sweep(n, p).moves;
            && |moves| == |Listed(n, p)|
            && forall j :: 0 <= j < |moves| ==> moves[j].sector == Listed(n, p)[j] && moves[j].lastUpdated == p.today
  {
    if n > 0 {
      SweepListed(n - 1, p);
    }
  }

  /** What `get_industry_performance` returns. */
  function SectorsResult(p: Provider): Response
  {
    match Sweep(|SectorEtfs|, p)
    case Halted(message) => Failure(message)
    case Moves(moves) => SectorData(p.today, moves)
  }

  /** `get_industry_performance`: one entry per sector whose monthly
      history is not empty, in order; any exception ends the call. */
  method GetIndustryPerformance(p: Provider) returns (r: Response)
    ensures r == SectorsResult(p)
  {
    var results: seq<SectorMove> := [];
    var currentDate := p.today;
    for i := 0 to |SectorEtfs|
      invariant Sweep(i, p) == Moves(results)
    {
      var (sectorName, etf) := SectorEtfs[i];
      var hist := p.history(etf, "1mo");
      if hist.Raised? {
        r := Failure(hist.message);
        SweepHalted(i + 1, |SectorEtfs|, p);
        return;
      }
      if |hist.value| > 0 {
        results := results + [Move(sectorName, hist.value, currentDate)];
      }
    }
    r := SectorData(currentDate, results);
  }

  // ----- market summary -----

  /** The major indices, in the script's order. */
  const Indices: seq<string> := ["^GSPC", "^DJI", "^IXIC", "^FTSE", "^GDAXI", "^FCHI", "^N225"]

  /** The state of the index loop: the quotes so far, or the exception that
      ended it. */
  datatype Surveyed = Quotes(quotes: map<string, Quote>) | Broke(message: string)

  /** `info.get('shortName', symbol)` */
  function NameOf(info: Info, symbol: string): Value
  {
    if "shortName" in info then info["shortName"] else Text(symbol)
  }

  /** The quote of one index, or the exception reading it raises. */
  function QuoteOf(symbol: string, p: Provider): (q: Result<Quote>)
    ensures q.Ok? ==> p.history(symbol, "5d").Got? && p.history(symbol, "5d").value != []
    ensures q.Ok? ==>
              var rows := p.history(symbol, "5d").value;
              && rows != []
              && q.value.current == rows[|rows| - 1]
              && q.value.previous == (if |rows| > 1 then rows[|rows| - 2] else rows[|rows| - 1])
              && p.info(symbol).Got? && q.value.name == NameOf(p.info(symbol).value, symbol)
    ensures p.history(symbol, "5d") == Got([]) ==> q == Err(OutOfBounds)
  {
    match p.history(symbol, "5d")
    case Raised(message) => Err(message)
    case Got(rows) =>
      match Iloc(rows, -1)
      case Err(message) => Err(message)
      case Ok(current) =>
        var previous := if |rows| > 1 then Iloc(rows, -2).value else current;
        match p.info(symbol)
        case Raised(message) => Err(message)
        case Got(info) => Ok(Quote(NameOf(info, symbol), current, previous))
  }

  /** The index loop of `get_market_summary` over the first `n` indices. */
  function Survey(n: nat, p: Provider): (s: Surveyed)
    requires n <= |Indices|
  {
    if n == 0 then Quotes(map[])
    else
      match Survey(n - 1, p)
      case Broke(message) => Broke(message)
      case Quotes(quotes) =>
        match QuoteOf(Indices[n - 1], p)
        case Err(message) => Broke(message)
        case Ok(q) => Quotes(quotes[Indices[n - 1] := q])
  }

  lemma {:induction false} SurveyBroke(n: nat, m: nat, p: Provider)
    requires n <= m <= |Indices| && Survey(n, p).Broke?
    ensures Survey(m, p) == Survey(n, p)
    decreases m - n
  {
    if n < m {
      SurveyBroke(n, m - 1, p);
    }
  }

  /** A finished survey quotes every index it passed, each from its own
      history and info. */
  lemma {:induction false} SurveyQuotes(n: nat, p: Provider)
    requires n <= |Indices| && Survey(n, p).Quotes?
    ensures Survey(n, p).quotes.Keys == set i | 0 <= i < n :: Indices[i]
    ensures forall i :: 0 <= i < n ==> QuoteOf(Indices[i], p) == Ok(Survey(n, p).quotes[Indices[i]])
  {
    if n > 0 {
      SurveyQuotes(n - 1, p);
      assert Survey(n - 1, p).Quotes?;
    }
  }

  /** What `get_market_summary` returns. */
  function MarketResult(p: Provider): Response
  {
    match Survey(|Indices|, p)
    case Broke(message) => Failure(message)
    case Quotes(quotes) => MarketData(quotes)
  }

  /** An index with an empty history makes the whole summary an error:
      there is no partial summary. */
  lemma MarketAllOrNothing(p: Provider)
    ensures MarketResult(p).MarketData? ==>
              MarketResult(p).indices.Keys == set i | 0 <= i < |Indices| :: Indices[i]
    ensures (exists i :: 0 <= i < |Indices| && p.history(Indices[i], "5d") == Got([])) ==> MarketResult(p).Failure?
  {
    if Survey(|Indices|, p).Quotes? {
      SurveyQuotes(|Indices|, p);
    }
  }

  /** `get_market_summary`: a quote for every major index, keyed by its
      symbol; any exception ends the call. */
  method GetMarketSummary(p: Provider) returns (r: Response)
    ensures r == MarketResult(p)
  {
    var results: map<string, Quote> := map[];
    for i := 0 to |Indices|
      invariant Survey(i, p) == Quotes(results)
    {
      var idx := Indices[i];
      var hist := p.history(idx, "5d");
      if hist.Raised? {
        r := Failure(hist.message);
        SurveyBroke(i + 1, |Indices|, p);
        return;
      }
      var current := Iloc(hist.value, -1);
      if current.Err? {
        r := Failure(current.error);
        SurveyBroke(i + 1, |Indices|, p);
        return;
      }
      var previous := if |hist.value| > 1 then Iloc(hist.value, -2).value else current.value;
      var indexInfo := p.info(idx);
      if indexInfo.Raised? {
        r := Failure(indexInfo.message);
        SurveyBroke(i + 1, |Indices|, p);
        return;
      }
      results := results[idx := Quote(NameOf(indexInfo.value, idx), current.value, previous)];
    }
    r := MarketData(results);
  }

  // ----- search -----

  /** `info.get(key, '')` */
  function Get(info: Info, key: string): Value
  {
    if key in info then info[key] else Text("")
  }

  /** What one token contributes: a hit when its info could be read and has
      a short name. */
  function HitOf(symbol: string, info: Fetched<Info>): (hs: seq<Hit>)
    ensures |hs| <= 1
    ensures hs != [] <==> info.Got? && "shortName" in info.value
  {
    if info.Got? && "shortName" in info.value then
      var i := info.value;
      [Hit(symbol, i["shortName"], Get(i, "exchange"), Get(i, "sector"), Get(i, "industry"))]
    else []
  }

  /** The hits of all the tokens, in order, without a limit. */
  function Eligible(tokens: seq<string>, p: Provider): seq<Hit>
  {
    if tokens == [] then []
    else Eligible(tokens[..|tokens| - 1], p) + HitOf(tokens[|tokens| - 1], p.info(tokens[|tokens| - 1]))
  }

  lemma {:induction false} EligibleAppend(a: seq<string>, b: seq<string>, p: Provider)
    ensures Eligible(a + b, p) == Eligible(a, p) + Eligible(b, p)
    decreases |b|
  {
    if b == [] {
      assert a + b == a;
    } else {
      assert (a + b)[..|a + b| - 1] == a + b[..|b| - 1];
      EligibleAppend(a, b[..|b| - 1], p);
    }
  }

  /** Each hit is for a token with a short name, in token order. */
  lemma {:induction false} EligibleHits(tokens: seq<string>, p: Provider)
    ensures |Eligible(tokens, p)| <= |tokens|
    ensures forall j :: 0 <= j < |Eligible(tokens, p)| ==>
              var h := Eligible(tokens, p)[j];
              h.symbol in tokens && p.info(h.symbol).Got? && "shortName" in p.info(h.symbol).value
              && h.name == p.info(h.symbol).value["shortName"]
  {
    if tokens != [] {
      var front := tokens[..|tokens| - 1];
      EligibleHits(front, p);
      forall j | 0 <= j < |Eligible(front, p)| ensures Eligible(front, p)[j].symbol in tokens {
        assert Eligible(front, p)[j].symbol in front;
      }
    }
  }

  /** The number of results the loop keeps: `limit`, but at least one,
      because the limit is only tested after a result is added. */
  function Cap(limit: int): nat
  {
    if limit < 1 then 1 else limit
  }

  function Take(hits: seq<Hit>, n: nat): (t: seq<Hit>)
    ensures |t| == if |hits| < n then |hits| else n
  {
    if |hits| <= n then hits else hits[..n]
  }

  /** What `search_stocks(query, limit)` returns. */
  function SearchResult(query: string, limit: int, p: Provider): (r: Response)
    ensures r.SearchData? <==> p.tickers(query).None?
    ensures r.SearchData? ==> |r.hits| <= Cap(limit) && |r.hits| <= |Words(query)|
  {
    EligibleHits(Words(query), p);
    match p.tickers(query)
    case Some(message) => Failure(message)
    case None => SearchData(Take(Eligible(Words(query), p), Cap(limit)))
  }

  /** With a limit of at least one, at most `limit` results. */
  lemma SearchLimit(query: string, limit: int, p: Provider)
    requires limit >= 1
    ensures SearchResult(query, limit, p).SearchData? ==> |SearchResult(query, limit, p).hits| <= limit
  {
  }

  /** One more token: its hit, if any, follows those of the tokens before. */
  lemma EligibleStep(tokens: seq<string>, i: nat, p: Provider)
    requires i < |tokens|
    ensures Eligible(tokens[..i + 1], p) == Eligible(tokens[..i], p) + HitOf(tokens[i], p.info(tokens[i]))
  {
    assert tokens[..i + 1][..i] == tokens[..i];
  }

  /** The first `Cap(limit)` hits are a prefix of all of them. */
  lemma EligibleStop(tokens: seq<string>, i: nat, n: nat, p: Provider)
    requires i <= |tokens| && |Eligible(tokens[..i], p)| == n
    ensures Take(Eligible(tokens, p), n) == Eligible(tokens[..i], p)
  {
    EligibleAppend(tokens[..i], tokens[i..], p);
    assert tokens[..i] + tokens[i..] == tokens;
  }

  /** The token loop of `search_stocks`: a hit for each token whose info
      has a short name, stopping once `limit` hits are in; a token whose
      info raises is skipped. */
  method CollectHits(tokens: seq<string>, limit: int, p: Provider) returns (results: seq<Hit>)
    ensures results == Take(Eligible(tokens, p), Cap(limit))
  {
    results := [];
    var i := 0;
    var done := false;
    while i < |tokens| && !done
      invariant 0 <= i <= |tokens|
      invariant results == Eligible(tokens[..i], p)
      invariant done ==> |results| == Cap(limit)
      invariant !done ==> |results| < Cap(limit)
    {
      var tickerSymbol := tokens[i];
      var info := p.info(tickerSymbol);
      EligibleStep(tokens, i, p);
      if info.Got? && "shortName" in info.value {
        var fields := info.value;
        results := results + [Hit(tickerSymbol, fields["shortName"], Get(fields, "exchange"), Get(fields, "sector"), Get(fields, "industry"))];
        if |results| >= limit {
          done := true;
        }
      }
      i := i + 1;
    }
    if done {
      EligibleStop(tokens, i, |results|, p);
    } else {
      assert tokens[..i] == tokens;
    }
  }

  /** `search_stocks`: the whitespace tokens of the query, in order. */
  method SearchStocks(query: string, limit: int, p: Provider) returns (r: Response)
    ensures r == SearchResult(query, limit, p)
  {
    match p.tickers(query)
    case Some(message) =>
      r := Failure(message);
    case None =>
      var results := CollectHits(Words(query), limit, p);
      r := SearchData(results);
  }

  // ----- main -----

  /** The response to a dispatched command. */
  function Answer(cmd: Command, p: Provider): Response
  {
    match cmd
    case Stock(symbol, period) => GetStockData(symbol, period, p)
    case Market => MarketResult(p)
    case Sectors => SectorsResult(p)
    case Search(query, limit) => SearchResult(query, limit, p)
  }

  /** `main`: an error response, a traceback for an unparsable limit, or
      the answer to the command. */
  method Serve(argv: seq<string>, p: Provider) returns (out: Printed)
    ensures out.Traceback? <==> Dispatch(argv) == Aborted
    ensures Dispatch(argv).Refused? ==> out == Output(Failure(Dispatch(argv).message))
    ensures Dispatch(argv).Ready? ==> out == Output(Answer(Dispatch(argv).cmd, p))
  {
    match Dispatch(argv)
    case Refused(message) =>
      out := Output(Failure(message));
    case Aborted =>
      out := Traceback;
    case Ready(cmd) =>
      var r: Response;
      match cmd {
        case Stock(symbol, period) =>
          r := GetStockData(symbol, period, p);
        case Market =>
          r := GetMarketSummary(p);
        case Sectors =>
          r := GetIndustryPerformance(p);
        case Search(query, limit) =>
          r := SearchStocks(query, limit, p);
      }
      out := Output(r);
  }
}
