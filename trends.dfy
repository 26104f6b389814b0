/**
 * The Google Trends adapter (scripts/google_trends.py): the command line is
 * decoded into a command, the command is answered from the pytrends
 * provider, and every answer is a single JSON-like response.
 *
 * The provider is an input: each of its entry points is a function from the
 * call the script makes to what the call hands back (or the exception it
 * raises). The pandas reshaping between a provider frame and the records
 * the script prints is part of those functions, except for the `melt` of the
 * industry path, which is a separate input because the script applies it
 * per chunk.
 */
module GoogleTrends {
  import opened Wrappers
  import opened PyStr

  /** A printed record: column name to value, values kept as text. */
  type Record = map<string, string>

  /** One related-data frame per key ("top", "rising", ...), as records. */
  type RelatedFrames = map<string, seq<Record>>

  /** A call the script makes on the provider. `BuildPayload` always has
      `cat=0` and `gprop=''`, so those are not recorded. */
  datatype Call =
    | BuildPayload(keywords: seq<string>, timeframe: string, geo: string)
    | TrendingSearches(pn: string)

  /** The pytrends session. Each query is answered for the payload built
      just before it. */
  datatype Provider = Provider(
    interestOverTime: Call -> Fetched<seq<Record>>,
    relatedQueries: Call -> Fetched<map<string, RelatedFrames>>,
    relatedTopics: Call -> Fetched<map<string, RelatedFrames>>,
    trendingSearches: Call -> Fetched<seq<string>>,
    melt: (seq<Record>, seq<string>) -> seq<Record>,
    today: string)

  /** A trending query and its 1-based rank. */
  datatype Trend = Trend(query: string, rank: nat)

  /** The dictionaries the script prints. `Failure` is
      `{'status': 'error', 'message': ...}`; the others have status
      `'success'`. */
  datatype Response =
    | Failure(message: string)
    | Series(data: seq<Record>)
    | RelatedData(related: RelatedFrames)
    | Trends(geo: string, date: string, trends: seq<Trend>)
    | IndustrySeries(region: string, period: string, data: seq<Record>)

  const NoData: string := "No data returned for the query"
  const DefaultPeriod: string := "today 12-m"
  const DefaultGeo: string := "US"

  // ----- the command line -----

  datatype Command =
    | Interest(keywords: seq<string>, period: string)
    | RelatedQueries(keyword: string, period: string)
    | RelatedTopics(keyword: string, period: string)
    | Trending(geo: string)
    | Industry(keywords: seq<string>, period: string, region: string)

  /** `argv[i]` when it is there, `default` otherwise. */
  function ArgOr(argv: seq<string>, i: nat, default: string): (a: string)
    ensures i < |argv| ==> a == argv[i]
    ensures i >= |argv| ==> a == default
  {
    if |argv| > i then argv[i] else default
  }

  /** The dispatch of `main` on `sys.argv` (whose entry 0 is the script). */
  function Dispatch(argv: seq<string>): Result<Command>
  {
    if |argv| < 2 then Err("No command specified")
    else
      var command := argv[1];
      if command == "interest" then
        if |argv| < 3 then Err("No keywords specified")
        else Ok(Interest(Split(argv[2], ","), ArgOr(argv, 3, DefaultPeriod)))
      else if command == "related_queries" then
        if |argv| < 3 then Err("No keyword specified")
        else Ok(RelatedQueries(argv[2], ArgOr(argv, 3, DefaultPeriod)))
      else if command == "related_topics" then
        if |argv| < 3 then Err("No keyword specified")
        else Ok(RelatedTopics(argv[2], ArgOr(argv, 3, DefaultPeriod)))
      else if command == "trending" then
        Ok(Trending(ArgOr(argv, 2, DefaultGeo)))
      else if command == "industry" then
        if |argv| < 3 then Err("No industry keywords specified")
        else Ok(Industry(Split(argv[2], ","), ArgOr(argv, 3, DefaultPeriod), ArgOr(argv, 4, DefaultGeo)))
      else Err("Unknown command: " + command)
  }

  /** The commands that cannot run without a third argument. */
  predicate NeedsArgument(command: string) {
    command == "interest" || command == "related_queries" || command == "related_topics" || command == "industry"
  }

  predicate IsCommandName(command: string) {
    NeedsArgument(command) || command == "trending"
  }

  /** Dispatch fails exactly when there is no command, the command is not
      one of the five, or it lacks the argument it needs. */
  lemma DispatchFails(argv: seq<string>)
    ensures Dispatch(argv).Err? <==>
              |argv| < 2 || !IsCommandName(argv[1]) || (|argv| < 3 && NeedsArgument(argv[1]))
  {
  }

  /** The error messages of the failing dispatches. */
  lemma DispatchMessages(argv: seq<string>)
    ensures |argv| < 2 ==> Dispatch(argv) == Err("No command specified")
    ensures |argv| == 2 && argv[1] == "interest" ==> Dispatch(argv) == Err("No keywords specified")
    ensures |argv| == 2 && (argv[1] == "related_queries" || argv[1] == "related_topics") ==>
              Dispatch(argv) == Err("No keyword specified")
    ensures |argv| == 2 && argv[1] == "industry" ==> Dispatch(argv) == Err("No industry keywords specified")
    ensures |argv| >= 2 && !IsCommandName(argv[1]) ==> Dispatch(argv) == Err("Unknown command: " + argv[1])
  {
  }

  /** `trending` never fails, and reads its region from the third argument
      or defaults it to "US"; the period defaults to "today 12-m" and the
      industry region to "US". */
  lemma DispatchDefaults(argv: seq<string>)
    ensures |argv| == 2 && argv[1] == "trending" ==> Dispatch(argv) == Ok(Trending("US"))
    ensures |argv| > 2 && argv[1] == "trending" ==> Dispatch(argv) == Ok(Trending(argv[2]))
    ensures |argv| == 3 && NeedsArgument(argv[1]) ==> Dispatch(argv).value.period == "today 12-m"
    ensures |argv| >= 4 && NeedsArgument(argv[1]) ==> Dispatch(argv).value.period == argv[3]
    ensures |argv| <= 4 && |argv| >= 3 && argv[1] == "industry" ==> Dispatch(argv).value.region == "US"
    ensures |argv| >= 5 && argv[1] == "industry" ==> Dispatch(argv).value.region == argv[4]
  {
  }

  /** The keyword lists are the comma-separated pieces of the third
      argument: never empty, and joined with commas they give it back. */
  lemma DispatchKeywords(argv: seq<string>)
    requires Dispatch(argv).Ok? && (Dispatch(argv).value.Interest? || Dispatch(argv).value.Industry?)
    ensures |Dispatch(argv).value.keywords| >= 1
    ensures Join(",", Dispatch(argv).value.keywords) == argv[2]
  {
    SplitJoin(argv[2], ",");
  }

  /** A command line that asks for `cmd`: the inverse of `Dispatch`. */
  function Args(cmd: Command): seq<string>
  {
    var program := "google_trends.py";
    match cmd
    case Interest(keywords, period) => [program, "interest", Join(",", keywords), period]
    case RelatedQueries(keyword, period) => [program, "related_queries", keyword, period]
    case RelatedTopics(keyword, period) => [program, "related_topics", keyword, period]
    case Trending(geo) => [program, "trending", geo]
    case Industry(keywords, period, region) => [program, "industry", Join(",", keywords), period, region]
  }

  /** Keyword lists a command line can carry: at least one keyword, none
      with a comma in it. */
  predicate Expressible(cmd: Command) {
    (cmd.Interest? || cmd.Industry?) ==>
      |cmd.keywords| >= 1 && forall i :: 0 <= i < |cmd.keywords| ==> Lacks(cmd.keywords[i], ',')
  }

  /** Every expressible command is what its own command line dispatches to. */
  lemma DispatchArgs(cmd: Command)
    requires Expressible(cmd)
    ensures Dispatch(Args(cmd)) == Ok(cmd)
  {
    if cmd.Interest? || cmd.Industry? {
      JoinSplit(cmd.keywords, ',');
    }
  }

  // ----- interest over time -----

  /** The `keywords` argument of `get_interest_over_time`: a single string
      or a list. */
  datatype Keywords = One(keyword: string) | Many(keywords: seq<string>)

  /** `[keywords]` when a single string was given, the list itself otherwise. */
  function AsList(k: Keywords): (ks: seq<string>)
    ensures k.One? ==> ks == [k.keyword]
    ensures k.Many? ==> ks == k.keywords
  {
    match k
    case One(keyword) => [keyword]
    case Many(keywords) => keywords
  }

  /** The payload of `get_interest_over_time`: worldwide (`geo=''`). */
  function InterestCall(keywords: Keywords, period: string): Call
  {
    BuildPayload(AsList(keywords), period, "")
  }

  /** `get_interest_over_time` after its payload: the records of a
      non-empty frame, the no-data error for an empty one, the exception's
      message otherwise. */
  function GetInterestOverTime(keywords: Keywords, period: string, p: Provider): (r: Response)
    ensures var answer := p.interestOverTime(InterestCall(keywords, period));
            && (answer.Raised? ==> r == Failure(answer.message))
            && (answer.Got? && answer.value != [] ==> r == Series(answer.value))
            && (answer == Got([]) ==> r == Failure(NoData))
  {
    match p.interestOverTime(InterestCall(keywords, period))
    case Raised(message) => Failure(message)
    case Got(rows) => if rows != [] then Series(rows) else Failure(NoData)
  }

  /** A single keyword is answered as the one-element list holding it. */
  lemma InterestOneKeyword(keyword: string, period: string, p: Provider)
    ensures GetInterestOverTime(One(keyword), period, p) == GetInterestOverTime(Many([keyword]), period, p)
  {
  }

  // ----- related queries and topics -----

  /** The keys of the related data the script copies out. */
  predicate IsRelatedKey(k: string) {
    k == "top" || k == "rising"
  }

  /** `data` holds exactly the "top" and "rising" frames of `frames` that
      are present and not empty, unchanged. */
  predicate Shaped(frames: RelatedFrames, data: RelatedFrames) {
    && (forall k :: k in data ==> IsRelatedKey(k) && k in frames && frames[k] != [] && data[k] == frames[k])
    && (forall k :: IsRelatedKey(k) && k in frames && frames[k] != [] ==> k in data)
  }

  /** The key assignments of `get_related_queries` and
      `get_related_topics`. */
  method ShapeRelated(frames: RelatedFrames) returns (result: RelatedFrames)
    ensures Shaped(frames, result)
  {
    result := map[];
    if "top" in frames && frames["top"] != [] {
      result := result["top" := frames["top"]];
    }
    if "rising" in frames && frames["rising"] != [] {
      result := result["rising" := frames["rising"]];
    }
  }

  /** At most the two frames are kept, and the shaping is determined by the
      frames alone. */
  lemma ShapedUnique(frames: RelatedFrames, a: RelatedFrames, b: RelatedFrames)
    requires Shaped(frames, a) && Shaped(frames, b)
    ensures a == b
    ensures a.Keys <= {"top", "rising"}
  {
    assert a.Keys == b.Keys;
  }

  /** What `get_related_queries(keyword, ...)` returns when the provider
      answered `answer`: the exception's message, the no-data error when the
      keyword is missing, the shaped frames otherwise. */
  predicate RelatedAnswer(keyword: string, answer: Fetched<map<string, RelatedFrames>>, r: Response) {
    match answer
    case Raised(message) => r == Failure(message)
    case Got(dict) =>
      if keyword in dict then r.RelatedData? && Shaped(dict[keyword], r.related)
      else r == Failure(NoData)
  }

  /** The payload of the related functions: the keyword alone, worldwide. */
  function RelatedCall(keyword: string, period: string): Call
  {
    BuildPayload([keyword], period, "")
  }

  /** `get_related_queries` or `get_related_topics`, given the matching
      provider entry point. */
  method GetRelated(keyword: string, period: string, related: Call -> Fetched<map<string, RelatedFrames>>)
    returns (r: Response)
    ensures RelatedAnswer(keyword, related(RelatedCall(keyword, period)), r)
  {
    match related(RelatedCall(keyword, period))
    case Raised(message) =>
      r := Failure(message);
    case Got(dict) =>
      if keyword in dict {
        var data := ShapeRelated(dict[keyword]);
        r := RelatedData(data);
      } else {
        r := Failure(NoData);
      }
  }

  // ----- trending searches -----

  /** `get_trending_searches(geo)` on the provider's answer and the date of
      the day: the queries ranked from 1 in the provider's order. */
  function GetTrendingSearches(geo: string, answer: Fetched<seq<string>>, today: string): (r: Response)
    ensures r.Trends? <==> answer.Got? && answer.value != []
    ensures answer == Got([]) ==> r == Failure(NoData)
    ensures r.Trends? ==>
              && r.geo == geo && r.date == today && |r.trends| == |answer.value|
              && forall i :: 0 <= i < |r.trends| ==> r.trends[i].query == answer.value[i] && r.trends[i].rank == i + 1
  {
    match answer
    case Raised(message) => Failure(message)
    case Got(queries) =>
      if queries != [] then Trends(geo, today, seq(|queries|, i requires 0 <= i < |queries| => Trend(queries[i], i + 1)))
      else Failure(NoData)
  }

  // ----- industry interest -----

  function Min(a: int, b: int): int { if a <= b then a else b }

  const ChunkSize: nat := 5

  /** `[keywords[i:i+5] for i in range(0, len(keywords), 5)]` */
  function Chunks(keywords: seq<string>): seq<seq<string>>
  {
    seq((|keywords| + ChunkSize - 1) / ChunkSize,
        j requires 0 <= j < (|keywords| + ChunkSize - 1) / ChunkSize =>
          keywords[ChunkSize * j..Min(ChunkSize * j + ChunkSize, |keywords|)])
  }

  /** The parts of `cs` one after the other. */
  function Concat(cs: seq<seq<string>>): seq<string>
  {
    if cs == [] then [] else Concat(cs[..|cs| - 1]) + cs[|cs| - 1]
  }

  lemma {:induction false} ChunksPrefix(keywords: seq<string>, j: nat)
    requires j <= |Chunks(keywords)|
    ensures Concat(Chunks(keywords)[..j]) == keywords[..Min(ChunkSize * j, |keywords|)]
  {
    var cs := Chunks(keywords);
    if j > 0 {
      ChunksPrefix(keywords, j - 1);
      assert cs[..j][..j - 1] == cs[..j - 1];
    }
  }

  /** There are ceil(n / 5) chunks, each of one to five keywords, and one
      after the other they are the keyword list. */
  lemma ChunksShape(keywords: seq<string>)
    ensures |Chunks(keywords)| == (|keywords| + 4) / 5
    ensures forall j :: 0 <= j < |Chunks(keywords)| ==> 1 <= |Chunks(keywords)[j]| <= 5
    ensures Concat(Chunks(keywords)) == keywords
  {
    var cs := Chunks(keywords);
    ChunksPrefix(keywords, |cs|);
    assert cs[..|cs|] == cs;
  }

  /** The records one chunk adds: the melted frame when it is not empty. */
  function Contribution(chunk: seq<string>, answer: Fetched<seq<Record>>, p: Provider): seq<Record>
  {
    if answer.Got? && answer.value != [] then p.melt(answer.value, chunk) else []
  }

  /** The state of the chunk loop: the records gathered so far, or the
      exception that ended it at chunk `at`. */
  datatype Gathered = Collected(records: seq<Record>) | Stopped(message: string, at: nat)

  /** The query the loop makes for one chunk. */
  function ChunkCall(chunk: seq<string>, period: string, region: string): Call
  {
    BuildPayload(chunk, period, region)
  }

  /** The chunk loop of `get_industry_interest` over the first `n` chunks. */
  function Gather(chunks: seq<seq<string>>, n: nat, period: string, region: string, p: Provider): (g: Gathered)
    requires n <= |chunks|
    ensures g.Stopped? ==> g.at < n
  {
    if n == 0 then Collected([])
    else
      match Gather(chunks, n - 1, period, region, p)
      case Stopped(message, at) => Stopped(message, at)
      case Collected(records) =>
        var answer := p.interestOverTime(ChunkCall(chunks[n - 1], period, region));
        if answer.Raised? then Stopped(answer.message, n - 1)
        else Collected(records + Contribution(chunks[n - 1], answer, p))
  }

  /** Once an exception ends the loop, later chunks change nothing. */
  lemma {:induction false} GatherStopped(chunks: seq<seq<string>>, n: nat, m: nat, period: string, region: string, p: Provider)
    requires n <= m <= |chunks| && Gather(chunks, n, period, region, p).Stopped?
    ensures Gather(chunks, m, period, region, p) == Gather(chunks, n, period, region, p)
    decreases m - n
  {
    if n < m {
      GatherStopped(chunks, n, m - 1, period, region, p);
    }
  }

  /** The loop gathers nothing exactly when no chunk before it contributed
      a record. */
  lemma {:induction false} GatherEmpty(chunks: seq<seq<string>>, n: nat, period: string, region: string, p: Provider)
    requires n <= |chunks| && Gather(chunks, n, period, region, p).Collected?
    ensures Gather(chunks, n, period, region, p).records == [] <==>
              forall i :: 0 <= i < n ==>
                Contribution(chunks[i], p.interestOverTime(ChunkCall(chunks[i], period, region)), p) == []
  {
    if n > 0 {
      GatherEmpty(chunks, n - 1, period, region, p);
      var before := Gather(chunks, n - 1, period, region, p);
      var answer := p.interestOverTime(ChunkCall(chunks[n - 1], period, region));
      assert before.Collected? && answer.Got?;
      assert Gather(chunks, n, period, region, p).records
          == before.records + Contribution(chunks[n - 1], answer, p);
    }
  }

  /** The payloads of the first `n` chunks. */
  function Payloads(chunks: seq<seq<string>>, n: nat, period: string, region: string): (calls: seq<Call>)
    requires n <= |chunks|
    ensures |calls| == n
    ensures forall i :: 0 <= i < n ==> calls[i] == ChunkCall(chunks[i], period, region)
  {
    if n == 0 then [] else Payloads(chunks, n - 1, period, region) + [ChunkCall(chunks[n - 1], period, region)]
  }

  /** What `get_industry_interest` returns. */
  function IndustryResult(keywords: seq<string>, period: string, region: string, p: Provider): (r: Response)
    ensures r.IndustrySeries? || r.Failure?
    ensures r.IndustrySeries? ==> r.region == region && r.period == period && r.data != []
  {
    var chunks := Chunks(keywords);
    match Gather(chunks, |chunks|, period, region, p)
    case Stopped(message, _) => Failure(message)
    case Collected(records) =>
      if records != [] then IndustrySeries(region, period, records) else Failure(NoData)
  }

  /** The provider calls `get_industry_interest` makes: one payload per
      chunk, up to and including the one whose query raised. */
  function IndustryCalls(keywords: seq<string>, period: string, region: string, p: Provider): seq<Call>
  {
    var chunks := Chunks(keywords);
    match Gather(chunks, |chunks|, period, region, p)
    case Stopped(_, at) => Payloads(chunks, at + 1, period, region)
    case Collected(_) => Payloads(chunks, |chunks|, period, region)
  }

  /** `get_industry_interest`: one payload per chunk of five keywords, the
      non-empty frames melted and accumulated in order. */
  method GetIndustryInterest(keywords: seq<string>, period: string, region: string, p: Provider)
    returns (r: Response, calls: seq<Call>)
    ensures r == IndustryResult(keywords, period, region, p)
    ensures calls == IndustryCalls(keywords, period, region, p)
  {
    var chunks := Chunks(keywords);
    var allData: seq<Record> := [];
    calls := [];
    for i := 0 to |chunks|
      invariant Gather(chunks, i, period, region, p) == Collected(allData)
      invariant calls == Payloads(chunks, i, period, region)
    {
      var call := ChunkCall(chunks[i], period, region);
      calls := calls + [call];
      var answer := p.interestOverTime(call);
      if answer.Raised? {
        r := Failure(answer.message);
        GatherStopped(chunks, i + 1, |chunks|, period, region, p);
        return;
      }
      if answer.value != [] {
        allData := allData + p.melt(answer.value, chunks[i]);
      }
    }
    if allData != [] {
      r := IndustrySeries(region, period, allData);
    } else {
      r := Failure(NoData);
    }
  }

  /** Without an exception there is exactly one payload per chunk, in
      order, each with one to five keywords, together all the keywords. */
  lemma IndustryPayloads(keywords: seq<string>, period: string, region: string, p: Provider)
    requires Gather(Chunks(keywords), |Chunks(keywords)|, period, region, p).Collected?
    ensures var calls := IndustryCalls(keywords, period, region, p);
            && |calls| == (|keywords| + 4) / 5
            && (forall i :: 0 <= i < |calls| ==>
                  calls[i].BuildPayload? && 1 <= |calls[i].keywords| <= 5
                  && calls[i].timeframe == period && calls[i].geo == region)
            && Concat(seq(|calls|, i requires 0 <= i < |calls| => calls[i].keywords)) == keywords
  {
    var chunks := Chunks(keywords);
    var calls := IndustryCalls(keywords, period, region, p);
    ChunksShape(keywords);
    assert seq(|calls|, i requires 0 <= i < |calls| => calls[i].keywords) == chunks;
  }

  /** The no-data error comes from an exception-free run exactly when no
      chunk contributed a record. */
  lemma IndustryNoData(keywords: seq<string>, period: string, region: string, p: Provider)
    requires Gather(Chunks(keywords), |Chunks(keywords)|, period, region, p).Collected?
    ensures var chunks := Chunks(keywords);
            IndustryResult(keywords, period, region, p) == Failure(NoData) <==>
              forall i :: 0 <= i < |chunks| ==>
                Contribution(chunks[i], p.interestOverTime(ChunkCall(chunks[i], period, region)), p) == []
  {
    var chunks := Chunks(keywords);
    GatherEmpty(chunks, |chunks|, period, region, p);
  }

  // ----- main -----

  /** What `main` prints for a dispatched command, and the provider calls
      made on the way. */
  predicate Answers(cmd: Command, p: Provider, out: Response, calls: seq<Call>) {
    match cmd
    case Interest(keywords, period) =>
      out == GetInterestOverTime(Many(keywords), period, p) && calls == [InterestCall(Many(keywords), period)]
    case RelatedQueries(keyword, period) =>
      RelatedAnswer(keyword, p.relatedQueries(RelatedCall(keyword, period)), out)
      && calls == [RelatedCall(keyword, period)]
    case RelatedTopics(keyword, period) =>
      RelatedAnswer(keyword, p.relatedTopics(RelatedCall(keyword, period)), out)
      && calls == [RelatedCall(keyword, period)]
    case Trending(geo) =>
      out == GetTrendingSearches(geo, p.trendingSearches(TrendingSearches(geo)), p.today)
      && calls == [TrendingSearches(geo)]
    case Industry(keywords, period, region) =>
      out == IndustryResult(keywords, period, region, p) && calls == IndustryCalls(keywords, period, region, p)
  }

  /** `main`: one response for every command line; the provider is reached
      exactly when the command line dispatches. */
  method Run(argv: seq<string>, p: Provider) returns (out: Response, calls: seq<Call>)
    ensures Dispatch(argv).Err? ==> out == Failure(Dispatch(argv).error)
    ensures Dispatch(argv).Ok? ==> Answers(Dispatch(argv).value, p, out, calls)
    ensures calls == [] <==> Dispatch(argv).Err?
  {
    match Dispatch(argv)
    case Err(message) =>
      out := Failure(message);
      calls := [];
    case Ok(cmd) =>
      match cmd
      case Interest(keywords, period) =>
        out := GetInterestOverTime(Many(keywords), period, p);
        calls := [InterestCall(Many(keywords), period)];
      case RelatedQueries(keyword, period) =>
        out := GetRelated(keyword, period, p.relatedQueries);
        calls := [RelatedCall(keyword, period)];
      case RelatedTopics(keyword, period) =>
        out := GetRelated(keyword, period, p.relatedTopics);
        calls := [RelatedCall(keyword, period)];
      case Trending(geo) =>
        out := GetTrendingSearches(geo, p.trendingSearches(TrendingSearches(geo)), p.today);
        calls := [TrendingSearches(geo)];
      case Industry(keywords, period, region) =>
        DispatchKeywords(argv);
        ChunksShape(keywords);
        out, calls := GetIndustryInterest(keywords, period, region, p);
  }
}
