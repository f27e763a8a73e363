/**
 * `RedditAlgo`: the session object of the dashboard. It keeps the stock
 * symbol (which callers may reassign), the Quandl dataset code derived from
 * the symbol once at construction, and the Reddit user agent, and answers
 * short-interest, price and Reddit queries through three providers.
 */
module Session {
  import opened Results
  import opened Frames
  import opened Codes
  import opened Normalise
  import opened Series
  import opened Listings

  /** `yf.Ticker(symbol).history(start=..., end=..., interval=...)`. */
  type PriceHistory = (string, string, Option<string>, string) -> Result<Table, ProviderError>

  /** A Reddit client with the given user agent reading a listing: `reddit.subreddit(name).hot(limit=...)` and so on. */
  type ListingSource = (string, Order, string, int) -> Result<seq<Post>, ProviderError>

  /** The services the session talks to. */
  datatype Providers = Providers(shortInterest: ShortInterest, priceHistory: PriceHistory, listing: ListingSource)
  {
    /** The price provider returns tables with one entry per row in each column. */
    ghost predicate PricesReliable()
    {
      forall symbol, start, end, interval :: priceHistory(symbol, start, end, interval).Success? ==>
        priceHistory(symbol, start, end, interval).value.WellFormed()
    }

    /** Both table providers return tables with one entry per row in each column. */
    ghost predicate Reliable()
    {
      Series.Reliable(shortInterest) && PricesReliable()
    }
  }

  /** The part of the user agent before the Reddit account name. */
  const UserAgentPrefix: string := "my-wsb-tracker by/u/"

  /** `yf.Ticker(symbol)`: a handle on one symbol's Yahoo Finance data. */
  datatype YahooTicker = YahooTicker(symbol: string)

  class RedditAlgo {
    /** The stock symbol; the dashboard reassigns it after construction. */
    var symbol: string
    const redditAccount: string
    const databaseCode: string
    const datasetPrefix: string
    /** The Quandl dataset code, computed once from the symbol given to the constructor. */
    const quandlCode: string
    const userAgent: string
    const providers: Providers

    constructor (symbol: string, redditAccount: string, providers: Providers)
      ensures this.symbol == symbol && this.redditAccount == redditAccount && this.providers == providers
      ensures databaseCode == DatabaseCode && datasetPrefix == DatasetPrefix + symbol
      ensures quandlCode == DatasetCode(symbol)
      ensures userAgent == UserAgentPrefix + redditAccount
    {
      this.symbol := symbol;
      this.redditAccount := redditAccount;
      databaseCode := DatabaseCode;
      datasetPrefix := DatasetPrefix + symbol;
      quandlCode := DatabaseCode + "/" + (DatasetPrefix + symbol);
      userAgent := UserAgentPrefix + redditAccount;
      this.providers := providers;
    }

    /**
     * `quandl_timeseries`: the short interest of the dataset code fixed at
     * construction, normalised in place when asked; a provider error
     * reaches the caller.
     */
    method QuandlTimeseries(start: string, end: string, normalise: bool := false, column: Option<string> := None)
      returns (r: Result<DataFrame, ProviderError>)
      requires Series.Reliable(providers.shortInterest)
      ensures match providers.shortInterest(quandlCode, start, end)
        case Failure(e) => r == Failure(e)
        case Success(t) => r.Success? && fresh(r.value) && r.value.Valid() && r.value.Value() == Normalised(t, normalise, column)
    {
      match providers.shortInterest(quandlCode, start, end)
      case Failure(e) =>
        r := Failure(e);
      case Success(t) =>
        var df := new DataFrame(t);
        var _ := NormaliseColumn(df, normalise, column);
        r := Success(df);
    }

    /**
     * `multiple_timeseries`: each code's short interest tagged with its
     * ticker and appended in turn to an empty table; the first provider
     * error reaches the caller.
     */
    method MultipleTimeseries(codes: seq<string>, start: string, end: string) returns (r: Result<Table, ProviderError>)
      requires Series.Reliable(providers.shortInterest)
      ensures r == Stacked(codes, providers.shortInterest, start, end)
    {
      var source := providers.shortInterest;
      var full := Empty;
      ghost var tables: seq<Table> := [];
      StackEmpty();
      for i := 0 to |codes|
        invariant FetchAll(codes[..i], source, start, end) == Success(tables)
        invariant AllWellFormed(tables)
        invariant full == Stack(Tags(codes[..i]), tables)
      {
        var fetched := source(codes[i], start, end);
        if fetched.Failure? {
          FetchAllStopsAt(codes, i, source, start, end);
          return Failure(fetched.error);
        }
        var df := new DataFrame(fetched.value);
        df.SetColumn(TickerColumn, Repeat(df.height, Text(TickerTag(codes[i]))));
        FetchAllStep(codes, i, source, start, end, tables);
        StackPrefixStep(codes, i, tables, fetched.value);
        full := Append(full, df.Value());
        tables := tables + [fetched.value];
      }
      assert codes[..|codes|] == codes;
      r := Success(full);
    }

    /** `ticker`: the Yahoo Finance handle on the current symbol. */
    method Ticker() returns (ticker: YahooTicker)
      ensures ticker.symbol == symbol
    {
      ticker := YahooTicker(symbol);
    }

    /**
     * `history`: the current symbol's prices; normalisation is on by default
     * but does nothing unless a column is named.
     */
    method History(start: string, end: Option<string> := None, interval: string := "1d",
                   normalise: bool := true, column: Option<string> := None)
      returns (r: Result<DataFrame, ProviderError>)
      requires providers.PricesReliable()
      ensures match providers.priceHistory(symbol, start, end, interval)
        case Failure(e) => r == Failure(e)
        case Success(t) => r.Success? && fresh(r.value) && r.value.Valid() && r.value.Value() == Normalised(t, normalise, column)
    {
      var ticker := Ticker();
      match providers.priceHistory(ticker.symbol, start, end, interval)
      case Failure(e) =>
        r := Failure(e);
      case Success(t) =>
        var df := new DataFrame(t);
        var _ := NormaliseColumn(df, normalise, column);
        r := Success(df);
    }

    /** The three listing queries: the posts of one listing as a table. */
    method SubredditListing(order: Order, subreddit: string, limit: int) returns (r: Result<DataFrame, ProviderError>)
      ensures match providers.listing(userAgent, order, subreddit, limit)
        case Failure(e) => r == Failure(e)
        case Success(posts) => r.Success? && fresh(r.value) && r.value.Valid() && r.value.Value() == ListingTable(posts)
    {
      match providers.listing(userAgent, order, subreddit, limit)
      case Failure(e) =>
        r := Failure(e);
      case Success(posts) =>
        var df := ListingFrame(posts);
        r := Success(df);
    }

    /** `subreddit_hot`: the hot listing; by default r/wallstreetbets, requested with limit 100. */
    method SubredditHot(subreddit: string := "wallstreetbets", limit: int := 100) returns (r: Result<DataFrame, ProviderError>)
      ensures match providers.listing(userAgent, Hot, subreddit, limit)
        case Failure(e) => r == Failure(e)
        case Success(posts) => r.Success? && fresh(r.value) && r.value.Valid() && r.value.Value() == ListingTable(posts)
    {
      r := SubredditListing(Hot, subreddit, limit);
    }

    /** `subreddit_trending`: the rising listing. */
    method SubredditTrending(subreddit: string := "wallstreetbets", limit: int := 100) returns (r: Result<DataFrame, ProviderError>)
      ensures match providers.listing(userAgent, Rising, subreddit, limit)
        case Failure(e) => r == Failure(e)
        case Success(posts) => r.Success? && fresh(r.value) && r.value.Valid() && r.value.Value() == ListingTable(posts)
    {
      r := SubredditListing(Rising, subreddit, limit);
    }

    /** `subreddit_new`: the new listing. */
    method SubredditNew(subreddit: string := "wallstreetbets", limit: int := 100) returns (r: Result<DataFrame, ProviderError>)
      ensures match providers.listing(userAgent, New, subreddit, limit)
        case Failure(e) => r == Failure(e)
        case Success(posts) => r.Success? && fresh(r.value) && r.value.Valid() && r.value.Value() == ListingTable(posts)
    {
      r := SubredditListing(New, subreddit, limit);
    }
  }
}
