/**
 * What the dashboard asks of the session: it builds the session for GME,
 * then points `symbol` at the stock picked in the sidebar, and reads prices,
 * short interest and the r/wallstreetbets hot listing (limit 20). Prices follow
 * the picked stock; short interest stays on the dataset code built for GME.
 */
module Dashboard {
  import opened Results
  import opened Frames
  import opened Codes
  import opened Normalise
  import opened Listings
  import opened Session

  /** The symbol and the Reddit account the dashboard constructs the session with. */
  const InitialSymbol: string := "GME"
  const Account: string := "dudik-bender"

  /** The three tables the page shows. */
  datatype Page = Page(prices: DataFrame, shortInterest: DataFrame, posts: DataFrame)

  /**
   * The session set-up and the three queries, in page order; the first
   * provider error ends the page.
   */
  method Render(selected: string, beginning: string, ending: string, providers: Providers)
    returns (algo: RedditAlgo, r: Result<Page, ProviderError>)
    requires providers.Reliable()
    ensures fresh(algo) && algo.symbol == selected && algo.quandlCode == DatasetCode(InitialSymbol)
    ensures algo.userAgent == UserAgentPrefix + Account && algo.providers == providers
    ensures var prices := providers.priceHistory(selected, beginning, Some(ending), "1d");
      var short := providers.shortInterest(DatasetCode(InitialSymbol), beginning, ending);
      var posts := providers.listing(algo.userAgent, Hot, "wallstreetbets", 20);
      if prices.Failure? then r == Failure(prices.error)
      else if short.Failure? then r == Failure(short.error)
      else if posts.Failure? then r == Failure(posts.error)
      else (&& r.Success?
            && r.value.prices.Valid() && r.value.prices.Value() == prices.value
            && r.value.shortInterest.Valid() && r.value.shortInterest.Value() == short.value
            && r.value.posts.Valid() && r.value.posts.Value() == ListingTable(posts.value))
  {
    algo := new RedditAlgo(InitialSymbol, Account, providers);
    algo.symbol := selected;
    var prices := algo.History(beginning, Some(ending));
    if prices.Failure? {
      return algo, Failure(prices.error);
    }
    NormaliseDisabled(providers.priceHistory(selected, beginning, Some(ending), "1d").value, true, None);
    var short := algo.QuandlTimeseries(beginning, ending);
    if short.Failure? {
      return algo, Failure(short.error);
    }
    NormaliseDisabled(providers.shortInterest(DatasetCode(InitialSymbol), beginning, ending).value, false, None);
    var posts := algo.SubredditHot(limit := 20);
    if posts.Failure? {
      return algo, Failure(posts.error);
    }
    r := Success(Page(prices.value, short.value, posts.value));
  }

  /**
   * Once another stock is picked, the short interest shown is not that
   * stock's: the dataset code read is GME's, whose ticker tag is FNYX_GME,
   * and it differs from the picked stock's own code.
   */
  lemma ShortInterestStaysOnInitialSymbol(selected: string)
    requires selected != InitialSymbol
    ensures DatasetCode(InitialSymbol) != DatasetCode(selected)
    ensures TickerTag(DatasetCode(InitialSymbol)) == "FNYX_GME"
    ensures TickerTag(DatasetCode(selected)) == DatasetPrefix + selected
  {
    DatasetCodeInjective(InitialSymbol, selected);
    DatasetCodeTag(InitialSymbol);
    DatasetCodeTag(selected);
  }
}
