# wsb-algo session model

This project models the core of `wsb-algo`, a small dashboard that tracks "meme" stocks. The core is the session object
`RedditAlgo` of `app/models.py`. It is built for a stock symbol and a Reddit account, and it answers four kinds of query:

- the short interest of the stock, read from the FINRA dataset `FINRA/FNYX_<symbol>` of the Quandl provider (`quandl_timeseries`);
- the short interest of several dataset codes together, stacked into one table with each code's ticker tag (`multiple_timeseries`);
- the stock's price history from Yahoo Finance (`ticker`, `history`);
- the hot, rising or new posts of a subreddit as a table, each link made clickable (`subreddit_hot`, `subreddit_trending`, `subreddit_new`, `make_clickable`).

Both table queries can add a `Normalised` column with each row's relative change from the first row (`Base.normalise_column`).
The Streamlit page `dashboard.py` builds the session for GME, then assigns the selected stock to `symbol`, and asks for prices,
short interest and the r/wallstreetbets hot listing requested with limit 20.

Modules:

- `Results`: Option and Result values, and the provider error.
- `Codes`: `str.find`, the ticker tag `code[code.find('/') + 1:]` and the dataset code.
- `Links`: `make_clickable` and its inverse.
- `Frames`: the pandas tables and the in-place `DataFrame` object.
- `Normalise`: `normalise_column`, as a specification function and as the in-place method.
- `Series`: the specification of `multiple_timeseries`.
- `Listings`: the listing tables.
- `Session`: the `RedditAlgo` class.
- `Dashboard`: the page's use of the session.

The three providers are not modelled themselves. They are function-valued parameters of the session:

- `quandl.get`;
- `yf.Ticker(symbol).history`;
- the PRAW client's `subreddit(name).hot/rising/new(limit=...)`.

Each returns a table (or a list of posts) or a provider error. A provider error reaches the caller unchanged, as the exception does
in the source.

The session keeps `symbol` as a mutable field. The Quandl dataset code is a constant computed once, in the constructor, from the
symbol given then (`app/models.py:42-44`). `quandl_timeseries` reads that constant (line 59), while `ticker`/`history` read the
current `symbol` (line 73). So after the dashboard's reassignment (`dashboard.py:23`), prices follow the selected stock but short
interest stays on GME: `Dashboard.Render` and `Dashboard.ShortInterestStaysOnInitialSymbol` state this.

## Model

| member | source | states |
|---|---|---|
| Codes.Find | app/models.py:67 | `str.find` of one character: -1 exactly when the character is absent, otherwise an index holding it with no earlier occurrence |
| Codes.FindFirst | app/models.py:67 | the index of a character with no earlier occurrence is what `find` returns |
| Codes.TickerTag | app/models.py:67 | the tag is the whole code when it has no '/', otherwise the code is head + "/" + tag with no '/' in head; its length is `len(code) - (find + 1)` |
| Codes.TagAfterFirstSlash | app/models.py:67 | a code written as head + "/" + tag, with no '/' in head, has exactly that tag |
| Codes.DatasetCode | app/models.py:42-44 | defines the dataset code `FINRA` + `/` + `FNYX_` + symbol; DatasetCodeTag and DatasetCodeInjective characterise it |
| Codes.DatasetCodeTag | app/models.py:42-44 | the ticker tag of the code `FINRA/FNYX_<symbol>` is `FNYX_<symbol>` |
| Codes.DatasetCodeInjective | app/models.py:42-44 | two symbols give the same dataset code if and only if they are equal |
| Links.MakeClickable | app/models.py:126-127 | the anchor is `<a href="` + url + `">` + url + `</a>`, of length 2·len(url) + 15, beginning and ending with the fixed tags and holding the url twice |
| Links.HrefOfClickable | app/models.py:126-127 | the url is read back unchanged from its anchor |
| Links.ClickableOfHref | app/models.py:126-127 | every string from which a url reads back is exactly that url's anchor |
| Links.MakeClickableInjective | app/models.py:126-127 | two urls give the same anchor if and only if they are equal |
| Frames.WithColumn | app/models.py:30 | defines `df[name] = values`: the column replaced or added, the rows kept; WithColumnShape characterises it |
| Frames.Append | app/models.py:68 | defines `full_df.append(df)`: the union of columns, each the first table's entries then the second's, NaN-filled; AppendShape and AppendColumnOr characterise it |
| Frames.WithColumnShape | app/models.py:30 | `df[name] = values` of the right length keeps the table well formed and its row count, sets that column, adds no other column and leaves every other column unchanged |
| Frames.AppendShape | app/models.py:68 | `append` gives the rows of both tables, the columns of either, and each column the first table's entries followed by the second's, NaN where a side lacks the column |
| Frames.AppendColumnOr | app/models.py:68 | a column of an appended table, NaN-filled where absent, is the first table's followed by the second's |
| Frames.DataFrame.SetColumn | app/models.py:30 | the object's table becomes the old table with the column set, and stays well formed |
| Normalise.RelativeChange | app/models.py:30 | `(x - first) / first` fails exactly when an operand is not numeric; for numbers with a non-zero first value it is the relative change |
| Normalise.NormaliseAttempt | app/models.py:29-30 | defines the body of the `try`: the new column, or nothing when reading the first row or an entry raises; NormaliseSucceedsIff and NormalisedShape characterise it |
| Normalise.Normalised | app/models.py:26-34 | the table after normalisation is well formed with the same rows |
| Normalise.NormaliseColumn | app/models.py:26-34 | the object's new table is the specification's; it returns the object exactly when normalisation is on, a column is named and the attempt succeeds, and nothing otherwise |
| Normalise.NormaliseDisabled | app/models.py:26-27 | with normalisation off or no column named (the defaults of `quandl_timeseries` and of `history`) the table is left exactly as it was |
| Normalise.NormaliseMissingColumn | app/models.py:28-34 | an empty table or a missing column raises nothing and adds no `Normalised` column |
| Normalise.NormaliseSucceedsIff | app/models.py:28-31 | the attempt succeeds if and only if there is a first row, the column exists and every entry is numeric |
| Normalise.NormalisedShape | app/models.py:29-30 | on success `Normalised` has one entry per row, entry i is entry i's relative change to row 0, entry 0 is 0 when the first value is non-zero, and no other column or the row count changes |
| Normalise.NormaliseTwice | app/models.py:29-30 | normalising twice on a source column other than `Normalised` gives the same table as once |
| Normalise.NormaliseTwiceOnNormalised | app/models.py:29-30 | normalising on `Normalised` itself is not idempotent: [2, 3] becomes [0, 0.5] and then [NaN, infinity], both non-finite |
| Series.Tagged | app/models.py:67 | defines `df['ticker'] = tag`; TaggedShape and TaggedColumnOr characterise it |
| Series.Tags | app/models.py:67 | one tag per code: tag i is code i itself when it has no '/', and otherwise code i is some head without '/', then '/', then tag i |
| Series.TagsStep | app/models.py:65-67 | the tags of one more code are the earlier tags followed by the new code's |
| Series.FetchAll | app/models.py:65-66 | defines the requests of the loop, stopping at the first provider error; on success one table per code; FetchAllSuccess, FetchAllFirstFailure and FetchAllPrefixFailure characterise it |
| Series.Stacked | app/models.py:63-69 | defines the result of `multiple_timeseries`: the first provider error, or the tables stacked in code order, each tagged; StackWellFormed, StackKeysIff and StackCell characterise it, and MultipleTimeseries is proved equal to it |
| Series.FetchAllSuccess | app/models.py:65-66 | the requests all succeed if and only if each code's request succeeds, and table i is then code i's table |
| Series.FetchAllFirstFailure | app/models.py:65-66 | a failure is the error of some code's request, with every earlier code's request succeeding |
| Series.FetchAllPrefixFailure | app/models.py:65-66 | once the requests of a prefix of the codes fail, the requests of all the codes fail with the same error |
| Series.FetchAllStopsAt | app/models.py:65-66 | a failing request after successful ones is the error the loop returns |
| Series.FetchAllStep | app/models.py:65-66 | one more successful request adds its table after the earlier tables |
| Series.FetchAllWellFormed | app/models.py:66 | the tables of a provider that returns well-formed tables are well formed |
| Series.TaggedShape | app/models.py:67 | tagging adds `ticker` with the tag on every row and changes no other column and no row count |
| Series.TaggedColumnOr | app/models.py:67 | row j of a column of a tagged table is the tag in `ticker`, the table's entry in its own columns, and NaN elsewhere |
| Series.StackColumnLength | app/models.py:68 | every stacked column has one entry per row of all the tables |
| Series.StackWellFormed | app/models.py:64-69 | the stack is well formed and its row count is the sum of the tables' row counts |
| Series.StackKeysIff | app/models.py:64-69 | the stack has a column if and only if some table has it, or it is `ticker` and there is a table |
| Series.StackColumnAbsent | app/models.py:68 | a column no table has is NaN on every row |
| Series.StackColumnOr | app/models.py:68 | each column of the stack, NaN-filled where absent, is the stacked column |
| Series.StackColumnCell | app/models.py:64-69 | row j of block k of a stacked column is what tagged table k holds for row j |
| Series.StackCell | app/models.py:64-69 | block k lies inside the stack, after the rows of the tables before it, and the blocks come in the order of the codes: row j of block k holds row j of table k in its columns, code k's ticker tag in `ticker`, and NaN in columns only other tables have |
| Series.StackEmpty | app/models.py:64 | stacking no tables gives the empty `pd.DataFrame()` |
| Series.StackColumnStep | app/models.py:68 | a column after one more table is the stack's column followed by the new tagged table's |
| Series.StackStep | app/models.py:68 | appending the next tagged table to the stack gives the stack of one more table |
| Series.StackPrefixStep | app/models.py:65-68 | stacking the first i codes' tables, then appending code i's table tagged with its tag, gives the stack of the first i + 1 |
| Listings.ListingTable | app/models.py:92-103 | defines the listing table of the posts; ListingRow and ListingTableInjective characterise it, and ListingFrame is proved equal to it |
| Listings.ClickableColumn | app/models.py:103 | `apply(make_clickable)` gives one text entry per url, in order, from which that url reads back unchanged |
| Listings.ListingFrame | app/models.py:88-103 | the loop and `df['url'] = ...` produce the listing table for the posts |
| Listings.ListingRow | app/models.py:92-103 | the listing has exactly the four columns, one row per post in provider order, and row i holds post i's title, author (missing for a deleted account), comment count and an anchor from which its url reads back |
| Listings.ListingTableInjective | app/models.py:92-103 | two listings give the same table if and only if they hold the same posts in the same order |
| Session.RedditAlgo.constructor | app/models.py:37-54 | the session keeps the symbol and account, its dataset code is `FINRA/FNYX_<symbol>` and its user agent is `my-wsb-tracker by/u/<account>` |
| Session.RedditAlgo.QuandlTimeseries | app/models.py:57-61 | the table the provider returns for the dataset code fixed at construction, normalised as asked; a provider error is returned as it is |
| Session.RedditAlgo.MultipleTimeseries | app/models.py:63-69 | the loop's result is the stack of the codes' tables, each tagged, or the first provider error |
| Session.RedditAlgo.Ticker | app/models.py:72-74 | the handle is on the current symbol |
| Session.RedditAlgo.History | app/models.py:79-83 | the prices of the current symbol, normalised as asked (by default on, but with no column named, so nothing is added) |
| Session.RedditAlgo.SubredditListing | app/models.py:86-104 | the listing table of the posts the provider returns for the session's user agent, order, subreddit and limit, or the provider error |
| Session.RedditAlgo.SubredditHot | app/models.py:86-104 | requests the hot listing of r/wallstreetbets with limit 100 by default, and returns the posts the provider gives as a listing table |
| Session.RedditAlgo.SubredditTrending | app/models.py:106-124 | the same for the rising listing |
| Session.RedditAlgo.SubredditNew | app/models.py:129-147 | the same for the new listing |
| Dashboard.Render | dashboard.py:22-38 | after the reassignment the session's symbol is the selected stock but its dataset code is still GME's; prices are the selected stock's, short interest is GME's, posts are the provider's hot listing of r/wallstreetbets requested with limit 20; the first provider error ends the page |
| Dashboard.ShortInterestStaysOnInitialSymbol | dashboard.py:22-23 | for any other selected stock the dataset code read differs from that stock's own, and its tag is `FNYX_GME` |

## Left out

- `info()` is not modelled. It passes the provider's metadata through unchanged.
- The providers (`quandl.get`, `yf.Ticker(...).history`, `praw.Reddit(...)`) are function-valued parameters. The model does not cover network behaviour, API keys, the environment variables, `dotenv` loading, or the module-level `quandl.ApiConfig` setting (lines 11-23, 45-54).
- A provider's tables are assumed well formed (every column has one entry per row). These are the predicates `Series.Reliable` (short interest) and `Providers.PricesReliable` (prices). Each table query requires only the one for the provider it calls.
- Floating point is modelled with reals. NumPy's division by a zero or non-finite first value gives `NonFinite`: a NaN or an infinity, not a particular value.
- Comment counts are modelled as reals.
- Python's `TypeError` on a string or `None` operand is modelled as the attempt failing.
- A table has no row index and no column order. `append`'s duplicated index, the index shift in `dashboard.py:39` and the order in which columns appear are not modelled.
- The `print` diagnostic in the `except` branch of `normalise_column` is not modelled.
- PRAW's lazy listing is modelled as the list of posts it yields. A post's author is modelled as its account name, or as missing for a deleted account.
- `dashboard.py` beyond lines 22-38 is not modelled: widgets, the date arithmetic from today's date, Plotly charts and HTML rendering. The dates are parameters. The column selections `[['Open', ...]]` and `['TotalVolume']` are not modelled.
