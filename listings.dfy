/**
 * The rows `subreddit_hot`, `subreddit_trending` and `subreddit_new` build
 * from a Reddit listing: one row per post, in listing order, with the title,
 * the author, the comment count and the link as an HTML anchor.
 */
module Listings {
  import opened Results
  import opened Frames
  import opened Links

  /** Which listing of the subreddit is read: `hot`, `rising` or `new`. */
  datatype Order = Hot | Rising | New

  /** The fields of a submission the session reads; `author` is None for a deleted account. */
  datatype Post = Post(title: string, author: Option<string>, numComments: int, url: string)

  const TitleColumn: string := "title"
  const AuthorColumn: string := "author"
  const CommentsColumn: string := "comments"
  const UrlColumn: string := "url"

  /** The author entry: the account name, or a missing value for a deleted account. */
  function AuthorCell(author: Option<string>): Cell
  {
    match author
    case None => Null
    case Some(name) => Text(name)
  }

  /** The table the listing methods return for the posts. */
  function ListingTable(posts: seq<Post>): Table
  {
    Table(map[
      TitleColumn := seq(|posts|, i requires 0 <= i < |posts| => Text(posts[i].title)),
      AuthorColumn := seq(|posts|, i requires 0 <= i < |posts| => AuthorCell(posts[i].author)),
      CommentsColumn := seq(|posts|, i requires 0 <= i < |posts| => Num(posts[i].numComments as real)),
      UrlColumn := seq(|posts|, i requires 0 <= i < |posts| => Text(MakeClickable(posts[i].url)))],
      |posts|)
  }

  /** `df['url'].apply(self.make_clickable)` over the link column. */
  function ClickableColumn(urls: seq<string>): (col: seq<Cell>)
    ensures |col| == |urls| && forall i :: 0 <= i < |urls| ==> col[i] == Text(MakeClickable(urls[i]))
    ensures forall i :: 0 <= i < |urls| ==> col[i].Text? && HrefOf(col[i].s) == Some(urls[i])
  {
    assert forall i :: 0 <= i < |urls| ==> HrefOf(MakeClickable(urls[i])) == Some(urls[i]) by {
      forall i | 0 <= i < |urls| {
        HrefOfClickable(urls[i]);
      }
    }
    seq(|urls|, i requires 0 <= i < |urls| => Text(MakeClickable(urls[i])))
  }

  /**
   * The loop over the posts, `pd.DataFrame({...})` on the four lists, and
   * the link column replaced by its anchors.
   */
  method ListingFrame(posts: seq<Post>) returns (df: DataFrame)
    ensures fresh(df) && df.Valid() && df.Value() == ListingTable(posts)
  {
    var titles: seq<Cell> := [];
    var authors: seq<Cell> := [];
    var comments: seq<Cell> := [];
    var urls: seq<string> := [];
    for i := 0 to |posts|
      invariant |titles| == |authors| == |comments| == |urls| == i
      invariant forall k :: 0 <= k < i ==> titles[k] == Text(posts[k].title)
      invariant forall k :: 0 <= k < i ==> authors[k] == AuthorCell(posts[k].author)
      invariant forall k :: 0 <= k < i ==> comments[k] == Num(posts[k].numComments as real)
      invariant forall k :: 0 <= k < i ==> urls[k] == posts[k].url
    {
      authors := authors + [AuthorCell(posts[i].author)];
      titles := titles + [Text(posts[i].title)];
      comments := comments + [Num(posts[i].numComments as real)];
      urls := urls + [posts[i].url];
    }
    var raw := seq(|urls|, i requires 0 <= i < |urls| => Text(urls[i]));
    df := new DataFrame(Table(map[TitleColumn := titles, AuthorColumn := authors,
                                  CommentsColumn := comments, UrlColumn := raw], |posts|));
    df.SetColumn(UrlColumn, ClickableColumn(urls));
    assert titles == ListingTable(posts).cols[TitleColumn];
    assert authors == ListingTable(posts).cols[AuthorColumn];
    assert comments == ListingTable(posts).cols[CommentsColumn];
    assert ClickableColumn(urls) == ListingTable(posts).cols[UrlColumn];
  }

  /**
   * The listing table has exactly the four columns, one row per post in
   * listing order, and row i holds post i: its title, its author (missing
   * for a deleted account), its comment count, and an anchor whose target
   * and text are its link, from which the link is read back unchanged.
   */
  lemma ListingRow(posts: seq<Post>, i: nat)
    requires i < |posts|
    ensures var t := ListingTable(posts);
      && t.WellFormed() && t.height == |posts|
      && t.cols.Keys == {TitleColumn, AuthorColumn, CommentsColumn, UrlColumn}
      && t.cols[TitleColumn][i] == Text(posts[i].title)
      && t.cols[AuthorColumn][i] == (if posts[i].author.Some? then Text(posts[i].author.value) else Null)
      && t.cols[CommentsColumn][i] == Num(posts[i].numComments as real)
      && t.cols[UrlColumn][i].Text?
      && HrefOf(t.cols[UrlColumn][i].s) == Some(posts[i].url)
  {
    HrefOfClickable(posts[i].url);
  }

  /** Two listings give the same table only when they hold the same posts in the same order. */
  lemma {:induction false} ListingTableInjective(ps: seq<Post>, qs: seq<Post>)
    ensures ListingTable(ps) == ListingTable(qs) <==> ps == qs
  {
    if ListingTable(ps) == ListingTable(qs) {
      assert |ps| == |qs|;
      forall i | 0 <= i < |ps|
        ensures ps[i] == qs[i]
      {
        ListingRow(ps, i);
        ListingRow(qs, i);
        assert ps[i].title == qs[i].title;
        assert ps[i].author == qs[i].author;
        assert ps[i].numComments == qs[i].numComments;
        assert ps[i].url == qs[i].url;
      }
    }
  }
}
