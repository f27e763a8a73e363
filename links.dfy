/** The clickable HTML link that replaces each post's url in a listing. */
module Links {
  import opened Results

  const AnchorOpen: string := "<a href=\""
  const AnchorMid: string := "\">"
  const AnchorClose: string := "</a>"

  /** `make_clickable`: the url wrapped as `<a href="url">url</a>`. */
  function MakeClickable(url: string): (html: string)
    ensures |html| == 2 * |url| + 15
    ensures html[..9] == AnchorOpen && html[|html| - 4..] == AnchorClose
    ensures html[9..9 + |url|] == url && html[9 + |url|..11 + |url|] == AnchorMid
    ensures html[11 + |url|..11 + 2 * |url|] == url
  {
    AnchorOpen + url + AnchorMid + url + AnchorClose
  }

  /**
   * Reads the url back out of an anchor of the shape `MakeClickable`
   * produces; None for any other string.
   */
  function HrefOf(html: string): Option<string>
  {
    if |html| < 15 || (|html| - 15) % 2 != 0 then None
    else
      var n := (|html| - 15) / 2;
      if && html[..9] == AnchorOpen
         && html[9 + n..11 + n] == AnchorMid
         && html[11 + n..11 + 2 * n] == html[9..9 + n]
         && html[11 + 2 * n..] == AnchorClose
      then Some(html[9..9 + n])
      else None
  }

  /** The url can be read back from its link. */
  lemma HrefOfClickable(url: string)
    ensures HrefOf(MakeClickable(url)) == Some(url)
  {
    var html := MakeClickable(url);
    assert (|html| - 15) / 2 == |url|;
  }

  /** A string cut into the five pieces of an anchor is that anchor. */
  lemma Reassemble(html: string, n: nat)
    requires |html| == 2 * n + 15
    requires html[..9] == AnchorOpen && html[9 + n..11 + n] == AnchorMid
    requires html[11 + n..11 + 2 * n] == html[9..9 + n] && html[11 + 2 * n..] == AnchorClose
    ensures html == MakeClickable(html[9..9 + n])
  {
    var url := html[9..9 + n];
    var tail := html[11 + n..];
    assert tail == url + AnchorClose by {
      assert tail[..n] == html[11 + n..11 + 2 * n];
      assert tail[n..] == html[11 + 2 * n..];
    }
    assert html == html[..9] + url + html[9 + n..11 + n] + tail;
  }

  /** Every string that reads back as a url is exactly that url's link. */
  lemma ClickableOfHref(html: string, url: string)
    requires HrefOf(html) == Some(url)
    ensures html == MakeClickable(url)
  {
    Reassemble(html, (|html| - 15) / 2);
  }

  /** Distinct urls give distinct links. */
  lemma MakeClickableInjective(u: string, v: string)
    ensures MakeClickable(u) == MakeClickable(v) <==> u == v
  {
    if MakeClickable(u) == MakeClickable(v) {
      HrefOfClickable(u);
      HrefOfClickable(v);
    }
  }
}
