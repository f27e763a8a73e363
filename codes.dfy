/**
 * Dataset codes of the short-interest provider and the ticker tag that
 * `multiple_timeseries` derives from a code.
 */
module Codes {

  /** The fixed database part of every short-interest dataset code. */
  const DatabaseCode: string := "FINRA"

  /** The fixed prefix that precedes the symbol in a dataset name. */
  const DatasetPrefix: string := "FNYX_"

  /** Python's `str.find` for a single character: the first index of `c`, or -1. */
  function Find(s: string, c: char): (r: int)
    ensures -1 <= r < |s|
    ensures r == -1 <==> c !in s
    ensures r >= 0 ==> s[r] == c && c !in s[..r]
  {
    if s == [] then -1
    else if s[0] == c then 0
    else
      var k := Find(s[1..], c);
      assert s[1..][..if k < 0 then 0 else k] == s[1..1 + if k < 0 then 0 else k];
      if k == -1 then -1 else k + 1
  }

  /** The first occurrence is the only index before which `c` does not occur. */
  lemma {:induction false} FindFirst(s: string, c: char, k: nat)
    requires k < |s| && s[k] == c && c !in s[..k]
    ensures Find(s, c) == k
  {
    if k > 0 {
      assert s[0] == s[..k][0];
      assert s[1..][..k - 1] == s[..k][1..];
      FindFirst(s[1..], c, k - 1);
    }
  }

  /**
   * `code[code.find('/') + 1:]`: everything after the first '/', or the
   * whole code when it has no '/' (find gives -1, the slice starts at 0).
   */
  function TickerTag(code: string): (tag: string)
    ensures '/' !in code ==> tag == code
    ensures '/' in code ==>
      && |tag| < |code|
      && code == code[..|code| - |tag| - 1] + "/" + tag
      && '/' !in code[..|code| - |tag| - 1]
    ensures |tag| == |code| - (Find(code, '/') + 1)
  {
    var i := Find(code, '/');
    assert '/' in code ==> code == code[..i] + "/" + code[i + 1..];
    code[i + 1..]
  }

  /** A code written as head + "/" + tag, with no '/' in head, has that tag. */
  lemma TagAfterFirstSlash(head: string, tag: string)
    requires '/' !in head
    ensures TickerTag(head + "/" + tag) == tag
  {
    var code := head + "/" + tag;
    assert code[..|head|] == head;
    FindFirst(code, '/', |head|);
    assert code[|head| + 1..] == tag;
  }

  /** The dataset code the session builds from a symbol at construction. */
  function DatasetCode(symbol: string): string
  {
    DatabaseCode + "/" + (DatasetPrefix + symbol)
  }

  /** The ticker tag of a session's own dataset code is its dataset name. */
  lemma DatasetCodeTag(symbol: string)
    ensures TickerTag(DatasetCode(symbol)) == DatasetPrefix + symbol
  {
    TagAfterFirstSlash(DatabaseCode, DatasetPrefix + symbol);
  }

  /** Different symbols give different dataset codes. */
  lemma DatasetCodeInjective(a: string, b: string)
    ensures DatasetCode(a) == DatasetCode(b) <==> a == b
  {
    if DatasetCode(a) == DatasetCode(b) {
      assert a == DatasetCode(a)[11..];
      assert b == DatasetCode(b)[11..];
    }
  }
}
