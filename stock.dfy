/**
 * The `stock` list that both drafts keep: fetch results that arrived before
 * the printer asked for their URL. A result is found by scanning for the first
 * entry whose URL equals the expected one, and it is taken out by splicing it
 * from the list (`append(stock[:i], stock[i+1:]...)`).
 */
module Stock {
  import opened Wrappers

  /** The Go `responseSet`: a response (absent when the fetch failed) and its URL. */
  datatype ResponseSet = ResponseSet(res: Option<int>, url: string)

  /** The URLs of a list of results, position by position. */
  function Urls(s: seq<ResponseSet>): (u: seq<string>)
    ensures |u| == |s|
    ensures forall i :: 0 <= i < |s| ==> u[i] == s[i].url
  {
    seq(|s|, i requires 0 <= i < |s| => s[i].url)
  }

  lemma UrlsAppend(a: seq<ResponseSet>, b: seq<ResponseSet>)
    ensures Urls(a + b) == Urls(a) + Urls(b)
  {
  }

  /**
   * The list without its entry at `i`: one entry fewer, those before `i` in
   * place, those after it shifted down by one, and nothing else lost.
   */
  function RemoveAt<T>(s: seq<T>, i: nat): (r: seq<T>)
    requires i < |s|
    ensures |r| == |s| - 1
    ensures forall j :: 0 <= j < i ==> r[j] == s[j]
    ensures forall j :: i <= j < |r| ==> r[j] == s[j + 1]
  {
    s[..i] + s[i + 1..]
  }

  /** Removing the entry at `i` takes exactly one copy of it out of the list. */
  lemma RemoveAtMultiset<T>(s: seq<T>, i: nat)
    requires i < |s|
    ensures multiset(RemoveAt(s, i)) + multiset{s[i]} == multiset(s)
  {
    assert s == s[..i] + [s[i]] + s[i + 1..];
  }

  /** Removing an entry removes exactly its URL from the list of URLs. */
  lemma UrlsRemoveAt(s: seq<ResponseSet>, i: nat)
    requires i < |s|
    ensures Urls(RemoveAt(s, i)) == RemoveAt(Urls(s), i)
    ensures multiset(Urls(RemoveAt(s, i))) + multiset{s[i].url} == multiset(Urls(s))
  {
    var l, r := Urls(RemoveAt(s, i)), RemoveAt(Urls(s), i);
    assert |l| == |r|;
    forall j | 0 <= j < |l|
      ensures l[j] == r[j]
    {
    }
    RemoveAtMultiset(Urls(s), i);
  }

  /**
   * The position of the first entry for `url`, or `|s|` when there is none:
   * the entry the printer's scan stops at.
   */
  function FirstMatch(s: seq<ResponseSet>, url: string): (r: nat)
    ensures r <= |s|
    ensures r < |s| ==> s[r].url == url
    ensures forall j :: 0 <= j < r ==> s[j].url != url
  {
    if s == [] then 0 else if s[0].url == url then 0 else 1 + FirstMatch(s[1..], url)
  }

  /** Some entry holds `url` exactly when the scan finds one. */
  lemma FirstMatchFinds(s: seq<ResponseSet>, url: string)
    ensures FirstMatch(s, url) < |s| <==> url in Urls(s)
  {
  }

  /**
   * The stock scan `for i, set := range stock { if set.urlStr == urlStr ... }`
   * stopping at the first match; `|stock|` when nothing matches.
   */
  method FindEntry(stock: seq<ResponseSet>, url: string) returns (i: nat)
    ensures i == FirstMatch(stock, url)
  {
    i := 0;
    while i < |stock| && stock[i].url != url
      invariant i <= |stock|
      invariant forall j :: 0 <= j < i ==> stock[j].url != url
    {
      i := i + 1;
    }
  }

  /**
   * What is printed, followed by the URLs still to print in the order they
   * will be printed, is what was read: output follows reading order.
   */
  ghost predicate InOrder(printed: seq<ResponseSet>, pending: seq<string>, submitted: seq<string>) {
    Urls(printed) + pending == submitted
  }

  lemma InOrderSubmit(printed: seq<ResponseSet>, pending: seq<string>, submitted: seq<string>, url: string)
    requires InOrder(printed, pending, submitted)
    ensures InOrder(printed, pending + [url], submitted + [url])
  {
  }

  /** Printing an entry for the next URL to print keeps reading order. */
  lemma InOrderEmit(printed: seq<ResponseSet>, pending: seq<string>, submitted: seq<string>, e: ResponseSet)
    requires InOrder(printed, pending, submitted)
    requires pending != [] && e.url == pending[0]
    ensures InOrder(printed + [e], pending[1..], submitted)
  {
  }

  /** Multiset union cancels on the right. */
  lemma MultisetCancel<T>(a: multiset<T>, b: multiset<T>, c: multiset<T>)
    requires a + c == b + c
    ensures a == b
  {
    forall x
      ensures a[x] == b[x]
    {
      assert (a + c)[x] == (b + c)[x];
    }
  }
}
