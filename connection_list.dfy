/**
 * Preparation of the list of connection URLs scraped from the connections page:
 * keep the links whose address contains "/in/", drop repeated addresses keeping
 * each first occurrence in place, and keep at most the first 50.
 */
module ConnectionList {
  import opened Strings

  /** At most this many connections are considered in one run. */
  const UrlsPerRun: nat := 50

  /** A member profile address contains the path segment "/in/". */
  predicate IsProfileUrl(url: string) {
    Contains(url, "/in/")
  }

  predicate NoDuplicates<T(==)>(s: seq<T>) {
    forall a, b | 0 <= a < b < |s| :: s[a] != s[b]
  }

  /** The position of the first occurrence of `x` in `s` (JavaScript's `indexOf`). */
  function IndexOf<T(==)>(s: seq<T>, x: T): (i: nat)
    requires x in s
    ensures i < |s| && s[i] == x && x !in s[..i]
  {
    if s[0] == x then 0
    else
      var j := IndexOf(s[1..], x);
      assert s[..j + 1] == [s[0]] + s[1..][..j];
      1 + j
  }

  /** Whatever occurs in a prefix has its first occurrence inside that prefix. */
  lemma IndexOfInPrefix(s: seq<string>, n: nat, x: string)
    requires n <= |s| && x in s[..n]
    ensures x in s && IndexOf(s, x) < n
  {
  }

  /** The links that look like member profiles, in their original order (the `filter` on "/in/"). */
  function KeepProfileUrls(links: seq<string>): (r: seq<string>)
    ensures forall u :: u in r <==> u in links && IsProfileUrl(u)
  {
    if links == [] then []
    else (if IsProfileUrl(links[0]) then [links[0]] else []) + KeepProfileUrls(links[1..])
  }

  /**
   * The elements of `s` at positions below `n` whose position is the first
   * occurrence of their value, in order: the `filter` that keeps `url` at
   * `index` when `self.indexOf(url) === index`.
   */
  function KeepFirstOccurrences(s: seq<string>, n: nat): (r: seq<string>)
    requires n <= |s|
    ensures forall x :: x in r <==> x in s[..n]
    ensures NoDuplicates(r)
    ensures forall a, b | 0 <= a < b < |r| :: r[a] in s && r[b] in s && IndexOf(s, r[a]) < IndexOf(s, r[b])
  {
    if n == 0 then []
    else
      var prev := KeepFirstOccurrences(s, n - 1);
      assert s[..n] == s[..n - 1] + [s[n - 1]];
      if IndexOf(s, s[n - 1]) == n - 1 then
        assert forall a | 0 <= a < |prev| :: prev[a] in s[..n - 1] && IndexOf(s, prev[a]) < n - 1 by {
          forall a | 0 <= a < |prev| ensures prev[a] in s[..n - 1] && IndexOf(s, prev[a]) < n - 1 {
            IndexOfInPrefix(s, n - 1, prev[a]);
          }
        }
        prev + [s[n - 1]]
      else
        assert s[n - 1] in s[..n - 1] by {
          var i := IndexOf(s, s[n - 1]);
          assert s[..n - 1][i] == s[n - 1];
        }
        prev
  }

  /** The connection URLs one run works through. */
  function PrepareUrls(links: seq<string>): (r: seq<string>)
    ensures |r| <= UrlsPerRun
    ensures forall u | u in r :: u in links && IsProfileUrl(u)
    ensures NoDuplicates(r)
  {
    var profiles := KeepProfileUrls(links);
    var distinct := KeepFirstOccurrences(profiles, |profiles|);
    assert profiles[..|profiles|] == profiles;
    if |distinct| <= UrlsPerRun then distinct else distinct[..UrlsPerRun]
  }

  /** Filtering keeps the relative order of first occurrences. */
  lemma {:induction false} FilterKeepsOrder(links: seq<string>, x: string, y: string)
    requires x in KeepProfileUrls(links) && y in KeepProfileUrls(links)
    requires IndexOf(KeepProfileUrls(links), x) < IndexOf(KeepProfileUrls(links), y)
    ensures x in links && y in links && IndexOf(links, x) < IndexOf(links, y)
    decreases |links|
  {
    var f := KeepProfileUrls(links);
    var head: seq<string> := if IsProfileUrl(links[0]) then [links[0]] else [];
    var tail := KeepProfileUrls(links[1..]);
    assert f == head + tail;
    if links[0] == x {
      assert IsProfileUrl(x);
      assert f[0] == x;
    } else if links[0] == y {
      // y would then come first among the filtered links, before x
      assert false;
    } else {
      assert x in tail && y in tail;
      if head == [] {
        assert f == tail;
      } else {
        assert f[0] == links[0] && f[1..] == tail;
        assert IndexOf(f, x) == 1 + IndexOf(tail, x);
        assert IndexOf(f, y) == 1 + IndexOf(tail, y);
      }
      FilterKeepsOrder(links[1..], x, y);
    }
  }

  /**
   * The prepared list follows the order in which the addresses first appear on
   * the page, and it is the longest such list within the cap: a profile address
   * left out means the list is full and everything kept appeared before it.
   */
  lemma PrepareUrlsOrder(links: seq<string>)
    ensures var r := PrepareUrls(links);
      && (forall a, b | 0 <= a < b < |r| :: r[a] in links && r[b] in links && IndexOf(links, r[a]) < IndexOf(links, r[b]))
      && (forall u | u in links && IsProfileUrl(u) && u !in r ::
            |r| == UrlsPerRun && forall v | v in r :: v in links && IndexOf(links, v) < IndexOf(links, u))
  {
    var r := PrepareUrls(links);
    var profiles := KeepProfileUrls(links);
    var distinct := KeepFirstOccurrences(profiles, |profiles|);
    assert profiles[..|profiles|] == profiles;
    assert r == if |distinct| <= UrlsPerRun then distinct else distinct[..UrlsPerRun];
    forall a, b | 0 <= a < b < |r|
      ensures r[a] in links && r[b] in links && IndexOf(links, r[a]) < IndexOf(links, r[b])
    {
      assert r[a] == distinct[a] && r[b] == distinct[b];
      FilterKeepsOrder(links, r[a], r[b]);
    }
    forall u | u in links && IsProfileUrl(u) && u !in r
      ensures |r| == UrlsPerRun && forall v | v in r :: v in links && IndexOf(links, v) < IndexOf(links, u)
    {
      assert u in distinct;
      var p :| 0 <= p < |distinct| && distinct[p] == u;
      assert p >= UrlsPerRun && |r| == UrlsPerRun;
      forall v | v in r ensures v in links && IndexOf(links, v) < IndexOf(links, u) {
        var q :| 0 <= q < |r| && r[q] == v;
        assert distinct[q] == v;
        FilterKeepsOrder(links, v, u);
      }
    }
  }
}
