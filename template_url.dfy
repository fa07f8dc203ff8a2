/** The `url(s)` helper that both configurations (server.js and
    webpack.config.js) put into the template data: a link below the
    prefix "/", with a cache-busting `ts=<milliseconds>` query parameter
    on everything that is not a page. The development server stamps each
    call with the clock at that call; the production build stamps every
    link with the one time taken when the configuration is loaded. */
module TemplateUrl {
  import opened Wrappers
  import opened Text
  import opened Paths

  /** `data.prefix` in both configurations. */
  const Prefix := "/"

  /** Links to a page or to a directory are left unstamped. The test is on
      the argument, not on the joined path. */
  predicate IsPageLink(s: string) {
    EndsWith(s, ".html") || EndsWith(s, "/")
  }

  /** `?` opens the query, `&` extends one that is already there. */
  function Separator(url: string): string {
    if '?' !in url then "?" else "&"
  }

  /** `url(s)` with `stamp` as the time it appends. */
  function StampedUrl(prefix: string, s: string, stamp: nat): string {
    var url := Join([prefix, s]);
    if IsPageLink(s) then url else url + Separator(url) + "ts=" + Decimal(stamp)
  }

  /** The length of the longest suffix of `r` made of digits. */
  function DigitRun(r: string): (k: nat)
    ensures k <= |r| && AllDigits(r[|r| - k..])
    ensures k < |r| ==> !IsDigit(r[|r| - k - 1])
  {
    if r != [] && IsDigit(r[|r| - 1]) then
      var k := DigitRun(r[..|r| - 1]) + 1;
      assert r[|r| - k..] == r[..|r| - 1][|r| - k..] + [r[|r| - 1]];
      k
    else 0
  }

  /** Reading a link back: the number after a final `ts=`, if there is
      one. */
  function Stamp(r: string): Option<nat> {
    var k := DigitRun(r);
    if k >= 1 && k + 3 <= |r| && r[|r| - k - 3..|r| - k] == "ts=" then Some(ParseDecimal(r[|r| - k..]))
    else None
  }

  lemma {:induction false} DigitRunAppend(a: string, d: string)
    requires AllDigits(d)
    requires a == [] || !IsDigit(a[|a| - 1])
    ensures DigitRun(a + d) == |d|
    decreases |d|
  {
    if d == [] {
      assert a + d == a;
    } else {
      var init := d[..|d| - 1];
      assert (a + d)[..|a + d| - 1] == a + init;
      DigitRunAppend(a, init);
    }
  }

  /** A stamped link is the joined path, then `?` exactly when that path
      has no query yet and `&` otherwise, then `ts=` and the stamp, which
      reads back from the link. */
  lemma StampedUrlForm(prefix: string, s: string, stamp: nat)
    requires !IsPageLink(s)
    ensures var url := Join([prefix, s]);
            var r := StampedUrl(prefix, s, stamp);
            && |r| > |url| + 4 && r[..|url|] == url
            && (r[|url|] == '?' <==> '?' !in url)
            && (r[|url|] == '?' || r[|url|] == '&')
            && r[|url| + 1..|url| + 4] == "ts="
            && AllDigits(r[|url| + 4..]) && ParseDecimal(r[|url| + 4..]) == stamp
            && Stamp(r) == Some(stamp)
  {
    var url := Join([prefix, s]);
    var r := StampedUrl(prefix, s, stamp);
    var head := url + Separator(url) + "ts=";
    assert r == head + Decimal(stamp);
    assert r[|url| + 4..] == Decimal(stamp);
    DigitRunAppend(head, Decimal(stamp));
    assert r[|r| - |Decimal(stamp)|..] == Decimal(stamp);
    ParseDecimalRoundTrip(stamp);
  }

  /** When the joined path has no query, the link's only `?` is the one
      that opens the stamp's query. */
  lemma SingleQuery(prefix: string, s: string, stamp: nat)
    requires !IsPageLink(s) && '?' !in Join([prefix, s])
    ensures var url := Join([prefix, s]);
            var r := StampedUrl(prefix, s, stamp);
            && r[|url|] == '?'
            && forall i :: 0 <= i < |r| && i != |url| ==> r[i] != '?'
  {
    var url := Join([prefix, s]);
    var r := StampedUrl(prefix, s, stamp);
    var d := Decimal(stamp);
    assert r == url + "?ts=" + d;
    forall i | 0 <= i < |r| && i != |url|
      ensures r[i] != '?'
    {
      if i < |url| {
        assert r[i] == url[i];
      } else if i > |url| + 3 {
        assert r[i] == d[i - |url| - 4];
      }
    }
  }

  /** A link to a page or a directory is the joined path itself, with no
      query and no `ts` parameter. */
  lemma PageLinkUnstamped(prefix: string, s: string, stamp: nat)
    requires IsPageLink(s)
    ensures StampedUrl(prefix, s, stamp) == Join([prefix, s])
    ensures Stamp(StampedUrl(prefix, s, stamp)) == Stamp(Join([prefix, s]))
  {
  }

  /** Two calls give the same link exactly when the link is a page or the
      stamps agree; a page link is the joined path unstamped. */
  lemma StampedUrlEqual(prefix: string, s: string, a: nat, b: nat)
    ensures StampedUrl(prefix, s, a) == StampedUrl(prefix, s, b) <==> IsPageLink(s) || a == b
    ensures IsPageLink(s) ==> StampedUrl(prefix, s, a) == Join([prefix, s])
  {
    if !IsPageLink(s) {
      StampedUrlForm(prefix, s, a);
      StampedUrlForm(prefix, s, b);
    }
  }

  /** server.js: `url(s)` reads the clock (`now`) at every call. */
  function ServerUrl(s: string, now: nat): string {
    StampedUrl(Prefix, s, now)
  }

  /** In the development server, a non-page link rendered at a different
      millisecond is a different link, so the browser fetches it anew. */
  lemma ServerUrlsDiffer(s: string, now1: nat, now2: nat)
    requires !IsPageLink(s) && now1 != now2
    ensures ServerUrl(s, now1) != ServerUrl(s, now2)
    ensures Stamp(ServerUrl(s, now1)) == Some(now1)
  {
    StampedUrlEqual(Prefix, s, now1, now2);
    StampedUrlForm(Prefix, s, now1);
  }

  /** webpack.config.js: the template data, with `ts` taken once when the
      configuration is loaded. */
  datatype ConfigData = ConfigData(ts: nat) {
    function Url(s: string): string {
      StampedUrl(Prefix, s, ts)
    }
  }

  /** In a production build every stamped link carries the same stamp, the
      load time. */
  lemma ConfigUrlsShareStamp(d: ConfigData, s1: string, s2: string)
    requires !IsPageLink(s1) && !IsPageLink(s2)
    ensures Stamp(d.Url(s1)) == Stamp(d.Url(s2)) == Some(d.ts)
  {
    StampedUrlForm(Prefix, s1, d.ts);
    StampedUrlForm(Prefix, s2, d.ts);
  }
}
