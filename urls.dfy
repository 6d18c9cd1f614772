/**
 * The two URL builders of the resolver, `zone_url` and `account_url`, and the
 * fixed dashboard origin they are rooted at. Beside each builder sits its
 * inverse: a parser that recovers the argument from the built URL, so that the
 * builders are shown to lose no information.
 */
module Urls {

  import opened Wrappers

  /** The dashboard origin every resolved URL starts with. */
  const DashBase: string := "https://dash.cloudflare.com"

  /** The redirect-query root used by every zone- and account-scoped URL. */
  const AccountRoot: string := DashBase + "/?to=/:account"

  predicate EndsWith(s: string, suffix: string) {
    |suffix| <= |s| && s[|s| - |suffix|..] == suffix
  }

  /**
   * `zone_url`: the page `path` of `zone`; an empty path is the zone overview.
   * Its layout is stated by `ZoneUrlShape`.
   */
  function ZoneUrl(zone: string, path: string): (r: string)
    ensures DashBase <= r && AccountRoot <= r
  {
    if path == "" then AccountRoot + "/" + zone
    else AccountRoot + "/" + zone + "/" + path
  }

  /**
   * The layout of a zone URL: the account root, a slash, the zone verbatim
   * and, when the page is non-empty, a slash and the page verbatim; nothing
   * else.
   */
  lemma ZoneUrlShape(zone: string, path: string)
    ensures AccountRoot + "/" + zone <= ZoneUrl(zone, path)
    ensures path == "" ==> |ZoneUrl(zone, path)| == |AccountRoot| + 1 + |zone|
    ensures path != "" ==> AccountRoot + "/" + zone + "/" <= ZoneUrl(zone, path)
    ensures path != "" ==> EndsWith(ZoneUrl(zone, path), "/" + path)
    ensures path != "" ==> |ZoneUrl(zone, path)| == |AccountRoot| + |zone| + |path| + 2
  {
    var url, head := ZoneUrl(zone, path), AccountRoot + "/" + zone;
    if path == "" {
      assert url == head;
    } else {
      var tail := "/" + path;
      assert url == head + tail;
      assert url[..|head|] == head;
      assert url[..|head| + 1] == head + "/";
      assert url[|url| - |tail|..] == tail;
    }
  }

  /**
   * `account_url`: the account page `path`; an empty path is the account root
   * itself, with no trailing slash. Its layout is stated by `AccountUrlShape`.
   */
  function AccountUrl(path: string): (r: string)
    ensures DashBase <= r && AccountRoot <= r
  {
    if path == "" then AccountRoot
    else AccountRoot + "/" + path
  }

  /**
   * The layout of an account URL: the bare root exactly when the path is
   * empty, otherwise the root, a slash and the path verbatim; nothing else.
   */
  lemma AccountUrlShape(path: string)
    ensures AccountUrl(path) == AccountRoot <==> path == ""
    ensures path != "" ==> AccountRoot + "/" <= AccountUrl(path)
    ensures path != "" ==> EndsWith(AccountUrl(path), path)
    ensures path != "" ==> |AccountUrl(path)| == |AccountRoot| + 1 + |path|
  {
  }

  /**
   * Inverse of `ZoneUrl` for a known page: the zone segment of `url`, or None
   * when `url` is not a URL of page `path` of some zone.
   */
  function ZoneFromUrl(url: string, path: string): (r: Option<string>)
  {
    var head := AccountRoot + "/";
    var tail := if path == "" then "" else "/" + path;
    if |head| + |tail| <= |url| && url[..|head|] == head && url[|url| - |tail|..] == tail
    then Some(url[|head|..|url| - |tail|])
    else None
  }

  /**
   * Inverse of `AccountUrl`: the account path of `url`, or None when `url` is
   * not an account URL. The account root with a bare trailing slash is not in
   * the image of `AccountUrl` and parses to None.
   */
  function AccountPathOf(url: string): (r: Option<string>)
  {
    var head := AccountRoot + "/";
    if url == AccountRoot then Some("")
    else if |head| < |url| && url[..|head|] == head then Some(url[|head|..])
    else None
  }

  lemma ZoneUrlRoundTrip(zone: string, path: string)
    ensures ZoneFromUrl(ZoneUrl(zone, path), path) == Some(zone)
  {
    var url, head := ZoneUrl(zone, path), AccountRoot + "/";
    if path == "" {
      assert url == head + zone;
      assert url[|head|..|url|] == zone;
    } else {
      var tail := "/" + path;
      assert url == head + zone + tail;
      assert url[|url| - |tail|..] == tail;
      assert url[|head|..|url| - |tail|] == zone;
    }
  }

  lemma ZoneFromUrlSound(url: string, path: string, zone: string)
    requires ZoneFromUrl(url, path) == Some(zone)
    ensures ZoneUrl(zone, path) == url
  {
    var head := AccountRoot + "/";
    var tail := if path == "" then "" else "/" + path;
    var i, j := |head|, |url| - |tail|;
    assert i <= j && url[..i] == head && url[j..] == tail && url[i..j] == zone;
    SplitThree(url, i, j);
    if path == "" {
      assert tail == [];
      assert url == head + zone;
    }
  }

  /** A string is its three consecutive slices put back together. */
  lemma SplitThree(s: string, i: nat, j: nat)
    requires i <= j <= |s|
    ensures s == s[..i] + s[i..j] + s[j..]
  {
  }

  /** A string is a prefix of itself with anything appended. */
  lemma PrefixOfConcat(a: string, b: string)
    ensures a <= a + b
  {
    assert (a + b)[..|a|] == a;
  }

  /** A zone page URL ends with the zone, a slash and the page. */
  lemma ZoneUrlEnds(zone: string, path: string)
    requires path != ""
    ensures EndsWith(ZoneUrl(zone, path), "/" + zone + "/" + path)
  {
    var url, tail := ZoneUrl(zone, path), "/" + zone + "/" + path;
    assert url == AccountRoot + tail;
    assert url[|url| - |tail|..] == tail;
  }

  /** A zone URL of a given page determines its zone. */
  lemma ZoneUrlInjective(z1: string, z2: string, path: string)
    ensures ZoneUrl(z1, path) == ZoneUrl(z2, path) ==> z1 == z2
  {
    ZoneUrlRoundTrip(z1, path);
    ZoneUrlRoundTrip(z2, path);
  }

  lemma AccountUrlRoundTrip(path: string)
    ensures AccountPathOf(AccountUrl(path)) == Some(path)
  {
    var url, head := AccountUrl(path), AccountRoot + "/";
    if path != "" {
      assert url == head + path;
      assert url != AccountRoot;
      assert url[|head|..] == path;
    }
  }

  lemma AccountPathOfSound(url: string, path: string)
    requires AccountPathOf(url) == Some(path)
    ensures AccountUrl(path) == url
  {
    var head := AccountRoot + "/";
    if url != AccountRoot {
      assert url == url[..|head|] + url[|head|..];
      assert path != "";
    }
  }

  /** Distinct account paths give distinct URLs. */
  lemma AccountUrlInjective(p1: string, p2: string)
    ensures AccountUrl(p1) == AccountUrl(p2) ==> p1 == p2
  {
    AccountUrlRoundTrip(p1);
    AccountUrlRoundTrip(p2);
  }

  /**
   * The zone overview is the account URL whose path is the zone: the redirect
   * query does not mark which segment is the zone.
   */
  lemma ZoneOverviewUrl(zone: string)
    requires zone != ""
    ensures ZoneUrl(zone, "") == AccountUrl(zone)
  {
  }

  /** A zone page is the account URL whose path is the zone, a slash and the page. */
  lemma ZonePageUrl(zone: string, path: string)
    requires path != ""
    ensures ZoneUrl(zone, path) == AccountUrl(zone + "/" + path)
  {
    assert AccountRoot + "/" + zone + "/" + path == AccountRoot + "/" + (zone + "/" + path);
  }

  /** Appending to a non-empty account path appends to its URL. */
  lemma AccountUrlAppend(path: string, more: string)
    requires path != ""
    ensures AccountUrl(path + more) == AccountUrl(path) + more
  {
    assert AccountRoot + "/" + (path + more) == AccountRoot + "/" + path + more;
  }

  /**
   * An account page extended by a slash and more lies under that page, and
   * is a different page.
   */
  lemma AccountUrlUnder(path: string, rest: string)
    ensures AccountUrl(path) + "/" <= AccountUrl(path + "/" + rest)
    ensures AccountUrl(path) != AccountUrl(path + "/" + rest)
  {
    var url, under := AccountUrl(path + "/" + rest), AccountUrl(path) + "/";
    if path == "" {
      assert path + "/" + rest == "/" + rest;
      assert url == (AccountRoot + "/") + ("/" + rest);
      assert under == AccountRoot + "/";
      PrefixOfConcat(under, "/" + rest);
    } else {
      assert path + "/" + rest == path + ("/" + rest);
      AccountUrlAppend(path, "/" + rest);
      assert url == under + rest;
      PrefixOfConcat(under, rest);
    }
  }

  /**
   * A resource name appended to a path that ends in a slash is the last
   * segment of the account URL, verbatim, and the URL determines it.
   */
  lemma AccountUrlLastSegment(prefix: string, name: string)
    requires prefix != "" && prefix[|prefix| - 1] == '/'
    ensures EndsWith(AccountUrl(prefix + name), "/" + name)
    ensures forall other: string ::
      AccountUrl(prefix + other) == AccountUrl(prefix + name) ==> other == name
  {
    var url, tail := AccountUrl(prefix + name), "/" + name;
    var lead := AccountRoot + "/" + prefix[..|prefix| - 1];
    assert prefix == prefix[..|prefix| - 1] + "/";
    assert url == lead + tail;
    assert url[|url| - |tail|..] == tail;
    forall other: string | AccountUrl(prefix + other) == AccountUrl(prefix + name)
      ensures other == name
    {
      AccountUrlInjective(prefix + other, prefix + name);
      assert other == (prefix + other)[|prefix|..];
      assert name == (prefix + name)[|prefix|..];
    }
  }

}
