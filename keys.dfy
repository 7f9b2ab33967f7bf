/**
 * Cache keys and upstream URLs of the transaction service accessor
 * (the template strings of `getBalances` and `getBackbone`), and the parsers
 * that take them apart again, which show that no information is lost.
 */
module Keys {
  import opened Wrappers
  import opened Delimited

  /** How a template literal renders an optional boolean: `${undefined}` is "undefined". */
  function ShowFlag(b: Option<bool>): (s: string)
    ensures ParseFlag(s) == Some(b)
    ensures '-' !in s
  {
    match b
    case None => "undefined"
    case Some(true) => "true"
    case Some(false) => "false"
  }

  /** The flag a rendered segment stands for; None for any other segment. */
  function ParseFlag(s: string): Option<Option<bool>>
  {
    if s == "undefined" then Some(None)
    else if s == "true" then Some(Some(true))
    else if s == "false" then Some(Some(false))
    else None
  }

  /** The arguments a balances cache key is built from. */
  datatype BalancesKey = BalancesKey(chainId: string, safeAddress: string, trusted: Option<bool>, excludeSpam: Option<bool>)

  /**
   * The balances cache key. Its '-'-segments are the tag, the chain id's
   * segments, the Safe address's segments and the two rendered flags.
   */
  function BalancesCacheKey(chainId: string, safeAddress: string, trusted: Option<bool>, excludeSpam: Option<bool>): (k: string)
    ensures Split(k, '-') == ["balances"] + Split(chainId, '-') + Split(safeAddress, '-')
                             + [ShowFlag(trusted), ShowFlag(excludeSpam)]
  {
    var t := ShowFlag(trusted);
    var e := ShowFlag(excludeSpam);
    BalancesKeySegments(chainId, safeAddress, t, e);
    "balances-" + chainId + "-" + safeAddress + "-" + t + "-" + e
  }

  /** The balances URL; it names the Safe address, which can be read back from it, and no filter. */
  function BalancesUrl(baseUrl: string, safeAddress: string): (url: string)
    ensures SafeAddressOfBalancesUrl(baseUrl, url) == Some(safeAddress)
  {
    baseUrl + "/api/v1/safes/" + safeAddress + "/balances/usd/"
  }

  /** The backbone cache key: the tag, then the chain id's segments. */
  function BackboneCacheKey(chainId: string): (k: string)
    ensures Split(k, '-') == ["backbone"] + Split(chainId, '-')
  {
    assert "backbone-" + chainId == "backbone" + "-" + chainId;
    SplitAfter("backbone", chainId);
    "backbone-" + chainId
  }

  /** The backbone URL, which is none of the balances URLs under the same base URL. */
  function BackboneUrl(baseUrl: string): (url: string)
    ensures forall safeAddress :: url != BalancesUrl(baseUrl, safeAddress)
  {
    var url := baseUrl + "/api/v1/about";
    assert forall safeAddress :: BalancesUrl(baseUrl, safeAddress)[|baseUrl| + 8] != url[|baseUrl| + 8];
    url
  }

  /**
   * Reads a balances cache key back: the chain id is the second segment, the
   * two flags are the last two, and the Safe address is everything between.
   */
  function ParseBalancesCacheKey(k: string): Option<BalancesKey>
  {
    var parts := Split(k, '-');
    var n := |parts|;
    if n >= 5 && parts[0] == "balances" then
      match (ParseFlag(parts[n - 2]), ParseFlag(parts[n - 1]))
      case (Some(t), Some(e)) => Some(BalancesKey(parts[1], Join(parts[2..n - 2], '-'), t, e))
      case _ => None
    else None
  }

  /** Reads a backbone cache key back: everything after the first segment. */
  function ParseBackboneCacheKey(k: string): Option<string>
  {
    var parts := Split(k, '-');
    if |parts| >= 2 && parts[0] == "backbone" then Some(Join(parts[1..], '-')) else None
  }

  /** The Safe address a balances URL of `baseUrl` names. */
  function SafeAddressOfBalancesUrl(baseUrl: string, url: string): Option<string>
  {
    var prefix := baseUrl + "/api/v1/safes/";
    var suffix := "/balances/usd/";
    if |url| >= |prefix| + |suffix| && url[..|prefix|] == prefix && url[|url| - |suffix|..] == suffix
    then Some(url[|prefix|..|url| - |suffix|])
    else None
  }

  /** Splitting a string that starts with a dash-free segment `x` yields `x`, then the rest's segments. */
  lemma SplitAfter(x: string, y: string)
    requires '-' !in x
    ensures Split(x + "-" + y, '-') == [x] + Split(y, '-')
  {
    assert x + "-" + y == x + ['-'] + y;
    SplitAround(x, y, '-');
    SplitWithout(x, '-');
  }

  /** The segments of a string laid out as a balances key, for dash-free flag renderings. */
  lemma BalancesKeySegments(c: string, a: string, t: string, e: string)
    requires '-' !in t && '-' !in e
    ensures Split("balances-" + c + "-" + a + "-" + t + "-" + e, '-')
         == ["balances"] + Split(c, '-') + Split(a, '-') + [t, e]
  {
    var flags := t + "-" + e;
    var afterChain := a + "-" + flags;
    var afterHead := c + "-" + afterChain;
    assert "balances-" + c + "-" + a + "-" + t + "-" + e == "balances" + "-" + afterHead;
    SplitAfter(t, e);
    SplitWithout(e, '-');
    assert Split(flags, '-') == [t, e];
    assert afterChain == a + ['-'] + flags;
    SplitAround(a, flags, '-');
    assert afterHead == c + ['-'] + afterChain;
    SplitAround(c, afterChain, '-');
    SplitAfter("balances", afterHead);
  }

  /**
   * A balances key built from a dash-free chain id determines all four of its
   * arguments. The Safe address may contain dashes.
   */
  lemma BalancesCacheKeyRoundTrip(chainId: string, safeAddress: string, trusted: Option<bool>, excludeSpam: Option<bool>)
    requires '-' !in chainId
    ensures ParseBalancesCacheKey(BalancesCacheKey(chainId, safeAddress, trusted, excludeSpam))
         == Some(BalancesKey(chainId, safeAddress, trusted, excludeSpam))
  {
    var parts := Split(BalancesCacheKey(chainId, safeAddress, trusted, excludeSpam), '-');
    SplitWithout(chainId, '-');
    var n := |parts|;
    assert parts[2..n - 2] == Split(safeAddress, '-');
    JoinSplit(safeAddress, '-');
  }

  /**
   * Equal balances keys come exactly from equal arguments, as long as the
   * chain ids contain no '-'; an absent flag and `false` give different keys.
   */
  lemma BalancesCacheKeyInjective(c1: string, a1: string, t1: Option<bool>, e1: Option<bool>,
                                  c2: string, a2: string, t2: Option<bool>, e2: Option<bool>)
    requires '-' !in c1 && '-' !in c2
    ensures BalancesCacheKey(c1, a1, t1, e1) == BalancesCacheKey(c2, a2, t2, e2)
        <==> c1 == c2 && a1 == a2 && t1 == t2 && e1 == e2
  {
    BalancesCacheKeyRoundTrip(c1, a1, t1, e1);
    BalancesCacheKeyRoundTrip(c2, a2, t2, e2);
  }

  /** Without the dash-free chain id, two different requests can share a key. */
  lemma BalancesCacheKeyCollision()
    ensures BalancesCacheKey("1-0xA", "0xB", None, None) == BalancesCacheKey("1", "0xA-0xB", None, None)
  {
  }

  /** The backbone key determines the chain id, whatever the chain id is. */
  lemma BackboneCacheKeyRoundTrip(chainId: string)
    ensures ParseBackboneCacheKey(BackboneCacheKey(chainId)) == Some(chainId)
  {
    var parts := Split(BackboneCacheKey(chainId), '-');
    assert parts[1..] == Split(chainId, '-');
    JoinSplit(chainId, '-');
  }

  /** A backbone key is never a balances key, so the two entities never share a cache entry. */
  lemma CacheKeysDisjoint(c: string, c': string, a: string, t: Option<bool>, e: Option<bool>)
    ensures BackboneCacheKey(c) != BalancesCacheKey(c', a, t, e)
  {
    TagsDiffer(c, c' + "-" + a + "-" + ShowFlag(t) + "-" + ShowFlag(e));
  }

  /** The first segments "backbone" and "balances" differ, which `CacheKeysDisjoint` rests on. */
  lemma TagsDiffer(x: string, y: string)
    ensures "backbone-" + x != "balances-" + y
  {
    assert ("backbone-" + x)[2] != ("balances-" + y)[2];
  }
}
