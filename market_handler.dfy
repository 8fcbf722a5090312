/** The market handler: turns the configured base symbols into exchange
    market codes, keeps those the exchange lists, and fetches candles. The
    answers of the exchange are parameters. */
module MarketHandler {
  import opened Wrappers
  import opened Model
  import opened Config

  /** The quote-currency prefix of every market code the bot trades. */
  const QuotePrefix: string := "KRW-"

  /** The market codes of the configured symbols, in configuration order. */
  function Targets(configured: seq<string>): (targets: seq<string>)
    ensures |targets| == |configured|
    ensures forall i :: 0 <= i < |targets| ==> targets[i] == QuotePrefix + configured[i]
    decreases |configured|
  {
    if configured == [] then []
    else Targets(configured[..|configured| - 1]) + [QuotePrefix + configured[|configured| - 1]]
  }

  /** The codes of a list of live markets, in list order. */
  function Codes(live: seq<MarketInfo>): (codes: seq<string>)
    ensures |codes| == |live| && forall j :: 0 <= j < |live| ==> codes[j] == live[j].market
  {
    seq(|live|, j requires 0 <= j < |live| => live[j].market)
  }

  /** What the inner search appends for one target: the code of every live
      entry equal to it, in list order (the search does not stop at the first
      match). */
  function MatchesOf(target: string, live: seq<MarketInfo>): seq<string>
    decreases |live|
  {
    if live == [] then []
    else
      var last := live[|live| - 1];
      MatchesOf(target, live[..|live| - 1]) + (if last.market == target then [last.market] else [])
  }

  /** What the nested search keeps of `targets`. */
  function FilterTargets(targets: seq<string>, live: seq<MarketInfo>): seq<string>
    decreases |targets|
  {
    if targets == [] then []
    else FilterTargets(targets[..|targets| - 1], live) + MatchesOf(targets[|targets| - 1], live)
  }

  /** Occurrences in a concatenation add up. */
  lemma CountAppend(a: seq<string>, b: seq<string>, x: string)
    ensures multiset(a + b)[x] == multiset(a)[x] + multiset(b)[x]
  {
    assert multiset(a + b) == multiset(a) + multiset(b);
  }

  /** The codes of a list are the codes of all but its last entry, then that
      entry's code. */
  lemma CodesSnoc(live: seq<MarketInfo>)
    requires live != []
    ensures Codes(live) == Codes(live[..|live| - 1]) + [live[|live| - 1].market]
  {
  }

  /** The matches of a target are copies of it, one per live entry with that
      code. */
  lemma {:induction false} MatchesOfCount(target: string, live: seq<MarketInfo>, x: string)
    ensures multiset(MatchesOf(target, live))[x] == if x == target then multiset(Codes(live))[x] else 0
    decreases |live|
  {
    if live != [] {
      var n := |live| - 1;
      var code := live[n].market;
      MatchesOfCount(target, live[..n], x);
      CountAppend(MatchesOf(target, live[..n]), if code == target then [code] else [], x);
      CodesSnoc(live);
      CountAppend(Codes(live[..n]), [code], x);
    }
  }

  /** Filtering one more target appends its matches. */
  lemma FilterTargetsSnoc(targets: seq<string>, target: string, live: seq<MarketInfo>)
    ensures FilterTargets(targets + [target], live) == FilterTargets(targets, live) + MatchesOf(target, live)
  {
    assert (targets + [target])[..|targets|] == targets;
  }

  /** The filter keeps target order: filtering two runs of targets is
      filtering each and joining the results. */
  lemma {:induction false} FilterTargetsAppend(a: seq<string>, b: seq<string>, live: seq<MarketInfo>)
    ensures FilterTargets(a + b, live) == FilterTargets(a, live) + FilterTargets(b, live)
    decreases |b|
  {
    if b == [] {
      assert a + b == a;
    } else {
      var n := |b| - 1;
      var init := b[..n];
      FilterTargetsAppend(a, init, live);
      assert a + b == (a + init) + [b[n]];
      assert b == init + [b[n]];
      FilterTargetsSnoc(a + init, b[n], live);
      FilterTargetsSnoc(init, b[n], live);
    }
  }

  /** Each code occurs in the result once for every pair of an equal target
      and an equal live entry: targets without a live entry are dropped, and a
      code listed twice by the exchange is kept twice. */
  lemma {:induction false} FilterTargetsCount(targets: seq<string>, live: seq<MarketInfo>, x: string)
    ensures multiset(FilterTargets(targets, live))[x] == multiset(targets)[x] * multiset(Codes(live))[x]
    decreases |targets|
  {
    if targets != [] {
      var n := |targets| - 1;
      var init := targets[..n];
      FilterTargetsCount(init, live, x);
      MatchesOfCount(targets[n], live, x);
      var here := if targets[n] == x then 1 else 0;
      var matches := MatchesOf(targets[n], live);
      assert targets == init + [targets[n]];
      CountAppend(init, [targets[n]], x);
      FilterTargetsSnoc(init, targets[n], live);
      CountAppend(FilterTargets(init, live), matches, x);
      CountStep(multiset(targets)[x], multiset(init)[x], here, multiset(Codes(live))[x],
                multiset(FilterTargets(init, live))[x], multiset(matches)[x],
                multiset(FilterTargets(targets, live))[x]);
    }
  }

  /** Adding one target (`here` is 1 when it is `x`) adds its matches. */
  lemma CountStep(total: nat, before: nat, here: nat, live: nat, filtered: nat, added: nat, result: nat)
    requires total == before + here && here <= 1
    requires filtered == before * live && added == here * live && result == filtered + added
    ensures result == total * live
  {
  }

  /** A code occurs among the codes of a list exactly when some entry has it. */
  lemma CodesMembership(live: seq<MarketInfo>, x: string)
    ensures x in multiset(Codes(live)) <==> exists j :: 0 <= j < |live| && live[j].market == x
  {
    if exists j :: 0 <= j < |live| && live[j].market == x {
      var j :| 0 <= j < |live| && live[j].market == x;
      assert Codes(live)[j] == x;
    }
  }

  lemma ProductPositive(a: nat, b: nat)
    ensures a * b > 0 <==> a > 0 && b > 0
  {
    if a > 0 && b > 0 {
      assert a * b >= b;
    }
  }

  /** A code is kept exactly when it is both a target and a live market. */
  lemma FilterTargetsMembership(targets: seq<string>, live: seq<MarketInfo>, x: string)
    ensures x in FilterTargets(targets, live) <==> x in targets && exists j :: 0 <= j < |live| && live[j].market == x
  {
    FilterTargetsCount(targets, live, x);
    CodesMembership(live, x);
    ProductPositive(multiset(targets)[x], multiset(Codes(live))[x]);
    assert x in FilterTargets(targets, live) <==> x in multiset(FilterTargets(targets, live));
    assert x in targets <==> x in multiset(targets);
  }

  /** The markets the bot will trade: none without configured symbols; the
      prefixed symbols unchanged when the live list fails or is empty;
      otherwise the prefixed symbols the live list contains. Every market
      carries the quote prefix, and a market is kept exactly when it is a
      prefixed configured symbol that the live list (if usable) contains. */
  function ValidMarkets(configured: seq<string>, live: Fetch<seq<MarketInfo>>): (markets: seq<string>)
    ensures configured == [] ==> markets == []
    ensures forall i :: 0 <= i < |markets| ==> QuotePrefix <= markets[i]
    ensures forall x :: x in markets <==>
              && x in Targets(configured)
              && (live.FetchFailed? || live.value == [] || exists j :: 0 <= j < |live.value| && live.value[j].market == x)
  {
    if configured == [] then []
    else
      match live
      case FetchFailed(_) => Targets(configured)
      case Fetched(marketInfo) =>
        if marketInfo == [] then Targets(configured)
        else
          var kept := FilterTargets(Targets(configured), marketInfo);
          forall x
            ensures x in kept <==> (x in Targets(configured) &&
                                    exists j :: 0 <= j < |marketInfo| && marketInfo[j].market == x)
          {
            FilterTargetsMembership(Targets(configured), marketInfo, x);
          }
          forall i | 0 <= i < |kept| ensures QuotePrefix <= kept[i] {
            assert kept[i] in kept;
            assert kept[i] in Targets(configured);
            var k :| 0 <= k < |Targets(configured)| && Targets(configured)[k] == kept[i];
          }
          kept
  }

  /** The validation pass: builds the prefixed targets, then, for each
      target, scans the live list and keeps every equal entry. */
  method ValidateAndFilterMarkets(configured: seq<string>, live: Fetch<seq<MarketInfo>>)
    returns (validMarkets: seq<string>)
    ensures validMarkets == ValidMarkets(configured, live)
  {
    if |configured| == 0 {
      return [];
    }

    var userTargets: seq<string> := [];
    for i := 0 to |configured|
      invariant userTargets == Targets(configured[..i])
    {
      assert configured[..i + 1][..i] == configured[..i];
      userTargets := userTargets + [QuotePrefix + configured[i]];
    }
    assert configured[..|configured|] == configured;

    match live
    case FetchFailed(_) =>
      return userTargets;
    case Fetched(marketInfo) =>
      if |marketInfo| == 0 {
        return userTargets;
      }
      validMarkets := [];
      for i := 0 to |userTargets|
        invariant validMarkets == FilterTargets(userTargets[..i], marketInfo)
      {
        var u := userTargets[i];
        for j := 0 to |marketInfo|
          invariant validMarkets == FilterTargets(userTargets[..i], marketInfo) + MatchesOf(u, marketInfo[..j])
        {
          assert marketInfo[..j + 1][..j] == marketInfo[..j];
          if u == marketInfo[j].market {
            validMarkets := validMarkets + [marketInfo[j].market];
          }
        }
        assert marketInfo[..|marketInfo|] == marketInfo;
        assert userTargets[..i + 1][..i] == userTargets[..i];
      }
      assert userTargets[..|userTargets|] == userTargets;
  }

  /** The candles of one market: none when the configured path is empty
      (nothing is fetched) or when the fetch fails, otherwise what the
      exchange returned for that path. */
  function GetCandles(candleConfig: CandleConfig, fetched: Fetch<seq<Candle>>): (candles: seq<Candle>)
    ensures BuildAPIPath(candleConfig) == "" || fetched.FetchFailed? ==> candles == []
    ensures BuildAPIPath(candleConfig) != "" && fetched.Fetched? ==> candles == fetched.value
  {
    if |BuildAPIPath(candleConfig)| == 0 then []
    else
      match fetched
      case FetchFailed(_) => []
      case Fetched(candles) => candles
  }
}
