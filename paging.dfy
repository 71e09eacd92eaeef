/**
 * The paginated subscription fetch of client/src/App.js lines 137-165 as a
 * specification: the URL of each request, what each upstream response does,
 * and the run of the whole chain of page requests over a given sequence of responses.
 * The chain itself is `Client.App.FetchAllSubscriptions`.
 */
module Paging {
  import opened Wrappers
  import opened Subscriptions

  const PageTokenParameter: string := "&pageToken="

  /** The YouTube Data API subscriptions endpoint with the query of line 138, up to the key. */
  const SubscriptionsEndpoint: string :=
    "https://www.googleapis.com/youtube/v3/subscriptions?part=snippet%2CcontentDetails&maxResults=50&mine=true&key="

  /** The request URL without a page token (App.js line 138); the API key comes from configuration. */
  function BaseUrl(apiKey: string): (url: string)
    ensures |url| == |SubscriptionsEndpoint| + |apiKey|
    ensures url[..|SubscriptionsEndpoint|] == SubscriptionsEndpoint
    ensures url[|SubscriptionsEndpoint|..] == apiKey
  {
    SubscriptionsEndpoint + apiKey
  }

  /** JavaScript truthiness of a token: `null`, `undefined` and "" are all falsy. */
  predicate Truthy(token: Option<string>)
  {
    token.Some? && token.value != ""
  }

  /** The page token carried by a request URL built on `base`, if any. */
  function TokenInUrl(base: string, url: string): Option<string>
  {
    var n := |base| + |PageTokenParameter|;
    if |url| > n && url[..n] == base + PageTokenParameter then Some(url[n..]) else None
  }

  /**
   * `token ? baseUrl + "&pageToken=" + token : baseUrl` (App.js line 143):
   * the base URL itself when there is no token, and otherwise the base URL
   * followed by the token parameter.
   */
  function FetchUrl(base: string, token: Option<string>): (url: string)
    ensures !Truthy(token) ==> url == base
    ensures Truthy(token) ==> url == base + PageTokenParameter + token.value
  {
    if Truthy(token) then base + PageTokenParameter + token.value else base
  }

  /**
   * The token can be read back from the URL: a request carries exactly the
   * token it was built with, and none when that token was falsy.
   */
  lemma UrlCarriesToken(base: string, token: Option<string>)
    ensures var url := FetchUrl(base, token);
      |url| >= |base| && url[..|base|] == base && TokenInUrl(base, url) == (if Truthy(token) then token else None)
  {
    var url := FetchUrl(base, token);
    if Truthy(token) {
      var n := |base| + |PageTokenParameter|;
      assert url[..n] == base + PageTokenParameter;
      assert url[n..] == token.value;
    }
  }

  /** The URLs of the requests carrying `tokens`, in order. */
  function RequestUrls(base: string, tokens: seq<Option<string>>): (urls: seq<string>)
    ensures |urls| == |tokens|
    ensures forall k :: 0 <= k < |tokens| ==> urls[k] == FetchUrl(base, tokens[k])
    decreases |tokens|
  {
    if tokens == [] then [] else [FetchUrl(base, tokens[0])] + RequestUrls(base, tokens[1..])
  }

  /**
   * What one `fetch(...).then(res => res.json())` settles to: a rejection with
   * its message, or a parsed body whose `items` and `nextPageToken` may be absent.
   */
  datatype Response =
    | Failure(message: string)
    | Page(items: Option<seq<Subscription>>, nextPageToken: Option<string>)

  /** `data.items && data.items.length > 0` (App.js line 148). */
  predicate HasItems(r: Response)
  {
    r.Page? && r.items.Some? && |r.items.value| > 0
  }

  /** The items a response contributes to the list: none unless `HasItems`. */
  function PageItems(r: Response): (items: seq<Subscription>)
    ensures HasItems(r) <==> items != []
    ensures HasItems(r) ==> items == r.items.value
  {
    if HasItems(r) then r.items.value else []
  }

  /** A response after which the chain requests another page (App.js lines 148-158). */
  predicate Continues(r: Response)
  {
    HasItems(r) && Truthy(r.nextPageToken)
  }

  /** How a chain of page requests ends. */
  datatype FetchOutcome =
    | NotSignedIn     // `googleUser` is null, so line 140 throws before any request
    | AllFetched      // a page with items and no next token (line 153)
    | EmptyPage       // a page without items, whatever its token (line 161)
    | Failed(message: string)  // the promise chain rejected (line 164)
    | Pending         // the given responses ran out while another page was due

  /** The token of each request a chain of page requests makes, the list it leaves behind, and how it ended. */
  datatype Run = Run(tokens: seq<Option<string>>, subscriptions: seq<Subscription>, outcome: FetchOutcome)

  /**
   * One `fetchAllSubscriptions(token)` call and the calls it makes in turn,
   * answered by `rs` in order, starting from the list `subs`.
   */
  function Fetch(token: Option<string>, subs: seq<Subscription>, rs: seq<Response>): (r: Run)
    ensures |r.tokens| <= |rs|
    ensures rs != [] <==> |r.tokens| >= 1
    decreases |rs|
  {
    if rs == [] then Run([], subs, Pending)
    else
      match rs[0]
      case Failure(message) => Run([token], subs, Failed(message))
      case Page(items, next) =>
        if items.Some? && |items.value| > 0 then
          var merged := SortByTitle(subs + items.value);
          if Truthy(next) then
            var rest := Fetch(next, merged, rs[1..]);
            Run([token] + rest.tokens, rest.subscriptions, rest.outcome)
          else Run([token], merged, AllFetched)
        else Run([token], subs, EmptyPage)
  }

  /** The token the `k`-th request carries: the caller's for the first, the previous page's after that. */
  function TokenBefore(token: Option<string>, rs: seq<Response>, k: nat): Option<string>
    requires k <= |rs|
  {
    if k == 0 then token
    else if rs[k - 1].Page? then rs[k - 1].nextPageToken
    else None
  }

  /** All items of the given responses, in order. */
  function ItemsOf(ps: seq<Response>): seq<Subscription>
  {
    if ps == [] then [] else PageItems(ps[0]) + ItemsOf(ps[1..])
  }

  /** The sum of the item counts of the given responses. */
  function ItemCount(ps: seq<Response>): nat
  {
    if ps == [] then 0 else |PageItems(ps[0])| + ItemCount(ps[1..])
  }

  lemma {:induction false} ItemsOfLength(ps: seq<Response>)
    ensures |ItemsOf(ps)| == ItemCount(ps)
  {
    if ps != [] {
      ItemsOfLength(ps[1..]);
    }
  }

  /** The tokens of the requests a chain answered by `rs` makes: `Fetch` without the list. */
  function Requests(token: Option<string>, rs: seq<Response>): (t: seq<Option<string>>)
    ensures |t| <= |rs|
    ensures rs != [] <==> |t| >= 1
    decreases |rs|
  {
    if rs == [] then []
    else if Continues(rs[0]) then [token] + Requests(rs[0].nextPageToken, rs[1..])
    else [token]
  }

  /** How a chain answered by `rs` ends: `Fetch` without the list. */
  function Ending(rs: seq<Response>): FetchOutcome
    decreases |rs|
  {
    if rs == [] then Pending
    else if Continues(rs[0]) then Ending(rs[1..])
    else StopOutcome(rs[0])
  }

  /** The requests `Fetch` makes and how it ends do not depend on the list being merged. */
  lemma {:induction false} FetchTrace(token: Option<string>, subs: seq<Subscription>, rs: seq<Response>)
    ensures Fetch(token, subs, rs).tokens == Requests(token, rs)
    ensures Fetch(token, subs, rs).outcome == Ending(rs)
    decreases |rs|
  {
    if rs != [] {
      if Continues(rs[0]) {
        FetchContinuing(token, subs, rs);
        FetchTrace(rs[0].nextPageToken, SortByTitle(subs + rs[0].items.value), rs[1..]);
      } else {
        FetchStopping(token, subs, rs);
      }
    }
  }

  /**
   * One request per consumed response, the first with the caller's token and
   * each later one with the token of the page before it; every consumed page
   * but the last had items and a token, and the requests stop before the
   * responses run out only on a page that does not continue.
   */
  lemma {:induction false} RequestsFollowPages(token: Option<string>, rs: seq<Response>)
    ensures var t := Requests(token, rs);
      && |t| <= |rs|
      && (rs != [] ==> |t| >= 1)
      && (forall k :: 0 <= k < |t| ==> t[k] == TokenBefore(token, rs, k))
      && (forall k :: 0 <= k < |t| - 1 ==> Continues(rs[k]))
      && (0 < |t| < |rs| ==> !Continues(rs[|t| - 1]))
    decreases |rs|
  {
    if rs != [] && Continues(rs[0]) {
      var next := rs[0].nextPageToken;
      var rest := Requests(next, rs[1..]);
      RequestsFollowPages(next, rs[1..]);
      var t := Requests(token, rs);
      assert t == [token] + rest;
      forall k | 1 <= k < |t|
        ensures t[k] == TokenBefore(token, rs, k)
      {
        assert TokenBefore(next, rs[1..], k - 1) == TokenBefore(token, rs, k);
      }
      forall k | 1 <= k < |t| - 1
        ensures Continues(rs[k])
      {
        assert rs[1..][k - 1] == rs[k];
      }
      if 0 < |rest| {
        assert rs[1..][|rest| - 1] == rs[|rest|];
      }
    }
  }

  /**
   * Which requests are made: one per consumed response, never more than there
   * are responses, the first with the caller's token and each later one with
   * the token of the page before it; every consumed page but the last had
   * items and a token, and the chain only stops before the responses run out
   * on a page that does not continue.
   */
  lemma FetchRequests(token: Option<string>, subs: seq<Subscription>, rs: seq<Response>)
    ensures var t := Fetch(token, subs, rs).tokens;
      && |t| <= |rs|
      && (rs != [] ==> |t| >= 1)
      && (forall k :: 0 <= k < |t| ==> t[k] == TokenBefore(token, rs, k))
      && (forall k :: 0 <= k < |t| - 1 ==> Continues(rs[k]))
      && (0 < |t| < |rs| ==> !Continues(rs[|t| - 1]))
  {
    FetchTrace(token, subs, rs);
    RequestsFollowPages(token, rs);
  }

  /**
   * `result` is what merging the pages `consumed` into `subs` should give: a
   * permutation of `subs` and their items (nothing dropped or deduplicated),
   * sorted by lower-cased title once any item was merged, and `subs` itself
   * when there was none.
   */
  ghost predicate MergedFrom(subs: seq<Subscription>, consumed: seq<Response>, result: seq<Subscription>)
  {
    && multiset(result) == multiset(subs) + multiset(ItemsOf(consumed))
    && (ItemsOf(consumed) == [] ==> result == subs)
    && (ItemsOf(consumed) != [] ==> SortedByTitle(result))
  }

  /** The pages `ps` merged one after another into `subs`, each page with items by `SortByTitle(list + items)`. */
  function MergeAll(subs: seq<Subscription>, ps: seq<Response>): seq<Subscription>
    decreases |ps|
  {
    if ps == [] then subs
    else MergeAll(if HasItems(ps[0]) then SortByTitle(subs + PageItems(ps[0])) else subs, ps[1..])
  }

  /** Merging pages one by one keeps every item and leaves the list sorted. */
  lemma {:induction false} MergeAllMerges(subs: seq<Subscription>, ps: seq<Response>)
    ensures MergedFrom(subs, ps, MergeAll(subs, ps))
    decreases |ps|
  {
    if ps != [] {
      if HasItems(ps[0]) {
        MergeAllMerges(SortByTitle(subs + PageItems(ps[0])), ps[1..]);
        MergedAfterPage(subs, ps, MergeAll(subs, ps));
      } else {
        MergeAllMerges(subs, ps[1..]);
      }
    }
  }

  /** The list a chain of page requests leaves is the consumed pages merged into the starting list. */
  lemma {:induction false} FetchIsMergeAll(token: Option<string>, subs: seq<Subscription>, rs: seq<Response>)
    ensures var r := Fetch(token, subs, rs);
      r.subscriptions == MergeAll(subs, rs[..|r.tokens|])
    decreases |rs|
  {
    if rs != [] {
      var r := Fetch(token, subs, rs);
      if Continues(rs[0]) {
        var merged := SortByTitle(subs + rs[0].items.value);
        var next := rs[0].nextPageToken;
        var rest := Fetch(next, merged, rs[1..]);
        FetchIsMergeAll(next, merged, rs[1..]);
        FetchContinuing(token, subs, rs);
        PrefixSplit(rs, |rest.tokens|);
        assert rs[..|r.tokens|][1..] == rs[1..][..|rest.tokens|];
      } else {
        assert rs[..|r.tokens|] == [rs[0]];
        assert [rs[0]][1..] == [];
      }
    }
  }

  /**
   * The list a chain of page requests leaves is the merge of the pages it consumed into
   * the starting list: nothing dropped or deduplicated, sorted once any page
   * with items was merged, untouched otherwise.
   */
  lemma FetchMerges(token: Option<string>, subs: seq<Subscription>, rs: seq<Response>)
    ensures var r := Fetch(token, subs, rs);
      MergedFrom(subs, rs[..|r.tokens|], r.subscriptions)
  {
    var r := Fetch(token, subs, rs);
    FetchIsMergeAll(token, subs, rs);
    MergeAllMerges(subs, rs[..|r.tokens|]);
  }

  lemma PrefixSplit(rs: seq<Response>, k: nat)
    requires k < |rs|
    ensures rs[..k + 1] == [rs[0]] + rs[1..][..k]
  {
  }

  lemma PrefixLast(rs: seq<Response>, n: nat)
    requires 0 < n <= |rs|
    ensures rs[..n] == rs[..n - 1] + [rs[n - 1]]
  {
  }

  /** One unfolding of `Fetch` on a page with items and a token. */
  lemma FetchContinuing(token: Option<string>, subs: seq<Subscription>, rs: seq<Response>)
    requires rs != [] && Continues(rs[0])
    ensures var rest := Fetch(rs[0].nextPageToken, SortByTitle(subs + rs[0].items.value), rs[1..]);
      Fetch(token, subs, rs) == Run([token] + rest.tokens, rest.subscriptions, rest.outcome)
  {
  }

  /** One unfolding of `Fetch` on any other response: its request is the last. */
  lemma FetchStopping(token: Option<string>, subs: seq<Subscription>, rs: seq<Response>)
    requires rs != [] && !Continues(rs[0])
    ensures Fetch(token, subs, rs)
         == Run([token], if HasItems(rs[0]) then SortByTitle(subs + rs[0].items.value) else subs, StopOutcome(rs[0]))
  {
  }

  /** How the chain ends on a response after which it requests nothing more. */
  function StopOutcome(r: Response): FetchOutcome
  {
    match r
    case Failure(message) => Failed(message)
    case Page(_, _) => if HasItems(r) then AllFetched else EmptyPage
  }

  /** Merging the first page, which has items, and then the rest of `ps` is merging `ps`. */
  lemma MergedAfterPage(subs: seq<Subscription>, ps: seq<Response>, result: seq<Subscription>)
    requires ps != [] && HasItems(ps[0])
    requires MergedFrom(SortByTitle(subs + PageItems(ps[0])), ps[1..], result)
    ensures MergedFrom(subs, ps, result)
  {
    var items := PageItems(ps[0]);
    assert ItemsOf(ps) == items + ItemsOf(ps[1..]);
    assert multiset(items + ItemsOf(ps[1..])) == multiset(items) + multiset(ItemsOf(ps[1..]));
    assert multiset(subs + items) == multiset(subs) + multiset(items);
  }

  /**
   * The final length is the starting length plus the item counts of the
   * consumed pages.
   */
  lemma FetchLength(token: Option<string>, subs: seq<Subscription>, rs: seq<Response>)
    ensures var r := Fetch(token, subs, rs);
      |r.tokens| <= |rs| && |r.subscriptions| == |subs| + ItemCount(rs[..|r.tokens|])
  {
    var r := Fetch(token, subs, rs);
    FetchMerges(token, subs, rs);
    assert MergedFrom(subs, rs[..|r.tokens|], r.subscriptions);
    ItemsOfLength(rs[..|r.tokens|]);
    assert |multiset(r.subscriptions)| == |multiset(subs) + multiset(ItemsOf(rs[..|r.tokens|]))|;
  }

  /**
   * The chain ends on the last response it consumed: by `StopOutcome` when
   * that response does not continue, and `Pending` when it asked for more.
   */
  lemma {:induction false} EndingOnLast(token: Option<string>, rs: seq<Response>)
    ensures var n := |Requests(token, rs)|;
      && (n == 0 ==> Ending(rs) == Pending)
      && (n > 0 && !Continues(rs[n - 1]) ==> Ending(rs) == StopOutcome(rs[n - 1]))
      && (n > 0 && Continues(rs[n - 1]) ==> Ending(rs) == Pending)
    decreases |rs|
  {
    if rs != [] && Continues(rs[0]) {
      var rest := Requests(rs[0].nextPageToken, rs[1..]);
      EndingOnLast(rs[0].nextPageToken, rs[1..]);
      if |rest| > 0 {
        assert rs[1..][|rest| - 1] == rs[|rest|];
      }
    }
  }

  /**
   * How the chain ends is decided by the last consumed response: a failure
   * ends it `Failed` with that message, a page without items `EmptyPage`, a
   * page with items and no token `AllFetched`; it is `Pending` only when all
   * responses were consumed and the last one asked for more.
   */
  lemma FetchOutcomeOfLastPage(token: Option<string>, subs: seq<Subscription>, rs: seq<Response>)
    ensures var r := Fetch(token, subs, rs);
      var n := |r.tokens|;
      && n <= |rs|
      && (n == 0 ==> rs == [] && r.outcome == Pending)
      && (n > 0 && rs[n - 1].Failure? ==> r.outcome == Failed(rs[n - 1].message))
      && (n > 0 && rs[n - 1].Page? && !HasItems(rs[n - 1]) ==> r.outcome == EmptyPage)
      && (n > 0 && HasItems(rs[n - 1]) && !Truthy(rs[n - 1].nextPageToken) ==> r.outcome == AllFetched)
      && (n > 0 && Continues(rs[n - 1]) ==> n == |rs| && r.outcome == Pending)
  {
    FetchTrace(token, subs, rs);
    EndingOnLast(token, rs);
    RequestsFollowPages(token, rs);
  }

  /** A trailing page without items merges nothing. */
  lemma {:induction false} MergeAllSkipsPageWithoutItems(subs: seq<Subscription>, ps: seq<Response>, p: Response)
    requires !HasItems(p)
    ensures MergeAll(subs, ps + [p]) == MergeAll(subs, ps)
    decreases |ps|
  {
    if ps == [] {
      assert [p][1..] == [];
    } else {
      assert (ps + [p])[1..] == ps[1..] + [p];
      MergeAllSkipsPageWithoutItems(if HasItems(ps[0]) then SortByTitle(subs + PageItems(ps[0])) else subs, ps[1..], p);
    }
  }

  /**
   * A failure is caught and keeps what was merged before it: the failing
   * response was the last one consumed, every page before it had items, and
   * the list is those pages merged into the starting list.
   */
  lemma FailureKeepsEarlierPages(token: Option<string>, subs: seq<Subscription>, rs: seq<Response>)
    requires Fetch(token, subs, rs).outcome.Failed?
    ensures var r := Fetch(token, subs, rs);
      var n := |r.tokens|;
      && 0 < n <= |rs|
      && rs[n - 1].Failure?
      && r.outcome == Failed(rs[n - 1].message)
      && (forall k :: 0 <= k < n - 1 ==> HasItems(rs[k]))
      && r.subscriptions == MergeAll(subs, rs[..n - 1])
  {
    var r := Fetch(token, subs, rs);
    var n := |r.tokens|;
    FetchOutcomeOfLastPage(token, subs, rs);
    FetchRequests(token, subs, rs);
    FetchIsMergeAll(token, subs, rs);
    PrefixLast(rs, n);
    MergeAllSkipsPageWithoutItems(subs, rs[..n - 1], rs[n - 1]);
  }

  /**
   * A page without items ends the chain after its own request, leaving the
   * list as it was, even if it carries a next page token.
   */
  lemma EmptyPageEndsFetch(token: Option<string>, subs: seq<Subscription>, rs: seq<Response>)
    requires rs != [] && rs[0].Page? && !HasItems(rs[0])
    ensures Fetch(token, subs, rs) == Run([token], subs, EmptyPage)
  {
  }

  /** Two unfoldings of `Fetch`: a page that continues, then one that does not. */
  lemma FetchLastTwo(token: Option<string>, subs: seq<Subscription>, rs: seq<Response>)
    requires |rs| == 2 && Continues(rs[0]) && !Continues(rs[1])
    ensures var merged := SortByTitle(subs + rs[0].items.value);
      Fetch(token, subs, rs)
        == Run([token, rs[0].nextPageToken],
               if HasItems(rs[1]) then SortByTitle(merged + rs[1].items.value) else merged,
               StopOutcome(rs[1]))
  {
    FetchStopping(rs[0].nextPageToken, SortByTitle(subs + rs[0].items.value), rs[1..]);
    FetchContinuing(token, subs, rs);
  }

  /** Three merges in a row keep every element of the list and of the three pages. */
  lemma MergeThree(subs: seq<Subscription>, a: seq<Subscription>, b: seq<Subscription>, c: seq<Subscription>)
    ensures var r := SortByTitle(SortByTitle(SortByTitle(subs + a) + b) + c);
      && multiset(r) == multiset(subs) + multiset(a) + multiset(b) + multiset(c)
      && |r| == |subs| + |a| + |b| + |c|
  {
    var s1 := SortByTitle(subs + a);
    var s2 := SortByTitle(s1 + b);
    var s3 := SortByTitle(s2 + c);
    assert multiset(s1) == multiset(subs) + multiset(a);
    assert multiset(s2) == multiset(s1) + multiset(b);
    assert multiset(s3) == multiset(s2) + multiset(c);
  }

  /**
   * Three pages of sizes a, b, c linked by two tokens: three requests, the
   * second and third carrying the tokens, all a + b + c items merged, sorted.
   */
  lemma ThreePages(subs: seq<Subscription>, a: seq<Subscription>, b: seq<Subscription>,
                   c: seq<Subscription>, t1: string, t2: string)
    requires a != [] && b != [] && c != [] && t1 != "" && t2 != ""
    ensures var rs := [Page(Some(a), Some(t1)), Page(Some(b), Some(t2)), Page(Some(c), None)];
      var r := Fetch(None, subs, rs);
      && r.tokens == [None, Some(t1), Some(t2)]
      && r.outcome == AllFetched
      && |r.subscriptions| == |subs| + |a| + |b| + |c|
      && multiset(r.subscriptions) == multiset(subs) + multiset(a) + multiset(b) + multiset(c)
      && SortedByTitle(r.subscriptions)
  {
    var rs := [Page(Some(a), Some(t1)), Page(Some(b), Some(t2)), Page(Some(c), None)];
    assert rs[1..] == [Page(Some(b), Some(t2)), Page(Some(c), None)];
    FetchLastTwo(Some(t1), SortByTitle(subs + a), rs[1..]);
    FetchContinuing(None, subs, rs);
    MergeThree(subs, a, b, c);
  }
}
