/**
 * The `App` component of client/src/App.js: its four pieces of state
 * (lines 99-102), the handlers that overwrite them, and the chain of page requests of
 * `fetchAllSubscriptions` (lines 137-165) that merges into `subscriptions`.
 */
module Client {
  import opened Wrappers
  import opened Subscriptions
  import opened Paging

  /** The signed-in Google account as the login page hands it over. */
  datatype GoogleUser = GoogleUser(accessToken: string)

  /** The user record installed after registration (App.js lines 106-111). */
  datatype AuthUser = AuthUser(name: string, email: string, id: Option<string>, createdAt: string)

  /** A theme as the `register` reply lists it (name and id only). */
  datatype ThemeSummary = ThemeSummary(name: string, id: string)

  /** `data.register` as the `RegisterUser` mutation delivers it; `id` may be null. */
  datatype RegisterData = RegisterData(name: string, email: string, id: Option<string>, createdAt: string,
                                       subscriptions: seq<Subscription>, themes: seq<ThemeSummary>)

  class App {
    var googleUser: Option<GoogleUser>
    var authUser: Option<AuthUser>
    var subscriptions: seq<Subscription>
    var themes: seq<ThemeSummary>

    /** The initial state: no users, no subscriptions, no themes. */
    constructor ()
      ensures googleUser == None && authUser == None
      ensures subscriptions == [] && themes == []
    {
      googleUser := None;
      authUser := None;
      subscriptions := [];
      themes := [];
    }

    /** `setGoogleUser`, handed to the login page as `handleGoogleUser`. */
    method HandleGoogleUser(user: Option<GoogleUser>)
      modifies this`googleUser
      ensures googleUser == user
    {
      googleUser := user;
    }

    /**
     * `onCompleted` of the `register` mutation: installs the user's name,
     * email, id and creation time, and replaces the subscriptions and themes
     * by the reply's; the Google user is untouched. The lists are taken as
     * lists: the null that this server's reply delivers for them is not
     * modelled.
     */
    method OnRegisterCompleted(data: RegisterData)
      modifies this`authUser, this`subscriptions, this`themes
      ensures authUser == Some(AuthUser(data.name, data.email, data.id, data.createdAt))
      ensures subscriptions == data.subscriptions && themes == data.themes
    {
      authUser := Some(AuthUser(data.name, data.email, data.id, data.createdAt));
      subscriptions := data.subscriptions;
      themes := data.themes;
    }

    /** `onCompleted` of the `reloadSubs` mutation: the server's list replaces the old one wholesale. */
    method OnReloadCompleted(reloaded: seq<Subscription>)
      modifies this`subscriptions
      ensures subscriptions == reloaded
    {
      subscriptions := reloaded;
    }

    /** `handleLogout`: both users cleared, subscriptions and themes emptied. */
    method HandleLogout()
      modifies this
      ensures googleUser == None && authUser == None
      ensures subscriptions == [] && themes == []
    {
      googleUser := None;
      authUser := None;
      subscriptions := [];
      themes := [];
    }

    /**
     * The `setSubscriptions` updater of lines 150-152 and 155-157: the page's
     * items are appended and the whole list re-sorted, so the new list is a
     * permutation of the old list and the items, ordered by lower-cased title.
     */
    method MergePage(items: seq<Subscription>)
      modifies this`subscriptions
      ensures subscriptions == SortByTitle(old(subscriptions) + items)
      ensures SortedByTitle(subscriptions)
      ensures multiset(subscriptions) == multiset(old(subscriptions)) + multiset(items)
    {
      subscriptions := SortByTitle(subscriptions + items);
    }

    /**
     * `fetchAllSubscriptions(token)` and the calls it makes on each next page
     * token, run one after another; `responses[k]` answers the `k`-th
     * request. Returns the URLs requested and how the chain ended. Without a
     * signed-in Google user the header cannot be built, so nothing is
     * requested and nothing changes.
     */
    method FetchAllSubscriptions(apiKey: string, token: Option<string>, responses: seq<Response>)
      returns (urls: seq<string>, outcome: FetchOutcome)
      modifies this`subscriptions
      ensures googleUser.None? ==> urls == [] && outcome == NotSignedIn && subscriptions == old(subscriptions)
      ensures googleUser.Some? ==>
        var run := Fetch(token, old(subscriptions), responses);
        && urls == RequestUrls(BaseUrl(apiKey), run.tokens)
        && subscriptions == run.subscriptions
        && outcome == run.outcome
    {
      if googleUser.None? {
        urls, outcome := [], NotSignedIn;
        return;
      }
      urls, outcome := FetchPages(BaseUrl(apiKey), token, responses);
    }

    /**
     * One request and what its `.then` handler does with the response
     * (lines 143-163): the URL carries the current token, a page with items
     * is merged, and the fetching goes on exactly when that page also names a
     * next page; otherwise `outcome` says how it ended.
     */
    method FetchPage(base: string, token: Option<string>, response: Response)
      returns (url: string, continues: bool, outcome: FetchOutcome)
      modifies this`subscriptions
      ensures url == FetchUrl(base, token)
      ensures continues == Continues(response)
      ensures subscriptions == if HasItems(response) then SortByTitle(old(subscriptions) + response.items.value)
                               else old(subscriptions)
      ensures !continues ==> outcome == StopOutcome(response)
    {
      url := FetchUrl(base, token);
      continues := false;
      match response {
        case Failure(message) =>
          outcome := Failed(message);
        case Page(items, nextPageToken) =>
          if items.Some? && |items.value| > 0 {
            MergePage(items.value);
            if !Truthy(nextPageToken) {
              outcome := AllFetched;
            } else {
              continues := true;
              outcome := Pending;
            }
          } else {
            outcome := EmptyPage;
          }
      }
    }

    /**
     * `fetchAllSubscriptions(token)` on the URL `base` of line 138: one
     * request, and on a page with items and a next page token the recursive
     * call of line 158 on the remaining responses.
     */
    method FetchPages(base: string, token: Option<string>, responses: seq<Response>)
      returns (urls: seq<string>, outcome: FetchOutcome)
      modifies this`subscriptions
      ensures var run := Fetch(token, old(subscriptions), responses);
        && urls == RequestUrls(base, run.tokens)
        && subscriptions == run.subscriptions
        && outcome == run.outcome
      decreases |responses|
    {
      if responses == [] {
        urls, outcome := [], Pending;
        return;
      }
      ghost var start := subscriptions;
      var url, continues, stop := FetchPage(base, token, responses[0]);
      if continues {
        FetchContinuing(token, start, responses);
        var rest;
        rest, outcome := FetchPages(base, responses[0].nextPageToken, responses[1..]);
        urls := [url] + rest;
      } else {
        FetchStopping(token, start, responses);
        urls, outcome := [url], stop;
      }
    }

    /** `getSubscriptions`: the chain of page requests from a null token, without clearing the list first. */
    method GetSubscriptions(apiKey: string, responses: seq<Response>) returns (urls: seq<string>, outcome: FetchOutcome)
      modifies this`subscriptions
      ensures googleUser.None? ==> urls == [] && outcome == NotSignedIn && subscriptions == old(subscriptions)
      ensures googleUser.Some? ==>
        var run := Fetch(None, old(subscriptions), responses);
        && urls == RequestUrls(BaseUrl(apiKey), run.tokens)
        && subscriptions == run.subscriptions
        && outcome == run.outcome
      ensures googleUser.Some? && responses != [] ==> |urls| >= 1 && urls[0] == BaseUrl(apiKey)
    {
      urls, outcome := FetchAllSubscriptions(apiKey, None, responses);
      if googleUser.Some? && responses != [] {
        FetchRequests(None, old(subscriptions), responses);
      }
    }
  }
}
