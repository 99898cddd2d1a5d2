/**
 * The URL builders of the Twitter client: the OAuth authorize URL and the
 * permalinks to a profile, a tweet and the retweet, favorite and reply
 * intents. The OAuth endpoint URLs come from the client's `tconfig` and are
 * parameters here; users and tweets carry only the fields the links read.
 */
module Links {
  import opened Text

  /** A request token: the token string, or the token array returned by the token exchange. */
  datatype Token = TokenText(text: string) | TokenArray(entries: map<string, string>)

  /** The `AUTHENTICATE_URL` and `AUTHORIZE_URL` entries of `tconfig`. */
  datatype AuthUrls = AuthUrls(authenticateUrl: string, authorizeUrl: string)

  /** A user: an object with a screen name, or the screen name itself. */
  datatype User = UserObject(screenName: string) | UserName(name: string)

  /** A tweet: its author and its `id_str`. */
  datatype Tweet = Tweet(user: User, idStr: string)

  const TokenQuery := "?oauth_token="
  const ForceLoginQuery := "&force_login=true"
  const ProfileBase := "https://twitter.com/"
  const StatusPath := "/status/"
  const RetweetIntent := "https://twitter.com/intent/retweet?tweet_id="
  const FavoriteIntent := "https://twitter.com/intent/favorite?tweet_id="
  /** `|"https://twitter.com/intent/"|`: the first character after `intent/` tells the intents apart. */
  const IntentKindAt := 27
  const ReplyIntent := "https://twitter.com/intent/tweet?in_reply_to="

  /** The token text; an array contributes its `oauth_token` entry (PHP reads a missing one as null, i.e. ""). */
  function TokenValue(token: Token): (value: string)
    ensures token.TokenText? ==> value == token.text
    ensures token.TokenArray? && "oauth_token" in token.entries ==> value == token.entries["oauth_token"]
    ensures token.TokenArray? && "oauth_token" !in token.entries ==> value == ""
  {
    match token
    case TokenText(text) => text
    case TokenArray(entries) => if "oauth_token" in entries then entries["oauth_token"] else ""
  }

  /**
   * `getAuthorizeURL`: forcing a login wins and asks the authenticate page to
   * force it; otherwise signing in with Twitter picks the authenticate page
   * and not signing in picks the authorize page.
   */
  function GetAuthorizeUrl(urls: AuthUrls, token: Token, signInWithTwitter: bool, forceLogin: bool): (url: string)
    ensures forceLogin ==> url == urls.authenticateUrl + TokenQuery + TokenValue(token) + ForceLoginQuery
    ensures !forceLogin && !signInWithTwitter ==> url == urls.authorizeUrl + TokenQuery + TokenValue(token)
    ensures !forceLogin && signInWithTwitter ==> url == urls.authenticateUrl + TokenQuery + TokenValue(token)
  {
    if forceLogin then urls.authenticateUrl + TokenQuery + TokenValue(token) + ForceLoginQuery
    else if !signInWithTwitter then urls.authorizeUrl + TokenQuery + TokenValue(token)
    else urls.authenticateUrl + TokenQuery + TokenValue(token)
  }

  /** A token array behaves exactly as its `oauth_token` entry. */
  lemma ArrayTokenActsAsItsEntry(urls: AuthUrls, entries: map<string, string>, signInWithTwitter: bool, forceLogin: bool)
    requires "oauth_token" in entries
    ensures GetAuthorizeUrl(urls, TokenArray(entries), signInWithTwitter, forceLogin)
            == GetAuthorizeUrl(urls, TokenText(entries["oauth_token"]), signInWithTwitter, forceLogin)
  {
  }

  /** With a forced login the sign-in flag makes no difference. */
  lemma ForceLoginOverridesSignIn(urls: AuthUrls, token: Token, signIn1: bool, signIn2: bool)
    ensures GetAuthorizeUrl(urls, token, signIn1, true) == GetAuthorizeUrl(urls, token, signIn2, true)
  {
  }

  /** The authorize URL determines the token it carries. */
  lemma AuthorizeUrlDeterminesToken(urls: AuthUrls, t1: Token, t2: Token, signInWithTwitter: bool, forceLogin: bool)
    requires GetAuthorizeUrl(urls, t1, signInWithTwitter, forceLogin) == GetAuthorizeUrl(urls, t2, signInWithTwitter, forceLogin)
    ensures TokenValue(t1) == TokenValue(t2)
  {
    var base := (if forceLogin || signInWithTwitter then urls.authenticateUrl else urls.authorizeUrl) + TokenQuery;
    var suffix := if forceLogin then ForceLoginQuery else "";
    var v1, v2 := TokenValue(t1), TokenValue(t2);
    assert GetAuthorizeUrl(urls, t1, signInWithTwitter, forceLogin) == base + (v1 + suffix);
    assert GetAuthorizeUrl(urls, t2, signInWithTwitter, forceLogin) == base + (v2 + suffix);
    PrefixCancel(base, v1 + suffix, v2 + suffix);
    assert v1 == (v1 + suffix)[..|v1|];
  }

  function ScreenName(user: User): string {
    match user
    case UserObject(screenName) => screenName
    case UserName(name) => name
  }

  /** `linkUser`: the profile page of the screen name. */
  function LinkUser(user: User): (link: string)
    ensures |link| == |ProfileBase| + |ScreenName(user)|
    ensures link[..|ProfileBase|] == ProfileBase && link[|ProfileBase|..] == ScreenName(user)
  {
    ProfileBase + ScreenName(user)
  }

  /** `linkTweet`: the author's profile link followed by the status path and the tweet id. */
  function LinkTweet(tweet: Tweet): (link: string)
    ensures |link| == |LinkUser(tweet.user)| + |StatusPath| + |tweet.idStr|
    ensures link[..|LinkUser(tweet.user)|] == LinkUser(tweet.user)
    ensures link[|LinkUser(tweet.user)|..] == StatusPath + tweet.idStr
  {
    LinkUser(tweet.user) + StatusPath + tweet.idStr
  }

  /** `linkRetweet`: the retweet intent for the tweet id. */
  function LinkRetweet(tweet: Tweet): (link: string)
    ensures |link| == |RetweetIntent| + |tweet.idStr|
    ensures link[..|RetweetIntent|] == RetweetIntent && link[|RetweetIntent|..] == tweet.idStr
  {
    RetweetIntent + tweet.idStr
  }

  /** `linkAddTweetToFavorites`: the favorite intent for the tweet id. */
  function LinkAddTweetToFavorites(tweet: Tweet): (link: string)
    ensures |link| == |FavoriteIntent| + |tweet.idStr|
    ensures link[..|FavoriteIntent|] == FavoriteIntent && link[|FavoriteIntent|..] == tweet.idStr
  {
    FavoriteIntent + tweet.idStr
  }

  /** `linkReply`: the reply intent for the tweet id. */
  function LinkReply(tweet: Tweet): (link: string)
    ensures |link| == |ReplyIntent| + |tweet.idStr|
    ensures link[..|ReplyIntent|] == ReplyIntent && link[|ReplyIntent|..] == tweet.idStr
  {
    ReplyIntent + tweet.idStr
  }

  /** A user object and its bare screen name link to the same profile. */
  lemma LinkUserObjectOrName(screenName: string)
    ensures LinkUser(UserObject(screenName)) == LinkUser(UserName(screenName))
  {
  }

  /** Two tweet links agree only for the same author name and id, when screen names hold no '/'. */
  lemma LinkTweetDeterminesTweet(t1: Tweet, t2: Tweet)
    requires '/' !in ScreenName(t1.user) && '/' !in ScreenName(t2.user)
    requires LinkTweet(t1) == LinkTweet(t2)
    ensures ScreenName(t1.user) == ScreenName(t2.user) && t1.idStr == t2.idStr
  {
    var n1, n2 := ScreenName(t1.user), ScreenName(t2.user);
    var r1, r2 := "status/" + t1.idStr, "status/" + t2.idStr;
    assert LinkTweet(t1) == ProfileBase + (n1 + ['/'] + r1);
    assert LinkTweet(t2) == ProfileBase + (n2 + ['/'] + r2);
    PrefixCancel(ProfileBase, n1 + ['/'] + r1, n2 + ['/'] + r2);
    SplitFirstJoin(n1, '/', r1);
    SplitFirstJoin(n2, '/', r2);
    PrefixCancel("status/", t1.idStr, t2.idStr);
  }

  /** Each intent link identifies its tweet id. */
  lemma IntentLinksDetermineId(t1: Tweet, t2: Tweet)
    ensures LinkRetweet(t1) == LinkRetweet(t2) <==> t1.idStr == t2.idStr
    ensures LinkAddTweetToFavorites(t1) == LinkAddTweetToFavorites(t2) <==> t1.idStr == t2.idStr
    ensures LinkReply(t1) == LinkReply(t2) <==> t1.idStr == t2.idStr
  {
  }

  /** The retweet, favorite and reply intents never produce the same link. */
  lemma IntentLinksDistinct(t1: Tweet, t2: Tweet)
    ensures LinkRetweet(t1) != LinkAddTweetToFavorites(t2)
    ensures LinkRetweet(t1) != LinkReply(t2)
    ensures LinkAddTweetToFavorites(t1) != LinkReply(t2)
  {
    assert LinkRetweet(t1)[IntentKindAt] == 'r';
    assert LinkAddTweetToFavorites(t1)[IntentKindAt] == 'f' && LinkAddTweetToFavorites(t2)[IntentKindAt] == 'f';
    assert LinkReply(t2)[IntentKindAt] == 't';
  }
}
