/**
 * What the Home feed and the Profile page put on screen for a query state:
 * the error text, the loading indicator, or the list of post cards, with
 * posts that have neither text nor image skipped.
 */
module Feed {
  import opened Common
  import opened Entities
  import opened Lists
  import Session

  /** A post is rendered when it has a truthy image or a truthy body. */
  predicate HasContent(p: Post) {
    Truthy(p.image) || Truthy(p.body)
  }

  /** What a list page shows. */
  datatype Screen =
    | ErrorText         // "Error, Try again later"
    | Spinner
    | Cards(posts: seq<Post>)
    | NoPostsText       // "No posts to display."

  /** The posts of a server list that get a card, in list order. */
  function CardsFor(posts: seq<Post>): (r: seq<Post>)
    ensures forall p :: p in r <==> p in posts && HasContent(p)
    ensures forall p :: multiset(r)[p] == if HasContent(p) then multiset(posts)[p] else 0
    ensures Subsequence(r, posts)
  {
    Filter(HasContent, posts)
  }

  /**
   * Home: the error is checked before loading; then every post of the server
   * list with content gets a card, in server order. A missing or empty list
   * gives an empty card area.
   */
  function HomeScreen(isLoading: bool, isError: bool, data: Option<seq<Post>>): (s: Screen)
    ensures isError ==> s == ErrorText
    ensures !isError && isLoading ==> s == Spinner
    ensures !isError && !isLoading ==> s.Cards?
    ensures s.Cards? && data.Some? ==> s.posts == CardsFor(data.value)
    ensures s.Cards? && data.None? ==> s.posts == []
  {
    if isError then ErrorText
    else if isLoading then Spinner
    else if data.Some? && |data.value| > 0 then Cards(CardsFor(data.value))
    else Cards([])
  }

  /**
   * Profile: loading is checked before the error; the server list is
   * reversed, then every post with content gets a card. Only an empty list
   * shows "No posts to display."; a list whose posts are all skipped shows an
   * empty card area.
   */
  function ProfileScreen(isLoading: bool, isError: bool, data: Option<seq<Post>>): (s: Screen)
    ensures isLoading ==> s == Spinner
    ensures !isLoading && isError ==> s == ErrorText
    ensures !isLoading && !isError && data.Some? && |data.value| > 0 ==>
      s == Cards(CardsFor(Reverse(data.value)))
    ensures !isLoading && !isError && (data.None? || |data.value| == 0) ==> s == NoPostsText
  {
    if isLoading then Spinner
    else if isError then ErrorText
    else if data.Some? && |data.value| > 0 then Cards(CardsFor(Reverse(data.value)))
    else NoPostsText
  }

  /** The two pages check the flags in opposite orders: with both set, Home shows the error and Profile the spinner. */
  lemma PrecedenceDiffers(data: Option<seq<Post>>)
    ensures HomeScreen(true, true, data) == ErrorText
    ensures ProfileScreen(true, true, data) == Spinner
  {
  }

  /** With at most one flag set, the two pages agree on error and loading. */
  lemma PrecedenceAgreesWhenExclusive(isLoading: bool, isError: bool, data: Option<seq<Post>>)
    requires !(isLoading && isError)
    ensures HomeScreen(isLoading, isError, data) == ErrorText <==> ProfileScreen(isLoading, isError, data) == ErrorText
    ensures HomeScreen(isLoading, isError, data) == Spinner <==> ProfileScreen(isLoading, isError, data) == Spinner
  {
  }

  /** For the same non-empty server list, the Profile page shows exactly Home's cards in reverse order. */
  lemma ProfileMirrorsHome(data: seq<Post>)
    requires |data| > 0
    ensures ProfileScreen(false, false, Some(data)).posts == Reverse(HomeScreen(false, false, Some(data)).posts)
  {
    FilterReverse(HasContent, data);
  }

  /** A non-empty list of posts without content shows no card and no "No posts" text on the Profile page. */
  lemma ProfileAllSkippedIsBlank(data: seq<Post>)
    requires |data| > 0
    requires forall p :: p in data ==> !HasContent(p)
    ensures ProfileScreen(false, false, Some(data)) == Cards([])
  {
    ReverseSameElements(data);
    FilterDropsAll(HasContent, Reverse(data));
  }

  // ---------------------------------------------------------------------
  // The Profile page's user
  // ---------------------------------------------------------------------

  /** The outcome of decoding a token: the user id it names, or the exception `jwtDecode` throws. */
  datatype Decoded = DecodedUser(id: string) | Throws

  /**
   * The Profile page as written decodes `token ?? ""` on every render. `??`
   * replaces only a null token, so a null or empty token reaches `jwtDecode`
   * as "", which has no payload part and throws; a non-empty token is decoded
   * (`decode` stands for `jwtDecode(token).user` on a well-formed token).
   */
  function ProfileUserAsWritten(token: Option<string>, decode: string -> string): (d: Decoded)
    ensures !Truthy(token) ==> d == Throws
    ensures Truthy(token) ==> d == DecodedUser(decode(token.value))
  {
    var input := token.GetOr("");
    if input == "" then Throws else DecodedUser(decode(input))
  }

  /**
   * After a reload on /profile the guard admits (storage holds the token)
   * while the context token is still null, so the page's first render throws.
   */
  lemma ReloadedProfileThrows(t: string, decode: string -> string)
    requires t != ""
    ensures Session.Guard(Session.Boot(Some(t))) == Session.RenderChildren
    ensures ProfileUserAsWritten(Session.Boot(Some(t)).token, decode) == Throws
  {
  }

  /**
   * On the same reload the guarded decode does not throw: on the first render
   * it names nobody (the page waits), and once the mount effect has adopted
   * the stored token it names that token's user.
   */
  lemma ReloadedProfileGuardedDecode(t: string, decode: string -> string)
    requires t != ""
    ensures Session.Guard(Session.Boot(Some(t))) == Session.RenderChildren
    ensures Session.TokenUser(Session.Boot(Some(t)).token, decode).None?
    ensures Session.TokenUser(Session.Mount(Session.Boot(Some(t))).token, decode) == Some(decode(t))
  {
  }

  /**
   * The intended behaviour is `Session.TokenUser`, which decodes only a
   * truthy token, as the profile store's effect does: it agrees with the page
   * wherever the page does not throw, and names nobody exactly where it throws.
   */
  lemma TokenUserGuardsProfileDecode(token: Option<string>, decode: string -> string)
    ensures ProfileUserAsWritten(token, decode) == Throws <==> Session.TokenUser(token, decode).None?
    ensures Session.TokenUser(token, decode).Some? ==>
      ProfileUserAsWritten(token, decode) == DecodedUser(Session.TokenUser(token, decode).value)
  {
  }
}
