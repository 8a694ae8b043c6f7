/** The request URLs the client builds by string concatenation from its base
    URL and a clip or deck id, and the requests it issues. */
module Endpoints {

  datatype Verb = Get | Post

  /** One request handed to `fetch`. */
  datatype Request = Request(verb: Verb, url: string)

  const CompositionPath := "/api/v1/composition"

  /** The polled state endpoint. */
  function StateUrl(baseUrl: string): string {
    baseUrl + CompositionPath
  }

  /** The endpoint that starts playback of a clip. */
  function ClipConnectUrl(baseUrl: string, clipId: string): string {
    baseUrl + CompositionPath + "/clips/by-id/" + clipId + "/connect"
  }

  /** The endpoint that selects a deck. */
  function DeckSelectUrl(baseUrl: string, deckId: string): string {
    baseUrl + CompositionPath + "/decks/by-id/" + deckId + "/select"
  }

  /** The image shown for a clip. */
  function ClipThumbnailUrl(baseUrl: string, clipId: string): string {
    baseUrl + CompositionPath + "/clips/by-id/" + clipId + "/thumbnail"
  }

  /** A text framed by a fixed prefix and suffix determines what lies between. */
  lemma FramedInjective(prefix: string, suffix: string, x: string, y: string)
    requires prefix + x + suffix == prefix + y + suffix
    ensures x == y
  {
    var s := prefix + x + suffix;
    assert |x| == |y|;
    assert x == s[|prefix|..|prefix| + |x|];
    assert y == (prefix + y + suffix)[|prefix|..|prefix| + |y|];
  }

  /** Distinct clips get distinct connect URLs. */
  lemma ConnectUrlInjective(baseUrl: string, a: string, b: string)
    requires ClipConnectUrl(baseUrl, a) == ClipConnectUrl(baseUrl, b)
    ensures a == b
  {
    FramedInjective(baseUrl + CompositionPath + "/clips/by-id/", "/connect", a, b);
  }

  /** Distinct decks get distinct select URLs. */
  lemma SelectUrlInjective(baseUrl: string, a: string, b: string)
    requires DeckSelectUrl(baseUrl, a) == DeckSelectUrl(baseUrl, b)
    ensures a == b
  {
    FramedInjective(baseUrl + CompositionPath + "/decks/by-id/", "/select", a, b);
  }

  /** Distinct clips get distinct thumbnail URLs, and a thumbnail URL is
      never a connect URL. */
  lemma ThumbnailUrlInjective(baseUrl: string, a: string, b: string)
    ensures ClipThumbnailUrl(baseUrl, a) == ClipThumbnailUrl(baseUrl, b) ==> a == b
    ensures ClipThumbnailUrl(baseUrl, a) != ClipConnectUrl(baseUrl, b)
  {
    if ClipThumbnailUrl(baseUrl, a) == ClipThumbnailUrl(baseUrl, b) {
      FramedInjective(baseUrl + CompositionPath + "/clips/by-id/", "/thumbnail", a, b);
    }
    var t := ClipThumbnailUrl(baseUrl, a);
    var c := ClipConnectUrl(baseUrl, b);
    assert c[|c| - 1] == 't' && t[|t| - 1] == 'l';
  }

  /** Under one base URL, connecting a clip and selecting a deck never hit
      the same URL, whatever the ids. */
  lemma ConnectAndSelectDistinct(baseUrl: string, a: string, b: string)
    ensures ClipConnectUrl(baseUrl, a) != DeckSelectUrl(baseUrl, b)
  {
    var n := |baseUrl + CompositionPath|;
    var c := ClipConnectUrl(baseUrl, a);
    var d := DeckSelectUrl(baseUrl, b);
    assert c[n + 1] == 'c' && d[n + 1] == 'd';
  }
}
