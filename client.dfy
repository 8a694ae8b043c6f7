/** The composition view's client state: the five state cells of the
    component and the handlers that change them. The network is an input:
    each handler receives the response its request got, and returns the
    request it issued. */
module CompositionClient {
  import opened Wrappers
  import opened Composition
  import opened Endpoints

  class Client {
    /** The base URL the component is given; it never changes while mounted. */
    const baseUrl: string
    var clips: seq<Clip>
    var decks: seq<Deck>
    var loading: bool
    /** The error message shown; None is JavaScript's `null`. */
    var error: Option<string>
    /** The clip last connected successfully; None before the first. */
    var activeClip: Option<string>

    /** Mounting: empty lists, not loading, no error, no active clip. */
    constructor (baseUrl: string)
      ensures this.baseUrl == baseUrl
      ensures clips == [] && decks == [] && !loading && error == None && activeClip == None
    {
      this.baseUrl := baseUrl;
      clips, decks := [], [];
      loading, error, activeClip := false, None, None;
    }

    /** Entry of a poll, up to the awaited fetch: loading is set and the
        error cleared; the lists and the active clip stay. */
    method BeginPoll() returns (request: Request)
      modifies this`loading, this`error
      ensures request == Request(Get, StateUrl(baseUrl))
      ensures loading && error == None
      ensures clips == old(clips) && decks == old(decks) && activeClip == old(activeClip)
    {
      loading := true;
      error := None;
      request := Request(Get, StateUrl(baseUrl));
    }

    /** Completion of a poll with the response its fetch got: on success both
        lists are replaced together; on any thrown error the message is stored
        and both lists keep their previous values. Loading ends either way,
        and the active clip is never touched. A success does not clear an
        error that another, overlapping poll stored after this one began. */
    method FinishPoll(response: Response)
      modifies this`clips, this`decks, this`error, this`loading
      ensures !loading
      ensures activeClip == old(activeClip)
      ensures PollOutcome(response).Success? ==>
        clips == PollOutcome(response).value.clips && decks == PollOutcome(response).value.decks &&
        error == old(error)
      ensures PollOutcome(response).Failure? ==>
        clips == old(clips) && decks == old(decks) && error == Some(PollOutcome(response).message)
    {
      match PollOutcome(response) {
        case Success(snapshot) =>
          clips := snapshot.clips;
          decks := snapshot.decks;
        case Failure(message) =>
          error := Some(message);
      }
      loading := false;
    }

    /** One poll that no other poll overlaps: it ends not loading, with no
        error exactly when it succeeded. */
    method Poll(response: Response) returns (request: Request)
      modifies this`clips, this`decks, this`error, this`loading
      ensures request == Request(Get, StateUrl(baseUrl))
      ensures !loading
      ensures activeClip == old(activeClip)
      ensures PollOutcome(response).Success? ==>
        clips == PollOutcome(response).value.clips && decks == PollOutcome(response).value.decks &&
        error == None
      ensures PollOutcome(response).Failure? ==>
        clips == old(clips) && decks == old(decks) && error == Some(PollOutcome(response).message)
    {
      request := BeginPoll();
      FinishPoll(response);
    }

    /** Connecting a clip: the POST to its connect URL; only a response with
        an ok status makes it the active clip. A failure is logged, not
        stored: nothing else changes on either outcome. */
    method ConnectClip(clipId: string, response: Response) returns (request: Request, logged: Option<string>)
      modifies this`activeClip
      ensures request == Request(Post, ClipConnectUrl(baseUrl, clipId))
      ensures logged.None? <==> response.Ok()
      ensures response.Received? && !response.Ok() ==>
        logged == Some("Failed to connect clip: " + response.statusText)
      ensures response.NetworkError? ==> logged == Some(response.message)
      ensures activeClip == if response.Ok() then Some(clipId) else old(activeClip)
      ensures clips == old(clips) && decks == old(decks) && error == old(error) && loading == old(loading)
    {
      request := Request(Post, ClipConnectUrl(baseUrl, clipId));
      logged := ActionFailure("connect clip", response);
      assert "Failed to " + "connect clip" + ": " == "Failed to connect clip: ";
      if response.Ok() {
        activeClip := Some(clipId);
      }
    }

    /** Selecting a deck: the POST to its select URL. It changes no client
        state on either outcome (the next poll shows the effect); a failure
        is only logged. */
    method SelectDeck(deckId: string, response: Response) returns (request: Request, logged: Option<string>)
      ensures request == Request(Post, DeckSelectUrl(baseUrl, deckId))
      ensures logged.None? <==> response.Ok()
      ensures response.Received? && !response.Ok() ==>
        logged == Some("Failed to select deck: " + response.statusText)
      ensures response.NetworkError? ==> logged == Some(response.message)
    {
      request := Request(Post, DeckSelectUrl(baseUrl, deckId));
      logged := ActionFailure("select deck", response);
      assert "Failed to " + "select deck" + ": " == "Failed to select deck: ";
    }
  }
}
