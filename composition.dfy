/** The composition state the client reads from `GET {baseUrl}/api/v1/composition`,
    the HTTP response that carries it, and the pure normalisation that turns
    one response into the clip and deck lists the client shows (or into the
    message of the error the poll throws). */
module Composition {
  import opened Wrappers
  import Decimal

  /** The JSON values a clip's `name.value` can hold, as far as JavaScript's
      truthiness is concerned. Numbers are integers here. */
  datatype JsValue = Undefined | Null | Boolean(b: bool) | Number(n: int) | Text(s: string) | Object

  /** JavaScript truthiness: `false`, `0`, `""`, `null` and `undefined` are falsy. */
  predicate Truthy(v: JsValue) {
    match v
    case Undefined => false
    case Null => false
    case Boolean(b) => b
    case Number(n) => n != 0
    case Text(s) => s != ""
    case Object => true
  }

  /** The `{ value }` wrapper the server puts around names and flags. */
  datatype Wrapped = Wrapped(value: JsValue)

  /** A clip as the server reports it; `name` is None when the field is
      absent or null. The id is kept as the text `${clip.id}` renders to. */
  datatype Clip = Clip(id: string, name: Option<Wrapped>)

  /** A layer; `clips` is None when the field is absent or null. */
  datatype Layer = Layer(clips: Option<seq<Clip>>)

  /** A deck, passed through to the client untouched. */
  datatype Deck = Deck(id: string, name: Option<Wrapped>, selected: Option<Wrapped>)

  /** The `layers` field of a document. Absent and null are kept apart,
      because reading `.flatMap` from them throws different messages. */
  datatype LayersField = NoLayers | NullLayers | Layers(list: seq<Layer>)

  /** The parsed response body. `decks` is None when absent or null, which
      `result.decks || []` treats alike. A body that parses to a number or a
      string has no `layers` and is the document with `NoLayers`. */
  datatype Document = Document(layers: LayersField, decks: Option<seq<Deck>>)

  /** What `response.json()` yields: a document, the JSON value `null`, or
      the message of the error it throws when the body does not parse. */
  datatype Body = Json(doc: Document) | JsonNull | Unparseable(message: string)

  /** The outcome of one `fetch`: a response with its status line and body,
      or the message of the error the rejected promise carries. */
  datatype Response = Received(status: nat, statusText: string, body: Body) | NetworkError(message: string)
  {
    /** `response.ok`: the status is in the range 200 to 299. */
    predicate Ok() {
      Received? && 200 <= status <= 299
    }
  }

  /** The two lists one successful poll stores, together. */
  datatype Snapshot = Snapshot(clips: seq<Clip>, decks: seq<Deck>)

  /** The message of the TypeError thrown when `result.layers` is undefined
      and `.flatMap` is read from it (V8's wording; engines differ). */
  const MissingLayersMessage := "Cannot read properties of undefined (reading 'flatMap')"

  /** The message of the TypeError thrown when `result.layers` is null. */
  const NullLayersMessage := "Cannot read properties of null (reading 'flatMap')"

  /** The message of the TypeError thrown when the body is `null` and
      `.layers` is read from it. */
  const NullBodyMessage := "Cannot read properties of null (reading 'layers')"

  /** `layer.clips || []`. */
  function LayerClips(layer: Layer): seq<Clip> {
    layer.clips.GetOr([])
  }

  /** `layers.flatMap(layer => layer.clips || [])`: every layer's clips, in
      layer order and, within a layer, in their own order. */
  function FlattenClips(layers: seq<Layer>): (r: seq<Clip>)
    ensures forall c :: c in r <==> exists i :: 0 <= i < |layers| && c in LayerClips(layers[i])
  {
    if layers == [] then []
    else
      var rest := FlattenClips(layers[1..]);
      assert forall c :: c in rest <==> exists i :: 1 <= i < |layers| && c in LayerClips(layers[i]) by {
        forall c | c in rest ensures exists i :: 1 <= i < |layers| && c in LayerClips(layers[i]) {
          var j :| 0 <= j < |layers[1..]| && c in LayerClips(layers[1..][j]);
          assert c in LayerClips(layers[j + 1]);
        }
        forall c, i | 1 <= i < |layers| && c in LayerClips(layers[i]) ensures c in rest {
          assert layers[1..][i - 1] == layers[i];
        }
      }
      LayerClips(layers[0]) + rest
  }

  /** `clip.name && clip.name.value`: the clip carries a name whose value is truthy. */
  predicate HasName(c: Clip) {
    c.name.Some? && Truthy(c.name.value.value)
  }

  /** `clips.filter(clip => clip.name && clip.name.value)`: exactly the named
      clips, none added, none repeated beyond the input. */
  function KeepNamed(clips: seq<Clip>): (r: seq<Clip>)
    ensures |r| <= |clips|
    ensures forall c :: c in r <==> c in clips && HasName(c)
  {
    if clips == [] then []
    else (if HasName(clips[0]) then [clips[0]] else []) + KeepNamed(clips[1..])
  }

  /** The try-block of the poll after `response.json()`: reading
      `result.layers.flatMap` throws when `layers` is missing or null;
      otherwise the named clips of all layers and the decks (`result.decks || []`). */
  function Normalize(doc: Document): Result<Snapshot> {
    match doc.layers
    case NoLayers => Failure(MissingLayersMessage)
    case NullLayers => Failure(NullLayersMessage)
    case Layers(layers) => Success(Snapshot(KeepNamed(FlattenClips(layers)), doc.decks.GetOr([])))
  }

  /** The message of the Error thrown for a non-ok status. */
  function HttpErrorMessage(status: nat, statusText: string): string {
    "Error: " + Decimal.Render(status) + " - " + statusText
  }

  /** What one poll yields: the snapshot to store, or the message of the error
      the try-block throws (a rejected fetch, a non-ok status, a body that does
      not parse, a `null` body, a document whose `layers` is missing or null). */
  function PollOutcome(response: Response): Result<Snapshot> {
    match response
    case NetworkError(message) => Failure(message)
    case Received(status, statusText, body) =>
      if !response.Ok() then Failure(HttpErrorMessage(status, statusText))
      else
        match body
        case Unparseable(message) => Failure(message)
        case JsonNull => Failure(NullBodyMessage)
        case Json(doc) => Normalize(doc)
  }

  /** The message logged when an action request does not succeed, None when
      it does: `Failed to <action>: <statusText>` for a non-ok status, and
      the rejection's own message when the request fails. */
  function ActionFailure(action: string, response: Response): (r: Option<string>)
    ensures r.None? <==> response.Ok()
  {
    match response
    case NetworkError(message) => Some(message)
    case Received(_, statusText, _) =>
      if response.Ok() then None else Some("Failed to " + action + ": " + statusText)
  }

  // Properties of the normalisation.

  /** One layer flattens to its own clips, in their own order. */
  lemma FlattenOne(l: Layer)
    ensures FlattenClips([l]) == LayerClips(l)
  {
  }

  /** Flattening distributes over joining layer lists: the clips of earlier
      layers come first. */
  lemma {:induction false} FlattenAppend(xs: seq<Layer>, ys: seq<Layer>)
    ensures FlattenClips(xs + ys) == FlattenClips(xs) + FlattenClips(ys)
  {
    if xs == [] {
      assert xs + ys == ys;
    } else {
      assert (xs + ys)[1..] == xs[1..] + ys;
      FlattenAppend(xs[1..], ys);
    }
  }

  /** Filtering distributes over joining: relative order is kept. */
  lemma {:induction false} KeepNamedAppend(xs: seq<Clip>, ys: seq<Clip>)
    ensures KeepNamed(xs + ys) == KeepNamed(xs) + KeepNamed(ys)
  {
    if xs == [] {
      assert xs + ys == ys;
    } else {
      assert (xs + ys)[1..] == xs[1..] + ys;
      KeepNamedAppend(xs[1..], ys);
    }
  }

  /** Filtering keeps every clip when all are named and drops them all when none is. */
  lemma {:induction false} KeepNamedAll(clips: seq<Clip>)
    ensures (forall i :: 0 <= i < |clips| ==> HasName(clips[i])) ==> KeepNamed(clips) == clips
    ensures (forall i :: 0 <= i < |clips| ==> !HasName(clips[i])) ==> KeepNamed(clips) == []
  {
    if clips != [] {
      KeepNamedAll(clips[1..]);
    }
  }

  /** The per-layer reference: filter each layer's clips, then join the results in layer order. */
  function NamedPerLayer(layers: seq<Layer>): seq<Clip> {
    if layers == [] then [] else KeepNamed(LayerClips(layers[0])) + NamedPerLayer(layers[1..])
  }

  /** Flatten-then-filter, as the poll computes it, equals filter-each-layer-then-join. */
  lemma {:induction false} FlattenThenFilter(layers: seq<Layer>)
    ensures KeepNamed(FlattenClips(layers)) == NamedPerLayer(layers)
  {
    if layers != [] {
      KeepNamedAppend(LayerClips(layers[0]), FlattenClips(layers[1..]));
      FlattenThenFilter(layers[1..]);
    }
  }

  /** A clip whose name is a string is shown exactly when the string is non-empty. */
  lemma TextNameShown(id: string, s: string)
    ensures HasName(Clip(id, Some(Wrapped(Text(s))))) <==> s != ""
    ensures !HasName(Clip(id, None))
  {
  }

  /** A layer with no `clips` contributes nothing, and an empty `layers`
      array yields an empty, successful clip list. */
  lemma MissingClipsContributeNothing(before: seq<Layer>, after: seq<Layer>, decks: Option<seq<Deck>>)
    ensures FlattenClips(before + [Layer(None)] + after) == FlattenClips(before + after)
    ensures Normalize(Document(Layers([]), decks)) == Success(Snapshot([], decks.GetOr([])))
  {
    FlattenAppend(before + [Layer(None)], after);
    FlattenAppend(before, [Layer(None)]);
    FlattenAppend(before, after);
  }

  /** A successful normalisation stores the response's decks untouched (or
      none when absent), and its clips are exactly the named clips. */
  lemma NormalizeSuccess(doc: Document)
    ensures Normalize(doc).Success? <==> doc.layers.Layers?
    ensures Normalize(doc).Success? ==>
      Normalize(doc).value.decks == (if doc.decks.Some? then doc.decks.value else [])
    ensures Normalize(doc).Success? ==>
      forall c :: c in Normalize(doc).value.clips <==>
        HasName(c) && exists i :: 0 <= i < |doc.layers.list| && c in LayerClips(doc.layers.list[i])
  {
  }

  /** A poll yields a snapshot exactly when the response is ok, parses, and
      has `layers`; otherwise it yields the message the matching branch throws. */
  lemma PollOutcomeCases(response: Response)
    ensures PollOutcome(response).Success? <==>
      response.Ok() && response.body.Json? && response.body.doc.layers.Layers?
    ensures response.Ok() && response.body.Json? ==> PollOutcome(response) == Normalize(response.body.doc)
    ensures response.NetworkError? ==> PollOutcome(response) == Failure(response.message)
    ensures response.Received? && !response.Ok() ==>
      PollOutcome(response) == Failure(HttpErrorMessage(response.status, response.statusText))
    ensures response.Ok() && response.body.Unparseable? ==>
      PollOutcome(response) == Failure(response.body.message)
    ensures response.Ok() && response.body.JsonNull? ==>
      PollOutcome(response) == Failure(NullBodyMessage)
    ensures response.Ok() && response.body.Json? && response.body.doc.layers.NoLayers? ==>
      PollOutcome(response) == Failure(MissingLayersMessage)
    ensures response.Ok() && response.body.Json? && response.body.doc.layers.NullLayers? ==>
      PollOutcome(response) == Failure(NullLayersMessage)
  {
  }

  /** A successful poll of an array of layers stores exactly the named clips
      of each layer, joined in layer order, and the decks or none. */
  lemma PollStoresNamedClips(status: nat, statusText: string, layers: seq<Layer>, decks: Option<seq<Deck>>)
    requires 200 <= status <= 299
    ensures PollOutcome(Received(status, statusText, Json(Document(Layers(layers), decks)))) ==
      Success(Snapshot(NamedPerLayer(layers), decks.GetOr([])))
  {
    FlattenThenFilter(layers);
  }

  /** The HTTP error message names its status: two messages are equal only
      when their statuses and status texts are. */
  lemma HttpErrorMessageInjective(s1: nat, t1: string, s2: nat, t2: string)
    requires HttpErrorMessage(s1, t1) == HttpErrorMessage(s2, t2)
    ensures s1 == s2 && t1 == t2
  {
    var d1, d2 := Decimal.Render(s1), Decimal.Render(s2);
    var m := HttpErrorMessage(s1, t1);
    assert m == "Error: " + d1 + " - " + t1;
    assert m == "Error: " + d2 + " - " + t2;
    assert m[7..] == d1 + (" - " + t1) == d2 + (" - " + t2);
    Decimal.LeadingDigitsOf(d1, " - " + t1);
    Decimal.LeadingDigitsOf(d2, " - " + t2);
    assert |d1| == Decimal.LeadingDigits(m[7..]) == |d2|;
    assert d1 == (d1 + " - " + t1)[..|d1|] == m[7..][..|d1|];
    assert d2 == (d2 + " - " + t2)[..|d2|] == m[7..][..|d2|];
    Decimal.RenderInjective(s1, s2);
    assert t1 == m[10 + |d1|..] == t2;
  }

  /** A 500 response yields the message "Error: 500 - <statusText>". */
  lemma ServerErrorMessage(statusText: string, body: Body)
    ensures PollOutcome(Received(500, statusText, body)) == Failure("Error: 500 - " + statusText)
  {
  }

  /** Example: of clips "Intro" and "" in one layer, only "Intro" is shown. */
  lemma IntroExample()
    ensures
      var intro := Clip("a", Some(Wrapped(Text("Intro"))));
      var blank := Clip("b", Some(Wrapped(Text(""))));
      Normalize(Document(Layers([Layer(Some([intro, blank]))]), Some([]))) == Success(Snapshot([intro], []))
  {
    var intro := Clip("a", Some(Wrapped(Text("Intro"))));
    var blank := Clip("b", Some(Wrapped(Text(""))));
    var layers := [Layer(Some([intro, blank]))];
    assert FlattenClips(layers) == [intro, blank] by {
      assert layers[1..] == [];
    }
    assert [intro, blank][1..] == [blank];
    assert [blank][1..] == [];
    assert !HasName(blank) && HasName(intro);
    assert KeepNamed([blank]) == [];
    assert KeepNamed([intro, blank]) == [intro];
  }
}
