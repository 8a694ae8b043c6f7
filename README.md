# Control-Resolume client, modelled in Dafny

The client is a browser page that shows the live state of a media-composition
server (clips grouped in layers, and decks). It polls `GET {baseUrl}/api/v1/composition`
and turns each response into the list of clips to show and the list of decks.
Two buttons send commands: connect a clip (`POST .../clips/by-id/{id}/connect`)
and select a deck (`POST .../decks/by-id/{id}/select`). A settings page edits the
server's IP and port, which are kept in `localStorage`. The application root
builds `baseUrl` from them once, at start-up.

The model has three parts, one per source file:

- `src/CompositionAPIWeb.jsx` is modelled by three modules.
  - `Composition` holds the pure part: the response as an input value, the
    clip normaliser (`flatMap` of `layer.clips || []`, then `filter` on a
    truthy `name.value`) and the message each failing branch throws.
  - `Endpoints` holds the request URLs.
  - `CompositionClient.Client` is a class whose fields are the component's
    state cells: `clips`, `decks`, `loading`, `error` and `activeClip`.
    Each handler is a method. It takes the response its request got as a
    parameter and returns the request it issued.
  - `fetchData` is split at its first `await` (the `fetch`). `BeginPoll`
    sets `loading` and clears `error`. `FinishPoll(response)` applies the
    outcome and clears `loading`; the second `await` (`response.json()`)
    happens inside it, and no state is written between the two. Overlapping polls can therefore be written as interleavings.
    A success in `FinishPoll` does not clear an error that an overlapping
    poll stored, because only poll entry clears `error`. `Poll` is one poll
    with no overlap.
- `src/CustomPortPage.jsx` is modelled by module `CustomPortPage`.
  - The IP pattern is a predicate over characters: split at dots, then each
    group checked against the three alternatives of the regular expression.
  - The port pattern `^\d+$` is `IsPort`.
  - HTML constraint validation of a `required` field with a `pattern` is
    `FieldValid`.
  - The `||` defaults are `InitialIp` and `InitialPort`.
  - `ConfigForm` is a class holding the two field values. `Submit` runs
    `HandleSubmit` only when the browser's validation passes.
  - `localStorage` is the `Storage.LocalStorage` class over a
    `map<string, string>`.
- `src/App.jsx` is modelled by module `App`: the pure `BaseUrl` function,
  and a `Root` class whose `const baseUrl` is set once by its constructor.

The network, timers and storage are not called. Responses are parameters.
Stored items are a map.

## Model

| member | source | states |
|---|---|---|
| `Decimal.Render` | src/CompositionAPIWeb.jsx:21 | the status number becomes a non-empty digit string with no leading zero, and is "0" exactly for 0 |
| `Decimal.ValueOfRender` | src/CompositionAPIWeb.jsx:21 | reading the rendered status back as a decimal gives the status |
| `Composition.Truthy` | src/CompositionAPIWeb.jsx:25 | definition of JavaScript truthiness; characterised by `Composition.TextNameShown` |
| `Composition.HasName` | src/CompositionAPIWeb.jsx:25 | definition of `clip.name && clip.name.value`; characterised by `Composition.TextNameShown` and `Composition.KeepNamed` |
| `Composition.LayerClips` | src/CompositionAPIWeb.jsx:24 | definition of `layer.clips \|\| []`; characterised by `Composition.FlattenOne` and `Composition.MissingClipsContributeNothing` |
| `Composition.Normalize` | src/CompositionAPIWeb.jsx:23-27 | definition of the try-block after `response.json()`; characterised by `Composition.NormalizeSuccess` and `Composition.FlattenThenFilter` |
| `Composition.HttpErrorMessage` | src/CompositionAPIWeb.jsx:21 | definition of the non-ok error message; characterised by `Composition.HttpErrorMessageInjective` |
| `Composition.PollOutcome` | src/CompositionAPIWeb.jsx:18-29 | definition of what one poll yields; characterised by `Composition.PollOutcomeCases` and `Composition.PollStoresNamedClips` |
| `Composition.FlattenOne` | src/CompositionAPIWeb.jsx:24 | one layer flattens to exactly its own `clips \|\| []`, in their own order |
| `Composition.FlattenClips` | src/CompositionAPIWeb.jsx:24 | a clip is in the flattened list iff it is in some layer's `clips || []` |
| `Composition.KeepNamed` | src/CompositionAPIWeb.jsx:25 | the filtered list holds exactly the input clips with a truthy `name.value`, and is no longer than the input |
| `Composition.FlattenAppend` | src/CompositionAPIWeb.jsx:24 | flattening `xs + ys` gives the clips of `xs` followed by those of `ys`, so layer order is kept |
| `Composition.KeepNamedAppend` | src/CompositionAPIWeb.jsx:25 | filtering `xs + ys` gives filtered `xs` followed by filtered `ys`, so order within and across layers is kept |
| `Composition.KeepNamedAll` | src/CompositionAPIWeb.jsx:25 | if all clips are named, the filter keeps the list unchanged; if none is named, it keeps nothing |
| `Composition.FlattenThenFilter` | src/CompositionAPIWeb.jsx:24-25 | flatten-then-filter equals filter-each-layer-then-join in layer order |
| `Composition.TextNameShown` | src/CompositionAPIWeb.jsx:25 | a clip with a string name is shown iff the string is non-empty; a clip without `name` is never shown |
| `Composition.MissingClipsContributeNothing` | src/CompositionAPIWeb.jsx:24 | a layer without `clips` adds nothing wherever it stands; an empty `layers` succeeds with no clips and the given decks |
| `Composition.NormalizeSuccess` | src/CompositionAPIWeb.jsx:23-27 | normalising succeeds iff `layers` is an array (neither missing nor null); decks are the response's own, or empty when absent; clips are exactly the named clips of the layers |
| `Composition.PollOutcomeCases` | src/CompositionAPIWeb.jsx:18-29 | a poll yields a snapshot iff the status is 2xx, the body parses and has `layers`; an ok parsed document yields exactly what `Normalize` gives it; each failure yields its own message: a rejected fetch, a non-ok status, a parse error, a `null` body, a missing `layers` or a null `layers` |
| `Composition.PollStoresNamedClips` | src/CompositionAPIWeb.jsx:18-27 | a 2xx response whose body has an array of layers yields exactly the named clips of each layer, joined in layer order, and the response's decks or none |
| `Composition.HttpErrorMessageInjective` | src/CompositionAPIWeb.jsx:21 | the message `Error: <status> - <statusText>` determines both the status and the status text |
| `Composition.ServerErrorMessage` | src/CompositionAPIWeb.jsx:20-21 | a 500 response yields exactly `Error: 500 - <statusText>` whatever its body |
| `Composition.IntroExample` | src/CompositionAPIWeb.jsx:24-27 | with clips "Intro" and "" in one layer and no decks, only the "Intro" clip is kept |
| `Composition.ActionFailure` | src/CompositionAPIWeb.jsx:45-64 | a failure is logged iff the action response is not ok |
| `Endpoints.StateUrl` | src/CompositionAPIWeb.jsx:19 | definition of the poll URL; its use is stated by `CompositionClient.Client.BeginPoll` |
| `Endpoints.ClipConnectUrl` | src/CompositionAPIWeb.jsx:42 | definition of the connect URL; characterised by `Endpoints.ConnectUrlInjective` |
| `Endpoints.DeckSelectUrl` | src/CompositionAPIWeb.jsx:56 | definition of the select URL; characterised by `Endpoints.SelectUrlInjective` |
| `Endpoints.ClipThumbnailUrl` | src/CompositionAPIWeb.jsx:151 | definition of the thumbnail URL; characterised by `Endpoints.ThumbnailUrlInjective` |
| `Endpoints.ConnectUrlInjective` | src/CompositionAPIWeb.jsx:42 | equal connect URLs under one base URL mean equal clip ids |
| `Endpoints.SelectUrlInjective` | src/CompositionAPIWeb.jsx:56 | equal select URLs under one base URL mean equal deck ids |
| `Endpoints.ThumbnailUrlInjective` | src/CompositionAPIWeb.jsx:151 | equal thumbnail URLs mean equal clip ids, and a thumbnail URL is never a connect URL |
| `Endpoints.ConnectAndSelectDistinct` | src/CompositionAPIWeb.jsx:42-56 | a connect URL is never a select URL under the same base URL |
| `CompositionClient.Client.constructor` | src/CompositionAPIWeb.jsx:7-11 | at mount both lists are empty, `loading` is false, and `error` and `activeClip` are null |
| `CompositionClient.Client.BeginPoll` | src/CompositionAPIWeb.jsx:16-19 | poll entry sets `loading`, clears `error`, requests the state URL, and leaves the lists and the active clip alone |
| `CompositionClient.Client.FinishPoll` | src/CompositionAPIWeb.jsx:20-32 | on success both lists are replaced by the normalised snapshot; on any thrown error both lists stay and `error` holds the message; `loading` ends false and `activeClip` never changes |
| `CompositionClient.Client.Poll` | src/CompositionAPIWeb.jsx:15-33 | a poll with no overlap ends with `loading` false and `error` null iff it succeeded; otherwise `error` is the message and the lists keep their previous values |
| `CompositionClient.Client.ConnectClip` | src/CompositionAPIWeb.jsx:40-52 | posts to the clip's connect URL; only an ok response sets `activeClip` to exactly that id; nothing else changes; a failure logs `Failed to connect clip: <statusText>` or the rejection message |
| `CompositionClient.Client.SelectDeck` | src/CompositionAPIWeb.jsx:54-66 | posts to the deck's select URL and changes no client state; it logs `Failed to select deck: <statusText>` or the rejection message iff the response is not ok |
| `CustomPortPage.Octet` | src/CustomPortPage.jsx:33 | definition of one group of the IP pattern; characterised by `CustomPortPage.OctetIsByte` |
| `CustomPortPage.SplitDots` | src/CustomPortPage.jsx:33 | splits at every dot; characterised by `CustomPortPage.JoinSplit` and `CustomPortPage.SplitJoin` |
| `CustomPortPage.JoinSplit` | src/CustomPortPage.jsx:33 | joining the dot-split parts with dots gives back the string |
| `CustomPortPage.SplitJoin` | src/CustomPortPage.jsx:33 | splitting dot-free parts joined with dots gives back the parts |
| `CustomPortPage.IsIpAddress` | src/CustomPortPage.jsx:33 | definition of the anchored IP pattern; characterised by `CustomPortPage.FourOctetsAccepted` and `CustomPortPage.AcceptedIpIsFourBytes` |
| `CustomPortPage.IsPort` | src/CustomPortPage.jsx:44 | definition of `^\d+$`; characterised by `CustomPortPage.EveryNumberIsAPort` |
| `CustomPortPage.FieldValid` | src/CustomPortPage.jsx:33-34 | definition of `required` plus `pattern` validation; characterised by `CustomPortPage.FormAcceptsIff` |
| `CustomPortPage.FormAccepts` | src/CustomPortPage.jsx:25-47 | definition of form validity; characterised by `CustomPortPage.FormAcceptsIff` |
| `CustomPortPage.InitialIp` | src/CustomPortPage.jsx:5 | definition of the IP field's start value; characterised by `CustomPortPage.InitialValues` |
| `CustomPortPage.InitialPort` | src/CustomPortPage.jsx:6 | definition of the port field's start value; characterised by `CustomPortPage.InitialValues` |
| `CustomPortPage.OctetIsByte` | src/CustomPortPage.jsx:33 | a group matches `25[0-5]\|2[0-4][0-9]\|[01]?[0-9][0-9]?` iff it has 1 to 3 digits and denotes at most 255 |
| `CustomPortPage.OctetExamples` | src/CustomPortPage.jsx:33 | "010", "001" and "255" match the group; "256", "0000" and "" do not |
| `CustomPortPage.FourOctetsAccepted` | src/CustomPortPage.jsx:33 | any four matching groups joined with dots are an accepted IP, and split back into those groups |
| `CustomPortPage.AcceptedIpIsFourBytes` | src/CustomPortPage.jsx:33 | an accepted IP is exactly four dot-joined groups of 1 to 3 digits, each at most 255 |
| `CustomPortPage.AcceptedIpEdges` | src/CustomPortPage.jsx:33 | because the match is anchored, an accepted IP begins and ends with a digit and is 7 to 15 characters long, so leading or trailing spaces or dots are rejected |
| `CustomPortPage.FifthGroupRejected` | src/CustomPortPage.jsx:33 | an accepted IP followed by a dot and anything is rejected |
| `CustomPortPage.ThreeGroupsRejected` | src/CustomPortPage.jsx:33 | three dot-joined groups are rejected |
| `CustomPortPage.FormAcceptsIff` | src/CustomPortPage.jsx:33-45 | the form is accepted iff the IP matches its pattern and the port is a non-empty digit string; an empty field is always rejected |
| `CustomPortPage.EveryNumberIsAPort` | src/CustomPortPage.jsx:44 | there is no range check: every rendered number, "0" and "99999" included, is an accepted port |
| `CustomPortPage.DefaultIpAccepted` | src/CustomPortPage.jsx:5 | the default "192.168.100.10" matches the IP pattern |
| `CustomPortPage.DefaultPortAccepted` | src/CustomPortPage.jsx:6 | the default "8080" matches the port pattern |
| `CustomPortPage.InitialValues` | src/CustomPortPage.jsx:5-6 | each field starts from its stored value when that value is present and non-empty, and from its default otherwise |
| `CustomPortPage.SavedValuesReload` | src/CustomPortPage.jsx:5-14 | after accepted values are saved, the page opens with exactly those values |
| `CustomPortPage.ConfigForm.constructor` | src/CustomPortPage.jsx:5-6 | the fields start from storage with the `\|\|` defaults |
| `CustomPortPage.ConfigForm.SetIp` | src/CustomPortPage.jsx:31 | typing sets the IP field to the typed value |
| `CustomPortPage.ConfigForm.SetPort` | src/CustomPortPage.jsx:42 | typing sets the port field to the typed value |
| `CustomPortPage.ConfigForm.HandleSubmit` | src/CustomPortPage.jsx:9-14 | exactly `serverIP` and `serverPort` are written, with the field values; every other key keeps its value |
| `CustomPortPage.ConfigForm.Submit` | src/CustomPortPage.jsx:25-47 | storage changes iff both fields pass validation, and then exactly as `HandleSubmit` says |
| `Storage.ItemOr` | src/CustomPortPage.jsx:5-6 | definition of `localStorage.getItem(key) \|\| fallback`; characterised by `CustomPortPage.InitialValues` |
| `Storage.LocalStorage.SetItem` | src/CustomPortPage.jsx:13-14 | the key is mapped to the value and every other key is unchanged |
| `App.BaseUrl` | src/App.jsx:10-12 | definition of the base URL; characterised by `App.DefaultBaseUrl`, `App.BaseUrlMatchesSettingsPage` and `App.BaseUrlAfterSave` |
| `App.DefaultBaseUrl` | src/App.jsx:10-12 | with both items missing or empty, the base URL is `http://192.168.100.10:8080` |
| `App.BaseUrlMatchesSettingsPage` | src/App.jsx:10-11 | the root's base URL uses the same IP and port that the settings page starts from |
| `App.BaseUrlAfterSave` | src/App.jsx:10-12 | after accepted values are saved, the base URL is `http://<ip>:<port>` with a valid dotted quad and a digits-only port |
| `App.Root.constructor` | src/App.jsx:9-13 | the base URL is computed once from storage; it is a constant that nothing updates afterwards |

## Left out

- The `fetch` calls, promises and JSON parsing. A response is an input value.
  The body is either a parsed document or the message of the parse error.
- `response.ok` is derived from the status (200 to 299), as the Fetch
  standard defines it. It is not a separate input.
- Documents whose fields have other JSON types than the server sends: a
  `layers` that is a non-array value other than null, a null layer or clip,
  or a `clips` that is not an array. `layers` may be missing, null or an
  array; the other fields are present or absent, and null is treated as
  absent, as `||` and `&&` do.
- The messages of the TypeErrors for a `null` body and a missing or null
  `layers` are engine wording. The model fixes V8's texts as constants.
- JavaScript numbers in `name.value` are integers here. NaN and fractions are
  not modelled.
- Clip and deck ids are kept as the text they render to in URLs.
- The `setInterval`/`useEffect` polling lifecycle and timer clean-up. No
  ordering between overlapping polls is claimed, because the source has none.
- `console.log` of a successful deck selection. A failed action's log line
  is returned as a value.
- Slider settings, `currentSlide`, the JSX rendering and the CSS.
- `navigate('/')`, `window.location.reload()` and route matching.
- The regular-expression engine. The patterns are written as character
  predicates.
- `Composition.ActionFailure`: its contract states only when a failure is
  logged. The exact message texts are stated on `ConnectClip` and
  `SelectDeck`.
