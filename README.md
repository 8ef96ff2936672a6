# Per-tab volume booster — a Dafny model

This project models the core of a Chrome extension that lets the user set
the volume of each browser tab between 0 % and 500 %. Three scripts make up
that core:

- **offscreen.js** is the offscreen document. It keeps the registry
  `activeStreams` from tab id to one audio session: the captured stream,
  its AudioContext and a gain node. It handles three messages:
  `START_OFFSCREEN_AUDIO`, `UPDATE_OFFSCREEN_VOLUME` and `STOP_OFFSCREEN_AUDIO`.
- **background.js** is the service worker. `startCapture` obtains a stream
  id, mutes the tab, reads the tab's saved volume and sends START.
  `stopCapture` unmutes the tab and sends STOP, and closing a tab triggers
  `stopCapture`. It also relays changes of saved volumes in
  `chrome.storage.session` to the offscreen document as UPDATE messages.
- **popup.js** lists the tabs the user can control. It cleans a typed or
  dragged volume and saves it under the key `String(tabId)`.

The modules:

| module | file | what it holds |
|---|---|---|
| `Wrappers` | wrappers.dfy | `Option`; `None` plays the part of NaN |
| `JsValues` | js_values.dfy | `String(n)` for integers and `parseInt(x, 10)`, with its round trip |
| `Volume` | volume.dfy | the shared clean-up rule: parse, default to 100, clamp to [0, 500] |
| `Storage` | storage.dfy | the session store, the tab key and the saved-volume lookup |
| `Messages` | messages.dfy | the runtime messages |
| `Offscreen` | offscreen.dfy | the registry as a class (`AudioEngine`), and each message as a pure transition of a `Registry` value with its lemmas |
| `Background` | background.dfy | the worker as a class (`Coordinator`) that appends every browser step to an effect log, plus the traces and the change filter as functions |
| `Popup` | popup.dfy | the tab-list loop, `ApplyAndSaveVolume` and one tab's slider/field pair as a class |
| `Extension` | extension.dfy | end-to-end lemmas that deliver the worker's messages to the offscreen registry |

Browser calls are parameters that say how each call turned out:
`getMediaStreamId`, `chrome.tabs.update`, the offscreen-document setup and
`getUserMedia` (given as the number of tracks of the stream, or `None`). Each
message is handled as one atomic step.

Three behaviours of the code that the model keeps as written:

- The START path does not clamp the saved volume. A session starts at
  whatever integer is stored. Only `updateVolume` and the popup clean a
  volume.
- When `getUserMedia` fails on a START for a tab that already had a
  session, the old session has already been torn down. The tab then has no
  session at all (`StartReplacesSession`).
- The stored volume is never removed when capture stops.

## Model

| member | source | states |
|---|---|---|
| `JsValues.TrimStartSpec` | popup.js:46 | `parseInt` skips exactly the leading JavaScript white space (WhiteSpace and LineTerminator code points) before the first other character |
| `JsValues.LeadingDigitsSpec` | popup.js:46 | the digits `parseInt` reads form the longest run of decimal digits at the front of the string |
| `JsValues.NatToDigits` | popup.js:62 | `String(n)` for `n >= 0` is a non-empty run of decimal digits whose value is `n`, with no leading zero when `n > 0` |
| `JsValues.ParseIntOfDecimal` | background.js:86-89 | `parseInt(String(n) + rest, 10) == n` whenever `rest` does not start with a digit, so `"7abc"` reads as 7 |
| `JsValues.ParseIntRoundTrip` | background.js:89 | `parseInt(String(n), 10) == n` for every integer `n`, negative ones included |
| `JsValues.ParseIntSkipsWhitespace` | offscreen.js:56 | leading white space never changes what `parseInt` reads |
| `JsValues.ParseIntNaN` | popup.js:46-47 | input with no digit after the blanks and an optional sign is NaN |
| `JsValues.CaptureFlagKeyIsNaN` | background.js:85-86 | a key `"capture_<n>"` is NaN for every `n`, and so is `parseInt(undefined)` |
| `Volume.Normalize` | popup.js:46-49 | the cleaned volume is always in [0, 500]. A NaN input gives 100. A parsed value in range is kept, one below 0 gives 0, and one above 500 gives 500 |
| `Volume.NormalizeKeepsInRange` | offscreen.js:56-59 | a volume already in [0, 500] comes out unchanged, whether it is given as a number or as its decimal text |
| `Volume.NormalizeIdempotent` | popup.js:46-49 | cleaning a cleaned volume again, as a number or as text, gives the same volume |
| `Volume.NormalizeText` | popup.js:46 | text made of any run of JavaScript white space, the decimal text of an integer and a tail not starting with a digit is cleaned as that integer |
| `Volume.NormalizeNonNumeric` | popup.js:7 | `undefined` and `"abc"` are cleaned to `DEFAULT_VOLUME` (100) |
| `Storage.TabKeyParsesBack` | popup.js:62 | the key `String(tabId)` that a volume is saved under parses back to `tabId` |
| `Storage.TabKeyInjective` | popup.js:61-62 | two different tabs never share a storage key |
| `Storage.StoredVolume` | background.js:54-56 | the saved volume is the stored value when the key `String(tabId)` is present, otherwise 100. It is not clamped |
| `Storage.StoredVolumeAfterSave` | popup.js:62 | after saving `vol` under `String(tabId)`, that tab's saved volume is `vol`, and every other tab's saved volume is what it was, because distinct tabs have distinct keys |
| `Storage.SessionStore.Set` | popup.js:62 | the store maps the key to the value and keeps every other entry |
| `Offscreen.TearDown` | offscreen.js:68-71 | a torn-down session has every track ended and its context closed, and keeps its stream id, gain and track count |
| `Offscreen.StartReplacesSession` | offscreen.js:11-16 | START for a tab tears down that tab's earlier session and appends it to `released`, so it is not orphaned. The tab then has a session exactly when the stream was obtained, with gain equal to `initialVolume` as sent. Other tabs are untouched |
| `Offscreen.StartAudioFailureKeepsRegistry` | offscreen.js:26-38 | when `getUserMedia` rejects, `startAudio` leaves the registry exactly as it was |
| `Offscreen.UpdateAbsentIsNoop` | offscreen.js:53-54 | an update for a tab without a session leaves the whole registry unchanged |
| `Offscreen.UpdateSetsCleanedGain` | offscreen.js:56-61 | an update sets the tab's gain to the cleaned volume, which lies in [0, 500] and is 100 for NaN input. The rest of that session, the other tabs and `released` stay the same |
| `Offscreen.UpdateLastWriteWins` | offscreen.js:52-63 | two updates of one tab in a row leave the second value |
| `Offscreen.StopRemovesAndTearsDown` | offscreen.js:65-73 | stop removes the tab and appends its session to `released`, torn down. Other tabs are untouched. On an absent tab, stop changes nothing |
| `Offscreen.StopIdempotent` | offscreen.js:66-67 | stopping a tab twice equals stopping it once |
| `Offscreen.MessagePreservesConsistency` | offscreen.js:10-22 | after every message, live sessions hold an open context and released sessions are fully torn down |
| `Offscreen.SessionsConserved` | offscreen.js:10-22 | no session is lost. Live plus released sessions grow by one exactly when a START obtains its stream, and stay the same otherwise |
| `Offscreen.StopTracks` | offscreen.js:69 | stopping the stream's tracks keeps their number and ends every one |
| `Offscreen.AudioEngine.constructor` | offscreen.js:8 | the registry starts empty |
| `Offscreen.AudioEngine.StartAudio` | offscreen.js:24-50 | the registry becomes `AfterStartAudio` of the old one and stays consistent |
| `Offscreen.AudioEngine.UpdateVolume` | offscreen.js:52-63 | the registry becomes `AfterUpdate` of the old one |
| `Offscreen.AudioEngine.StopAudio` | offscreen.js:65-73 | the registry becomes `AfterStop` of the old one; each track is stopped by a loop |
| `Offscreen.AudioEngine.HandleMessage` | offscreen.js:10-22 | the listener stops an existing session before a START, and ignores unknown message types |
| `Background.StartCaptureTrace` | background.js:38-65 | `startCapture` first sets up the offscreen document. The first failed step ends it: a failed setup leaves only that step, a failed stream id leaves setup and the request (no mute, nothing sent), and a failed mute leaves setup, request and mute (no read, nothing sent). On success the steps are, in order: get the stream id, mute, read `String(tabId)`, send START with the same tab id and stream id and the saved volume |
| `Background.StartWithoutSavedVolume` | background.js:54-56 | a tab with no saved volume is started at 100 |
| `Background.UpdateFor` | background.js:86-92 | a change entry emits one message exactly when `parseInt(key, 10)` is a number. The message carries that number as its tab id and the entry's `newValue` unchanged |
| `Background.VolumeUpdates` | background.js:84-93 | a batch emits at most one message per entry, and each one is an `UPDATE_OFFSCREEN_VOLUME` |
| `Background.ChangeMessages` | background.js:82-95 | changes in the `session` area emit exactly the batch's `VolumeUpdates`; changes in any other area emit nothing |
| `Background.VolumeUpdatesAppend` | background.js:84-93 | messages follow the order of the batch entries, because the batch can be split anywhere |
| `Background.VolumeUpdatesSound` | background.js:86-91 | every emitted message is the one some entry of the batch emits |
| `Background.VolumeUpdatesComplete` | background.js:86-91 | every entry whose key parses emits its message |
| `Background.ChangeFeedExample` | background.js:84-91 | `"capture_7"` emits nothing, and `"7"` with value 200 emits `{tabId: 7, newVolume: 200}` |
| `Background.Coordinator.StartCapture` | background.js:38-65 | the log grows by exactly `StartCaptureTrace`, with the steps taken one by one and early returns |
| `Background.Coordinator.StopCapture` | background.js:67-78 | the unmute is attempted and STOP is always sent last, even when the unmute fails |
| `Background.Coordinator.HandleMessage` | background.js:27-36 | START_CAPTURE runs `startCapture`, STOP_CAPTURE runs `stopCapture`, and anything else changes nothing |
| `Background.Coordinator.OnTabRemoved` | background.js:99-101 | closing a tab runs `stopCapture` for that tab |
| `Background.Coordinator.OnStorageChanged` | background.js:82-95 | the listener's loop appends exactly the sends of `ChangeMessages` |
| `Popup.ListedTabs` | popup.js:160-172 | every listed tab is one of the tabs and is not a `chrome://` or `chrome-extension://` page. Its row starts at the saved volume. There are no more rows than tabs |
| `Popup.ListedTabsAppend` | popup.js:160-172 | the list keeps the order of the tabs |
| `Popup.ListedTabsComplete` | popup.js:162-171 | every tab that is not internal is listed, tabs without a url included |
| `Popup.ListedTabVolume` | popup.js:166-167 | a listed tab starts at its stored value if its key is present, otherwise at 100 |
| `Popup.BuildTabList` | popup.js:160-172 | the `DOMContentLoaded` loop, with its `continue`, builds exactly `ListedTabs` |
| `Popup.ApplyAndSaveVolume` | popup.js:44-64 | returns the cleaned volume, which is in [0, 500], and saves that same value under `String(tabId)` |
| `Popup.VolumeControl.constructor` | popup.js:98-108 | slider and field both start at the saved volume |
| `Popup.VolumeControl.OnSliderInput` | popup.js:123-126 | the field follows the slider, and the cleaned slider value is saved |
| `Popup.VolumeControl.OnInputInput` | popup.js:129-132 | the slider follows the field, and the cleaned field value is saved |
| `Popup.VolumeControl.OnBlur` | popup.js:135-140 | slider and field both show the cleaned volume that was saved, and that value cleans to itself |
| `Extension.SavedVolumeReachesLiveSession` | background.js:84-91 | a volume the popup saves for a captured tab comes back from the change feed as one UPDATE for that tab. Delivered, it leaves the tab's gain at the saved value |
| `Extension.StartCaptureRegistersSavedGain` | background.js:54-64 | the START of a successful `startCapture`, once delivered, registers the tab on the stream id that was obtained, at its saved volume or 100 |
| `Extension.SavedVolumeStartsCapture` | popup.js:62 | a volume the popup saves for a tab is the volume a later successful `startCapture` of that tab sends in START, and, once delivered, the gain the tab is registered at |
| `Extension.TabCloseEndsSession` | background.js:99-101 | the STOP sent when a tab closes, once delivered, removes the tab's session and tears it down, whether or not the unmute succeeded |

## Left out

- Web Audio graph construction (`AudioContext`, `createMediaStreamSource`, `createGain`, `connect`): foreign browser objects. A session keeps only a stream id, which stands in for the `MediaStream` the source holds, its tracks, its integer gain percent and a closed flag.
- The float gain multiplier `vol / 100`: only the integer percent is modelled.
- The `aumentarVolume` function injected into the page and the `chrome.scripting.executeScript` call in `applyAndSaveVolume` (popup.js:15-36, popup.js:52-59). These are foreign page code, and the call's failure is swallowed.
- `setupOffscreenDocument` and its `creatingOffscreen` latch (background.js:8-24): only its outcome is modelled, as the `offscreenReady` step. The latch exists to de-duplicate concurrent creation, which the atomic model has no room for. As written, the latch is not reset when creation rejects, so later starts would await the same rejected promise. That is not modelled either.
- Async interleaving: each message and each listener call is one atomic step. The race between two START messages for one tab, which the unawaited `startAudio` allows, is out of scope.
- Message transport: `chrome.runtime.sendMessage` is recorded as a `Send` effect. The `Extension` lemmas deliver a sent message straight to the offscreen registry. The `return true` channel convention is omitted.
- The generation of `onChanged` events by `chrome.storage.session.set`: the end-to-end lemma starts from the change entry. `oldValue`, which the listener ignores, is not modelled.
- The storage read in `startCapture` always succeeds, and stored values are integers. The only writer, `applyAndSaveVolume`, stores cleaned integers.
- Property enumeration order of the `changes` object (`Object.entries`): a batch is taken as the sequence of entries in the order the listener visits them.
- JavaScript numbers are modelled as unbounded integers. Fractions, `-0`, `NaN` as a stored value and exponent renderings such as `String(1e21)` are not modelled.
- JavaScript strings are UTF-16. Here they are sequences of Unicode scalar values, and white space is recognised by code point.
- DOM details: the title and icon fallbacks of `createTabControlUI`, the `if (!container) return` guard, the browser's sanitisation of input values (a range input clamps, and an empty value such as a number field's invalid text `""` sets the slider to its midpoint 250, whereas the model copies the field's text to the slider as is), and `console` logging.
- Tracks that end on their own, for example when the user stops sharing from the browser's indicator.
