/**
 * The service worker: it turns the popup's START_CAPTURE / STOP_CAPTURE into
 * browser steps and offscreen messages, stops capture when a tab closes and
 * relays saved-volume changes to the offscreen document. Every browser call
 * is an abstract step whose outcome is a parameter, and what the worker does
 * is recorded, in order, in an effect log.
 */
module Background {
  import opened Wrappers
  import opened JsValues
  import opened Volume
  import opened Storage
  import opened Messages

  /** One step the worker takes against the browser, with its outcome. */
  datatype Effect =
    | EnsureOffscreenDocument(ok: bool)                      // setupOffscreenDocument()
    | GetMediaStreamId(tabId: int, streamId: Option<string>) // chrome.tabCapture.getMediaStreamId
    | SetMuted(tabId: int, muted: bool, ok: bool)            // chrome.tabs.update(tabId, { muted })
    | ReadStoredVolume(key: string)                          // chrome.storage.session.get([key])
    | Send(message: Message)                                 // chrome.runtime.sendMessage

  /**
   * How the browser answers the steps of one `startCapture`: whether the
   * offscreen document could be set up, the stream id (`None` when
   * `getMediaStreamId` rejects) and whether muting the tab succeeded.
   */
  datatype HostReplies = HostReplies(offscreenReady: bool, streamId: Option<string>, muted: bool)

  predicate StartSucceeds(host: HostReplies) {
    host.offscreenReady && host.streamId.Some? && host.muted
  }

  /**
   * The steps of `startCapture(tabId)`. A rejected step ends the function:
   * the rejection of `getMediaStreamId` is caught and logged, the others
   * reject the whole call.
   */
  function StartCaptureTrace(tabId: int, host: HostReplies, stored: map<string, int>): (trace: seq<Effect>)
    ensures |trace| >= 1 && trace[0] == EnsureOffscreenDocument(host.offscreenReady)
    ensures !host.offscreenReady ==> trace == [EnsureOffscreenDocument(false)]
    ensures host.offscreenReady && host.streamId.None? ==>
      trace == [EnsureOffscreenDocument(true), GetMediaStreamId(tabId, None)]
    ensures host.offscreenReady && host.streamId.Some? && !host.muted ==>
      trace == [EnsureOffscreenDocument(true), GetMediaStreamId(tabId, host.streamId), SetMuted(tabId, true, false)]
    ensures host.streamId.None? ==> forall e | e in trace :: !e.SetMuted? && !e.Send?
    ensures !StartSucceeds(host) ==> forall e | e in trace :: !e.Send? && !e.ReadStoredVolume?
    ensures StartSucceeds(host) ==>
      && |trace| == 5
      && trace[1] == GetMediaStreamId(tabId, host.streamId)
      && trace[2] == SetMuted(tabId, true, true)
      && trace[3] == ReadStoredVolume(TabKey(tabId))
      && trace[4] == Send(StartOffscreenAudio(host.streamId.value, tabId, StoredVolume(stored, tabId)))
  {
    if !host.offscreenReady then [EnsureOffscreenDocument(false)]
    else
      var requested := [EnsureOffscreenDocument(true), GetMediaStreamId(tabId, host.streamId)];
      if host.streamId.None? then requested
      else
        var muted := requested + [SetMuted(tabId, true, host.muted)];
        if !host.muted then muted
        else
          var initialVolume := StoredVolume(stored, tabId);
          muted + [ReadStoredVolume(TabKey(tabId)), Send(StartOffscreenAudio(host.streamId.value, tabId, initialVolume))]
  }

  /** The START message sent for a tab with no saved volume asks for gain 100. */
  lemma StartWithoutSavedVolume(tabId: int, host: HostReplies, stored: map<string, int>)
    requires StartSucceeds(host) && TabKey(tabId) !in stored
    ensures StartCaptureTrace(tabId, host, stored)[4].message.initialVolume == DefaultVolume
  {
  }

  /** What one entry of a batch emits: a message exactly when `parseInt(key, 10)` is a number. */
  function UpdateFor(change: StorageChange): (ms: seq<Message>)
    ensures |ms| <= 1
    ensures ms != [] <==> ParseIntPrefix(change.key).Some?
    ensures ms != [] ==> ms[0] == UpdateOffscreenVolume(ParseIntPrefix(change.key).value, change.newValue)
  {
    match ParseIntPrefix(change.key)
    case Some(tabId) => [UpdateOffscreenVolume(tabId, change.newValue)]
    case None => []
  }

  /** The messages one `onChanged` batch of the session area produces, in batch order. */
  function VolumeUpdates(changes: seq<StorageChange>): (ms: seq<Message>)
    ensures |ms| <= |changes|
    ensures forall i :: 0 <= i < |ms| ==> ms[i].UpdateOffscreenVolume?
  {
    if changes == [] then []
    else VolumeUpdates(changes[..|changes| - 1]) + UpdateFor(changes[|changes| - 1])
  }

  /** The `onChanged` listener: only the session area is relayed. */
  function ChangeMessages(changes: seq<StorageChange>, area: StorageArea): (ms: seq<Message>)
    ensures area == SessionArea ==> ms == VolumeUpdates(changes)
    ensures area != SessionArea ==> ms == []
  {
    if area == SessionArea then VolumeUpdates(changes) else []
  }

  /** Messages of a batch come in the order of its entries: the batch can be split anywhere. */
  lemma {:induction false} VolumeUpdatesAppend(a: seq<StorageChange>, b: seq<StorageChange>)
    ensures VolumeUpdates(a + b) == VolumeUpdates(a) + VolumeUpdates(b)
  {
    if b != [] {
      var init := b[..|b| - 1];
      assert (a + b)[..|a + b| - 1] == a + init;
      assert (a + b)[|a + b| - 1] == b[|b| - 1];
      VolumeUpdatesAppend(a, init);
    } else {
      assert a + b == a;
    }
  }

  /** Every message comes from an entry whose key parses as its tab id, carrying that entry's new value unchanged. */
  lemma {:induction false} VolumeUpdatesSound(changes: seq<StorageChange>, i: nat)
    requires i < |VolumeUpdates(changes)|
    ensures exists j :: 0 <= j < |changes| && UpdateFor(changes[j]) == [VolumeUpdates(changes)[i]]
  {
    var init := changes[..|changes| - 1];
    var last := |changes| - 1;
    if i < |VolumeUpdates(init)| {
      VolumeUpdatesSound(init, i);
      var j :| 0 <= j < |init| && UpdateFor(init[j]) == [VolumeUpdates(init)[i]];
      assert changes[j] == init[j];
    } else {
      assert UpdateFor(changes[last]) == [VolumeUpdates(changes)[i]];
    }
  }

  /** Every entry whose key parses as an integer produces its message. */
  lemma {:induction false} VolumeUpdatesComplete(changes: seq<StorageChange>, j: nat)
    requires j < |changes| && ParseIntPrefix(changes[j].key).Some?
    ensures UpdateOffscreenVolume(ParseIntPrefix(changes[j].key).value, changes[j].newValue) in VolumeUpdates(changes)
  {
    var init := changes[..|changes| - 1];
    if j == |changes| - 1 {
      assert UpdateFor(changes[j]) == [UpdateOffscreenVolume(ParseIntPrefix(changes[j].key).value, changes[j].newValue)];
    } else {
      assert init[j] == changes[j];
      VolumeUpdatesComplete(init, j);
    }
  }

  /**
   * A change of `"capture_7"` emits nothing; a change of `"7"` to 200 emits
   * `UPDATE_OFFSCREEN_VOLUME {tabId: 7, newVolume: 200}`.
   */
  lemma ChangeFeedExample()
    ensures ChangeMessages([StorageChange("capture_7", Bool(true)), StorageChange("7", Num(200))], SessionArea)
         == [UpdateOffscreenVolume(7, Num(200))]
  {
    var batch := [StorageChange("capture_7", Bool(true)), StorageChange("7", Num(200))];
    CaptureFlagKeyIsNaN(7);
    TabKeyParsesBack(7);
    assert TabKey(7) == "7";
    assert "capture_" + IntToString(7) == "capture_7";
    assert batch == [batch[0]] + [batch[1]];
    VolumeUpdatesAppend([batch[0]], [batch[1]]);
    assert [batch[1]][..0] == [];
    assert [batch[0]][..0] == [];
  }

  /** Each message as the `Send` effect that posts it. */
  function Sends(ms: seq<Message>): (effects: seq<Effect>)
    ensures |effects| == |ms| && forall i :: 0 <= i < |ms| ==> effects[i] == Send(ms[i])
  {
    seq(|ms|, i requires 0 <= i < |ms| => Send(ms[i]))
  }

  /** One more entry of a batch appends what that entry emits. */
  lemma SendsOneMore(changes: seq<StorageChange>, i: nat)
    requires i < |changes|
    ensures Sends(VolumeUpdates(changes[..i + 1])) == Sends(VolumeUpdates(changes[..i])) + Sends(UpdateFor(changes[i]))
  {
    assert changes[..i + 1][..i] == changes[..i];
    var before := VolumeUpdates(changes[..i]);
    assert VolumeUpdates(changes[..i + 1]) == before + UpdateFor(changes[i]);
  }

  /** `stopCapture(tabId)`: the unmute is attempted, its failure swallowed, and STOP is always sent. */
  function StopCaptureTrace(tabId: int, unmuted: bool): seq<Effect> {
    [SetMuted(tabId, false, unmuted), Send(StopOffscreenAudio(tabId))]
  }

  /** The service worker, reduced to the log of what it has done. */
  class Coordinator {
    var log: seq<Effect>

    constructor ()
      ensures log == []
    {
      log := [];
    }

    method StartCapture(tabId: int, host: HostReplies, store: SessionStore)
      modifies this
      ensures log == old(log) + StartCaptureTrace(tabId, host, store.entries)
    {
      log := log + [EnsureOffscreenDocument(host.offscreenReady)];
      if !host.offscreenReady {
        return;
      }
      log := log + [GetMediaStreamId(tabId, host.streamId)];
      if host.streamId.None? {
        return;
      }
      log := log + [SetMuted(tabId, true, host.muted)];
      if !host.muted {
        return;
      }
      var tabKey := TabKey(tabId);
      log := log + [ReadStoredVolume(tabKey)];
      var initialVolume := if tabKey in store.entries then store.entries[tabKey] else DefaultVolume;
      log := log + [Send(StartOffscreenAudio(host.streamId.value, tabId, initialVolume))];
    }

    method StopCapture(tabId: int, unmuted: bool)
      modifies this
      ensures log == old(log) + StopCaptureTrace(tabId, unmuted)
      ensures log[|log| - 1] == Send(StopOffscreenAudio(tabId))
    {
      log := log + [SetMuted(tabId, false, unmuted)];
      log := log + [Send(StopOffscreenAudio(tabId))];
    }

    /** The `chrome.runtime.onMessage` listener. */
    method HandleMessage(message: Message, host: HostReplies, unmuted: bool, store: SessionStore)
      modifies this
      ensures message.StartCapture? ==> log == old(log) + StartCaptureTrace(message.tabId, host, store.entries)
      ensures message.StopCapture? ==> log == old(log) + StopCaptureTrace(message.tabId, unmuted)
      ensures !message.StartCapture? && !message.StopCapture? ==> log == old(log)
    {
      if message.StartCapture? {
        StartCapture(message.tabId, host, store);
      } else if message.StopCapture? {
        StopCapture(message.tabId, unmuted);
      }
    }

    /** The `chrome.tabs.onRemoved` listener: a closed tab's capture is stopped. */
    method OnTabRemoved(tabId: int, unmuted: bool)
      modifies this
      ensures log == old(log) + StopCaptureTrace(tabId, unmuted)
    {
      StopCapture(tabId, unmuted);
    }

    /** The `chrome.storage.onChanged` listener. */
    method OnStorageChanged(changes: seq<StorageChange>, area: StorageArea)
      modifies this
      ensures log == old(log) + Sends(ChangeMessages(changes, area))
    {
      if area != SessionArea {
        return;
      }
      for i := 0 to |changes|
        invariant log == old(log) + Sends(VolumeUpdates(changes[..i]))
      {
        var change := changes[i];
        SendsOneMore(changes, i);
        var tabId := ParseIntPrefix(change.key);
        if tabId.Some? {
          log := log + [Send(UpdateOffscreenVolume(tabId.value, change.newValue))];
        }
      }
      assert changes[..|changes|] == changes;
    }
  }
}
