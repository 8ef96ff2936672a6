/**
 * The three parts together: what the service worker sends is what the
 * offscreen document acts on, and a volume saved by the popup reaches the
 * live gain of its tab through the storage change feed.
 */
module Extension {
  import opened Wrappers
  import opened JsValues
  import opened Volume
  import opened Storage
  import opened Messages
  import opened Offscreen
  import opened Background

  /**
   * A volume the popup saves for a captured tab comes back from the change
   * feed as one UPDATE for that very tab, and leaves the tab's gain at the
   * saved value.
   */
  lemma SavedVolumeReachesLiveSession(reg: Registry, tabId: int, volume: JsValue)
    requires tabId in reg.active
    ensures var vol := Normalize(volume);
      var ms := ChangeMessages([StorageChange(TabKey(tabId), Num(vol))], SessionArea);
      && ms == [UpdateOffscreenVolume(tabId, Num(vol))]
      && tabId in AfterMessage(reg, ms[0], None).active
      && AfterMessage(reg, ms[0], None).active[tabId].gainPercent == vol
  {
    var vol := Normalize(volume);
    var change := StorageChange(TabKey(tabId), Num(vol));
    TabKeyParsesBack(tabId);
    assert UpdateFor(change) == [UpdateOffscreenVolume(tabId, Num(vol))];
    assert [change][..0] == [];
    NormalizeIdempotent(volume);
    UpdateSetsCleanedGain(reg, tabId, Num(vol));
  }

  /**
   * A START_CAPTURE whose browser steps all succeed makes the offscreen
   * document register the tab, on the stream id the worker obtained, at the
   * tab's saved volume or 100.
   */
  lemma StartCaptureRegistersSavedGain(reg: Registry, tabId: int, host: HostReplies, stored: map<string, int>, tracks: nat)
    requires StartSucceeds(host)
    ensures var start := StartCaptureTrace(tabId, host, stored)[4].message;
      var r := AfterMessage(reg, start, Some(tracks));
      && tabId in r.active
      && r.active[tabId].streamId == host.streamId.value
      && r.active[tabId].gainPercent == StoredVolume(stored, tabId)
      && (TabKey(tabId) !in stored ==> r.active[tabId].gainPercent == DefaultVolume)
  {
    var start := StartCaptureTrace(tabId, host, stored)[4].message;
    StartReplacesSession(reg, host.streamId.value, tabId, StoredVolume(stored, tabId), Some(tracks));
  }

  /**
   * A volume the popup saves for a tab is the volume a later successful
   * START_CAPTURE of that tab sends, and the gain the tab is registered at.
   */
  lemma SavedVolumeStartsCapture(entries: map<string, int>, tabId: int, volume: JsValue, host: HostReplies, reg: Registry, tracks: nat)
    requires StartSucceeds(host)
    ensures var stored := entries[TabKey(tabId) := Normalize(volume)];
      var send := StartCaptureTrace(tabId, host, stored)[4];
      && send == Send(StartOffscreenAudio(host.streamId.value, tabId, Normalize(volume)))
      && tabId in AfterMessage(reg, send.message, Some(tracks)).active
      && AfterMessage(reg, send.message, Some(tracks)).active[tabId].gainPercent == Normalize(volume)
  {
    var stored := entries[TabKey(tabId) := Normalize(volume)];
    StoredVolumeAfterSave(entries, tabId, tabId, Normalize(volume));
    StartCaptureRegistersSavedGain(reg, tabId, host, stored, tracks);
  }

  /** Closing a tab, even one whose unmute fails, ends its session and tears it down. */
  lemma TabCloseEndsSession(reg: Registry, tabId: int, unmuted: bool)
    ensures var stop := StopCaptureTrace(tabId, unmuted)[1].message;
      var r := AfterMessage(reg, stop, None);
      && tabId !in r.active
      && (tabId in reg.active ==> TornDown(r.released[|r.released| - 1]))
  {
    StopRemovesAndTearsDown(reg, tabId);
  }
}
