/**
 * `chrome.storage.session` as the extension uses it: an opaque key/value store
 * whose keys are tab ids written as decimal text and whose values are gain
 * percents, and the change batches it delivers to `onChanged` listeners.
 */
module Storage {
  import opened Wrappers
  import opened JsValues
  import opened Volume

  datatype StorageArea = LocalArea | SyncArea | SessionArea | ManagedArea

  /** One entry of an `onChanged` batch; `newValue` is `Undefined` for a removed key. */
  datatype StorageChange = StorageChange(key: string, newValue: JsValue)

  /** `String(tabId)`, the key a tab's volume is saved under. */
  function TabKey(tabId: int): string {
    IntToString(tabId)
  }

  /** The key a tab's volume is saved under reads back, with `parseInt`, as that tab. */
  lemma TabKeyParsesBack(tabId: int)
    ensures ParseIntPrefix(TabKey(tabId)) == Some(tabId)
  {
    ParseIntRoundTrip(tabId);
  }

  /** Different tabs never share a key. */
  lemma TabKeyInjective(a: int, b: int)
    requires TabKey(a) == TabKey(b)
    ensures a == b
  {
    TabKeyParsesBack(a);
    TabKeyParsesBack(b);
  }

  /**
   * The saved volume of a tab: the stored value when its key is present,
   * otherwise `DefaultVolume`. Not clamped.
   */
  function StoredVolume(entries: map<string, int>, tabId: int): (vol: int)
    ensures TabKey(tabId) in entries ==> vol == entries[TabKey(tabId)]
    ensures TabKey(tabId) !in entries ==> vol == DefaultVolume
  {
    if TabKey(tabId) in entries then entries[TabKey(tabId)] else DefaultVolume
  }

  /**
   * Saving a tab's volume under its key is what that tab reads back, and
   * no other tab's saved volume changes.
   */
  lemma StoredVolumeAfterSave(entries: map<string, int>, tabId: int, other: int, vol: int)
    ensures StoredVolume(entries[TabKey(tabId) := vol], tabId) == vol
    ensures other != tabId ==> StoredVolume(entries[TabKey(tabId) := vol], other) == StoredVolume(entries, other)
  {
    if other != tabId && TabKey(other) == TabKey(tabId) {
      TabKeyInjective(other, tabId);
    }
  }

  /** The session storage area. */
  class SessionStore {
    var entries: map<string, int>

    constructor ()
      ensures entries == map[]
    {
      entries := map[];
    }

    /** `chrome.storage.session.set({[key]: value})`. */
    method Set(key: string, value: int)
      modifies this
      ensures entries == old(entries)[key := value]
    {
      entries := entries[key := value];
    }
  }
}
