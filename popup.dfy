/**
 * The popup: the list of tabs it offers a volume control for, the clean-up
 * and save of a volume typed or dragged by the user, and the slider / number
 * field pair of one tab's control. The DOM is reduced to the values shown.
 */
module Popup {
  import opened Wrappers
  import opened JsValues
  import opened Volume
  import opened Storage

  /** A `chrome.tabs.Tab` as far as the list needs it; `url` is absent when the browser withholds it. */
  datatype Tab = Tab(id: int, title: string, url: Option<string>)

  /** One control appended to the list: the tab and the volume its slider starts at. */
  datatype TabRow = TabRow(tab: Tab, savedVolume: int)

  predicate StartsWith(s: string, prefix: string) {
    |prefix| <= |s| && s[..|prefix|] == prefix
  }

  /** Browser-internal pages, into which no script can be injected. */
  predicate IsInternal(tab: Tab) {
    tab.url.Some? && (StartsWith(tab.url.value, "chrome://") || StartsWith(tab.url.value, "chrome-extension://"))
  }

  /** The controls the `DOMContentLoaded` handler builds, in tab order. */
  function ListedTabs(tabs: seq<Tab>, allVolumes: map<string, int>): (rows: seq<TabRow>)
    ensures |rows| <= |tabs|
    ensures forall k :: 0 <= k < |rows| ==>
      && rows[k].tab in tabs
      && !IsInternal(rows[k].tab)
      && rows[k].savedVolume == StoredVolume(allVolumes, rows[k].tab.id)
  {
    if tabs == [] then []
    else
      var last := tabs[|tabs| - 1];
      var before := ListedTabs(tabs[..|tabs| - 1], allVolumes);
      if IsInternal(last) then before else before + [TabRow(last, StoredVolume(allVolumes, last.id))]
  }

  /** The list keeps the order of the tabs: listing can be split anywhere. */
  lemma {:induction false} ListedTabsAppend(a: seq<Tab>, b: seq<Tab>, allVolumes: map<string, int>)
    ensures ListedTabs(a + b, allVolumes) == ListedTabs(a, allVolumes) + ListedTabs(b, allVolumes)
  {
    if b != [] {
      var init := b[..|b| - 1];
      assert (a + b)[..|a + b| - 1] == a + init;
      assert (a + b)[|a + b| - 1] == b[|b| - 1];
      ListedTabsAppend(a, init, allVolumes);
    } else {
      assert a + b == a;
    }
  }

  /**
   * Every tab that is not browser-internal gets a control, tabs without a url
   * included, starting at its saved volume or 100.
   */
  lemma {:induction false} ListedTabsComplete(tabs: seq<Tab>, allVolumes: map<string, int>, j: nat)
    requires j < |tabs| && !IsInternal(tabs[j])
    ensures TabRow(tabs[j], StoredVolume(allVolumes, tabs[j].id)) in ListedTabs(tabs, allVolumes)
  {
    if j < |tabs| - 1 {
      var init := tabs[..|tabs| - 1];
      assert init[j] == tabs[j];
      ListedTabsComplete(init, allVolumes, j);
    }
  }

  /** A listed tab starts at its stored volume when its key is present, otherwise at 100. */
  lemma ListedTabVolume(tabs: seq<Tab>, allVolumes: map<string, int>, k: nat)
    requires k < |ListedTabs(tabs, allVolumes)|
    ensures var row := ListedTabs(tabs, allVolumes)[k];
      && (TabKey(row.tab.id) in allVolumes ==> row.savedVolume == allVolumes[TabKey(row.tab.id)])
      && (TabKey(row.tab.id) !in allVolumes ==> row.savedVolume == DefaultVolume)
  {
  }

  /** The loop of the `DOMContentLoaded` handler over the tabs. */
  method BuildTabList(tabs: seq<Tab>, allVolumes: map<string, int>) returns (rows: seq<TabRow>)
    ensures rows == ListedTabs(tabs, allVolumes)
  {
    rows := [];
    for i := 0 to |tabs|
      invariant rows == ListedTabs(tabs[..i], allVolumes)
    {
      assert tabs[..i + 1][..i] == tabs[..i];
      var tab := tabs[i];
      if tab.url.Some? && (StartsWith(tab.url.value, "chrome://") || StartsWith(tab.url.value, "chrome-extension://")) {
        continue;
      }
      var tabKey := TabKey(tab.id);
      var savedVolume := if tabKey in allVolumes then allVolumes[tabKey] else DefaultVolume;
      rows := rows + [TabRow(tab, savedVolume)];
    }
    assert tabs[..|tabs|] == tabs;
  }

  /** `applyAndSaveVolume(volume, tabId)`: clean the volume, save it under `String(tabId)`, return it. */
  method ApplyAndSaveVolume(volume: JsValue, tabId: int, store: SessionStore) returns (vol: int)
    modifies store
    ensures vol == Normalize(volume) && InRange(vol)
    ensures store.entries == old(store.entries)[TabKey(tabId) := vol]
  {
    vol := Normalize(volume);
    store.Set(TabKey(tabId), vol);
  }

  /** One tab's control: the range slider and the number field, as the text they hold. */
  class VolumeControl {
    const tabId: int
    var sliderValue: string
    var inputValue: string

    /** `createTabControlUI(tab, savedVolume)`: both widgets start at the saved volume. */
    constructor (tabId: int, savedVolume: int)
      ensures this.tabId == tabId
      ensures sliderValue == IntToString(savedVolume) && inputValue == IntToString(savedVolume)
    {
      this.tabId := tabId;
      sliderValue := IntToString(savedVolume);
      inputValue := IntToString(savedVolume);
    }

    /** The slider's `input` event: the field follows the slider and the volume is saved. */
    method OnSliderInput(moved: string, store: SessionStore)
      modifies this, store
      ensures sliderValue == moved && inputValue == moved
      ensures store.entries == old(store.entries)[TabKey(tabId) := Normalize(Str(moved))]
    {
      sliderValue := moved;
      inputValue := sliderValue;
      var _ := ApplyAndSaveVolume(Str(sliderValue), tabId, store);
    }

    /** The field's `input` event: the slider follows the field and the volume is saved. */
    method OnInputInput(typed: string, store: SessionStore)
      modifies this, store
      ensures sliderValue == typed && inputValue == typed
      ensures store.entries == old(store.entries)[TabKey(tabId) := Normalize(Str(typed))]
    {
      inputValue := typed;
      sliderValue := inputValue;
      var _ := ApplyAndSaveVolume(Str(inputValue), tabId, store);
    }

    /**
     * The field's `blur` event: both widgets show the cleaned volume that was
     * saved, and showing it again would clean to the same value.
     */
    method OnBlur(store: SessionStore)
      modifies this, store
      ensures var cleaned := Normalize(Str(old(inputValue)));
        && sliderValue == IntToString(cleaned) && inputValue == IntToString(cleaned)
        && store.entries == old(store.entries)[TabKey(tabId) := cleaned]
        && Normalize(Str(inputValue)) == cleaned
    {
      var cleanedVolume := ApplyAndSaveVolume(Str(inputValue), tabId, store);
      sliderValue := IntToString(cleanedVolume);
      inputValue := IntToString(cleanedVolume);
      NormalizeIdempotent(Str(old(inputValue)));
    }
  }
}
