/** The root component (src/App.tsx): its own keydown listener, the
    loading flag, and the condition under which the banner is mounted. */
module App {
  import opened JsBuiltins
  import opened Types
  import opened AppStore
  import opened PanelNavigation

  /** The root listener's panel list, indexed by the digit minus one. Its
      third value is not a `BannerPanel`. */
  const RootPanels: seq<string> := ["metrics", "chat", "summary"]

  /** The digit keys the root listener reacts to with Ctrl held. */
  const DigitKeys: seq<string> := ["1", "2", "3"]

  /** `parseInt(key)` for a single decimal digit. */
  function DigitValue(key: string): (r: int)
    requires |key| == 1
    ensures '0' <= key[0] <= '9' ==> 0 <= r <= 9
    ensures key in DigitKeys ==> r == IndexOf(DigitKeys, key) + 1
  {
    DigitKeyIndexOf(key);
    (key[0] as int) - ('0' as int)
  }

  /** `['1', '2', '3'].indexOf(key)` for each key. */
  lemma DigitKeyIndexOf(key: string)
    ensures IndexOf(DigitKeys, key) ==
      if key == "1" then 0 else if key == "2" then 1 else if key == "3" then 2 else -1
  {
    assert DigitKeys[0] == "1" && DigitKeys[1] == "2" && DigitKeys[2] == "3";
    if key !in DigitKeys {
    } else if key == "1" {
    } else if key == "2" {
      assert DigitKeys[..1] == ["1"];
    } else {
      assert DigitKeys[..2] == ["1", "2"];
    }
  }

  /** The panel the root listener stores for a keydown, if any: only Ctrl
      with '1', '2' or '3' stores one, `RootPanels[parseInt(key) - 1]`. */
  function RootShortcut(key: string, ctrl: bool): (r: Option<string>)
    ensures r.Some? <==> ctrl && key in DigitKeys
    ensures r.Some? ==> r.value == RootPanels[IndexOf(DigitKeys, key)]
  {
    if ctrl && key in DigitKeys then
      var i := DigitValue(key) - 1;
      if 0 <= i < |RootPanels| then Some(RootPanels[i]) else None
    else None
  }

  /** Ctrl+1, Ctrl+2 and Ctrl+3 store 'metrics', 'chat' and 'summary'; every
      other key, and every digit pressed without Ctrl, stores nothing. */
  lemma RootShortcutMapping(key: string, ctrl: bool)
    ensures RootShortcut("1", true) == Some("metrics")
    ensures RootShortcut("2", true) == Some("chat")
    ensures RootShortcut("3", true) == Some("summary")
    ensures RootShortcut(key, ctrl).Some? <==> ctrl && key in DigitKeys
  {
    assert DigitKeys[0] == "1" && DigitKeys[1] == "2" && DigitKeys[2] == "3";
    if ctrl && key in DigitKeys {
      assert key == "1" || key == "2" || key == "3";
    }
  }

  /** The panel stored after the root listener handles a keydown: the
      digit's entry of the root's list, or the old panel for any other key. */
  function PanelAfterRootKey(p: string, key: string, ctrl: bool): (r: string)
    ensures ctrl && key in DigitKeys ==> r == RootPanels[IndexOf(DigitKeys, key)]
    ensures !(ctrl && key in DigitKeys) ==> r == p
  {
    match RootShortcut(key, ctrl)
    case Some(q) => q
    case None => p
  }

  /** Ctrl+3 at the root stores 'summary', a value none of the banner's
      panels answers to, whatever the stored panel was. */
  lemma RootCtrl3LeavesPanels(p: string)
    ensures PanelAfterRootKey(p, "3", true) == "summary"
    ensures !IsBannerPanel(PanelAfterRootKey(p, "3", true))
  {
    RootShortcutMapping("3", true);
  }

  /** The two listeners disagree on Ctrl+1 (the banner's means 'chat', the
      root's 'metrics'), so when both handle the same keydown the stored
      panel depends on which runs last. */
  lemma Ctrl1OrderDependent(p: string)
    ensures PanelAfterBannerKey(PanelAfterRootKey(p, "1", true), "1", true) == "chat"
    ensures PanelAfterRootKey(PanelAfterBannerKey(p, "1", true), "1", true) == "metrics"
  {
    RootShortcutMapping("1", true);
  }

  /** The same holds for Ctrl+3 (the banner's means 'metrics', the root's
      'summary'): 'summary' is stored only when the root's listener runs
      last. */
  lemma Ctrl3OrderDependent(p: string)
    ensures PanelAfterRootKey(PanelAfterBannerKey(p, "3", true), "3", true) == "summary"
    ensures PanelAfterBannerKey(PanelAfterRootKey(p, "3", true), "3", true) == "metrics"
  {
    RootShortcutMapping("3", true);
  }

  /** A digit pressed without Ctrl, or a Ctrl key other than '1'-'3', never
      changes the panel at the root. */
  lemma RootInertKeys(p: string, key: string, ctrl: bool)
    requires !ctrl || key !in DigitKeys
    ensures PanelAfterRootKey(p, key, ctrl) == p
  {
  }

  /** The banner's mount gate: the root renders it only after loading, only
      while the store says it is open, and only for a truthy agent id, which
      in JavaScript excludes the empty string as well as null. The banner
      then receives that id. */
  function MountedBannerId(isLoading: bool, bannerOpen: bool, bannerAgentId: Option<string>): (r: Option<string>)
    ensures r.Some? <==> !isLoading && bannerOpen && bannerAgentId.Some? && bannerAgentId.value != ""
    ensures r.Some? ==> r == bannerAgentId
  {
    if !isLoading && bannerOpen then
      match bannerAgentId
      case Some(id) => if id != "" then Some(id) else None
      case None => None
    else None
  }

  class Root {
    const store: Store
    var isLoading: bool

    /** The root starts in the loading state. */
    constructor (store: Store)
      ensures this.store == store && isLoading
    {
      this.store := store;
      isLoading := true;
    }

    /** `handleLoadingComplete`, the only writer of the loading flag. */
    method HandleLoadingComplete()
      modifies this`isLoading
      ensures !isLoading
    {
      isLoading := false;
    }

    /** The root window keydown listener: it runs whether or not a banner is
        mounted. Escape closes only an open banner, so on a closed one it
        does nothing; the loading flag is never touched. */
    method HandleKeyDown(key: string, ctrl: bool)
      modifies store`bannerPanel, store`bannerOpen
      ensures store.bannerPanel == PanelAfterRootKey(old(store.bannerPanel), key, ctrl)
      ensures store.bannerOpen == (old(store.bannerOpen) && key != "Escape")
      ensures isLoading == old(isLoading)
    {
      if ctrl && key in DigitKeys {
        var panelIndex := DigitValue(key) - 1;
        if 0 <= panelIndex < |RootPanels| {
          store.SetBannerPanel(RootPanels[panelIndex]);
        }
      }
      if key == "Escape" && store.bannerOpen {
        store.CloseBanner();
      }
    }

    /** The id of the banner currently mounted, if one is. */
    function MountedBanner(): (r: Option<string>)
      reads this, store
      ensures r.Some? <==> !isLoading && store.bannerOpen && store.bannerAgentId.Some? && store.bannerAgentId.value != ""
      ensures r.Some? ==> r == store.bannerAgentId
    {
      MountedBannerId(isLoading, store.bannerOpen, store.bannerAgentId)
    }
  }
}
