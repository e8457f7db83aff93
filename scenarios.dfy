/** Client runs over the store, the root and a banner, proved from the
    handlers' contracts alone. Each states, for every agent and every
    starting log, what the source does in one interleaving of events. */
module Scenarios {
  import opened JsBuiltins
  import opened Types
  import opened AppStore
  import opened PanelNavigation
  import opened BannerViews
  import opened AgentBanner
  import opened App

  /** Open a banner, send "Hello", press Escape, then let the timer fire:
      the banner is unmounted, yet the reply still lands in the shared log
      right after the user's message. */
  method ReplyAfterClose(agent: Agent, initial: seq<Entry>) returns (logs: seq<Entry>, mounted: Option<string>)
    requires agent.id != ""
    ensures mounted.None?
    ensures logs == initial + [Entry("m1", "Human", agent.name, "Hello", Speech, "t1"),
                               Entry("m2", agent.name, "Human", ReplyMessage(agent.name), Speech, "t2")]
    ensures AgentMessages(logs, agent.name) ==
      AgentMessages(initial, agent.name) + [logs[|initial|], logs[|initial| + 1]]
  {
    var store := new Store(true, Some(agent.id), "chat", All, initial);
    var root := new Root(store);
    root.HandleLoadingComplete();
    assert root.MountedBanner() == Some(agent.id);
    var banner := new Banner(store, agent);
    banner.SetDraft("Hello");
    assert !IsBlank("Hello") by { assert !IsJsWhitespace("Hello"[0]); }
    banner.Send("m1", "t1");
    var afterSend := store.logs;
    banner.KeyDown("Escape", false);
    mounted := root.MountedBanner();
    banner.FireReply("m2", "t2");
    logs := store.logs;
    assert AgentMessages(afterSend, agent.name) ==
      AgentMessages(initial, agent.name) + [logs[|initial|]];
  }

  /** Sending a whitespace-only draft logs nothing and keeps the draft. */
  method BlankSend(agent: Agent, initial: seq<Entry>) returns (logs: seq<Entry>, draft: string, typing: bool)
    ensures logs == initial && draft == " \t" && !typing
  {
    var store := new Store(true, Some(agent.id), "chat", All, initial);
    var banner := new Banner(store, agent);
    banner.SetDraft(" \t");
    assert IsBlank(" \t");
    banner.Send("m1", "t1");
    logs, draft, typing := store.logs, banner.draft, banner.typing;
  }

  /** Two sends followed by one reply: the typing indicator is already off
      although the second reply is still due. */
  method TypingClearedEarly(agent: Agent) returns (typing: bool, pending: nat)
    ensures !typing && pending == 1
  {
    var store := new Store(true, Some(agent.id), "chat", All, []);
    var banner := new Banner(store, agent);
    banner.SetDraft("a");
    assert !IsJsWhitespace("a"[0]);
    banner.Send("m1", "t1");
    banner.SetDraft("b");
    assert !IsJsWhitespace("b"[0]);
    banner.Send("m2", "t2");
    banner.FireReply("m3", "t3");
    typing, pending := banner.typing, banner.pendingReplies;
  }

  /** Ctrl+3 while a banner is open reaches both window listeners. Right
      after the banner mounts, the banner's listener runs first: its effect
      registers when it mounts, and the root's effect then registers again
      because `bannerOpen` changed. So the banner stores 'metrics' and the
      root overwrites it with 'summary'. No panel body is drawn, ArrowLeft
      then does nothing, and ArrowRight brings the banner back to 'chat';
      the root ignores both arrows. */
  method SummaryStrandsBanner(agent: Agent) returns (afterCtrl3: string, afterLeft: string, afterRight: string)
    ensures afterCtrl3 == "summary" && RenderedPanels(afterCtrl3) == {}
    ensures afterLeft == "summary" && afterRight == "chat"
  {
    var store := new Store(true, Some(agent.id), "prompts", All, []);
    var root := new Root(store);
    var banner := new Banner(store, agent);
    RootShortcutMapping("3", true);
    banner.KeyDown("3", true);
    root.HandleKeyDown("3", true);
    afterCtrl3 := store.bannerPanel;
    UnlistedStep("summary");
    banner.KeyDown("ArrowLeft", false);
    root.HandleKeyDown("ArrowLeft", false);
    afterLeft := store.bannerPanel;
    banner.KeyDown("ArrowRight", false);
    root.HandleKeyDown("ArrowRight", false);
    afterRight := store.bannerPanel;
  }

  /** Escape reaching both listeners closes the banner; a further Escape on
      the closed banner changes nothing at the root. */
  method EscapeTwice(agent: Agent) returns (openAfterFirst: bool, openAfterSecond: bool, panel: string)
    ensures !openAfterFirst && !openAfterSecond && panel == "metrics"
  {
    var store := new Store(true, Some(agent.id), "metrics", All, []);
    var root := new Root(store);
    var banner := new Banner(store, agent);
    banner.KeyDown("Escape", false);
    root.HandleKeyDown("Escape", false);
    openAfterFirst := store.bannerOpen;
    root.HandleKeyDown("Escape", false);
    openAfterSecond, panel := store.bannerOpen, store.bannerPanel;
  }

  /** Choosing 'cycle' opens the target picker, and choosing 'all'
      afterwards leaves it open: only its close button hides it. */
  method RoutingPickerSticks(agent: Agent) returns (afterCycle: bool, afterAll: bool, afterClose: bool, mode: RoutingMode)
    ensures afterCycle && afterAll && !afterClose && mode == All
  {
    var store := new Store(true, Some(agent.id), "chat", Bookmark, []);
    var banner := new Banner(store, agent);
    banner.SelectRoutingMode(Cycle);
    afterCycle := banner.showSelector;
    banner.SelectRoutingMode(All);
    afterAll, mode := banner.showSelector, store.routingMode;
    banner.CloseSelector();
    afterClose := banner.showSelector;
  }
}
