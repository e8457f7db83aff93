/** The banner component's handlers (src/components/ui-custom/AgentBanner.tsx)
    as a class: its own state (chat draft, typing indicator, routing-picker
    visibility, swipe start point) plus a reference to the shared store it
    writes (active panel, routing mode, communication log, and the open flag
    through `onClose`, which the root component binds to the store's
    `closeBanner`). */
module AgentBanner {
  import opened JsBuiltins
  import opened Types
  import opened AppStore
  import opened PanelNavigation
  import opened BannerViews

  /** The text of the simulated reply: a fixed prefix, the agent's name and
      a fixed suffix, so the name can be read back out of it. */
  function ReplyMessage(name: string): (r: string)
    ensures |r| == |name| + 42
    ensures r[..14] == "Response from " && r[14..14 + |name|] == name
    ensures r[14 + |name|..] == ": Processing your request..."
  {
    "Response from " + name + ": Processing your request..."
  }

  /** Different agents' replies are different texts. */
  lemma ReplyMessageInjective(a: string, b: string)
    requires ReplyMessage(a) == ReplyMessage(b)
    ensures a == b
  {
    assert a == ReplyMessage(a)[14..14 + |a|];
  }

  class Banner {
    const store: Store
    const agent: Agent
    var draft: string
    var typing: bool
    var showSelector: bool
    var swipeStartX: int
    var swipeStartY: int
    /** How many scheduled replies have not fired yet. Each send schedules
        one; nothing cancels them. */
    var pendingReplies: nat

    /** The typing indicator is only ever on while a reply is still due. */
    ghost predicate Valid()
      reads this
    {
      typing ==> pendingReplies > 0
    }

    /** Mounting a banner: its local state starts empty; the shared panel,
        mode and log are whatever the store holds. */
    constructor (store: Store, agent: Agent)
      ensures this.store == store && this.agent == agent
      ensures draft == "" && !typing && !showSelector
      ensures swipeStartX == 0 && swipeStartY == 0 && pendingReplies == 0
      ensures Valid()
    {
      this.store, this.agent := store, agent;
      draft, typing, showSelector := "", false, false;
      swipeStartX, swipeStartY, pendingReplies := 0, 0, 0;
    }

    /** `goToPanel`, used by the chevrons, the arrow keys and swipes. */
    method GoToPanel(d: Direction)
      modifies store`bannerPanel
      ensures store.bannerPanel == Step(old(store.bannerPanel), d)
      ensures old(IsBannerPanel(store.bannerPanel)) ==> IsBannerPanel(store.bannerPanel)
    {
      PanelIndexOf(store.bannerPanel);
      var idx := IndexOf(Panels, store.bannerPanel);
      if d == Prev && idx > 0 {
        store.SetBannerPanel(Panels[idx - 1]);
      } else if d == Next && idx < |Panels| - 1 {
        store.SetBannerPanel(Panels[idx + 1]);
      }
    }

    /** A footer tab: store that tab's panel. */
    method SetPanel(p: string)
      requires IsBannerPanel(p)
      modifies store`bannerPanel
      ensures store.bannerPanel == p
    {
      store.SetBannerPanel(p);
    }

    /** Touch start: remember where the finger went down. */
    method TouchStart(x: int, y: int)
      modifies this`swipeStartX, this`swipeStartY
      ensures swipeStartX == x && swipeStartY == y
    {
      swipeStartX, swipeStartY := x, y;
    }

    /** Touch end: classify the displacement from the remembered start and
        step the panel if it is a swipe. The start point is kept, so every
        later touch end without a new touch start measures from it too. */
    method TouchEnd(x: int, y: int)
      modifies store`bannerPanel
      ensures store.bannerPanel == PanelAfterSwipe(old(store.bannerPanel), x - swipeStartX, y - swipeStartY)
    {
      var dx, dy := x - swipeStartX, y - swipeStartY;
      if Abs(dx) > SwipeThreshold && 2 * Abs(dx) > 3 * Abs(dy) {
        if dx < 0 {
          GoToPanel(Next);
        } else {
          GoToPanel(Prev);
        }
      }
    }

    /** The banner's window keydown listener. */
    method KeyDown(key: string, ctrl: bool)
      modifies store`bannerPanel, store`bannerOpen
      ensures store.bannerPanel == PanelAfterBannerKey(old(store.bannerPanel), key, ctrl)
      ensures store.bannerOpen == (old(store.bannerOpen) && key != "Escape")
    {
      if ctrl && key == "1" {
        store.SetBannerPanel("chat");
      } else if ctrl && key == "2" {
        store.SetBannerPanel("prompts");
      } else if ctrl && key == "3" {
        store.SetBannerPanel("metrics");
      } else if key == "Escape" {
        store.CloseBanner();
      } else if key == "ArrowLeft" {
        GoToPanel(Prev);
      } else if key == "ArrowRight" {
        GoToPanel(Next);
      }
    }

    /** Typing into the chat input. */
    method SetDraft(s: string)
      modifies this`draft
      ensures draft == s
    {
      draft := s;
    }

    /** `handleSendMessage`: a blank draft is ignored; otherwise the draft,
        untrimmed, is logged from 'Human' to the agent, the input is cleared,
        the typing indicator comes on and one reply is scheduled. The new
        entry is the one entry the agent's chat gains. */
    method Send(id: string, timestamp: string)
      requires Valid()
      modifies this`draft, this`typing, this`pendingReplies, store`logs
      ensures Valid()
      ensures IsBlank(old(draft)) ==>
        draft == old(draft) && typing == old(typing) &&
        pendingReplies == old(pendingReplies) && store.logs == old(store.logs)
      ensures !IsBlank(old(draft)) ==>
        store.logs == old(store.logs) + [Entry(id, "Human", agent.name, old(draft), Speech, timestamp)] &&
        draft == "" && typing && pendingReplies == old(pendingReplies) + 1
      ensures !IsBlank(old(draft)) ==>
        AgentMessages(store.logs, agent.name) ==
          AgentMessages(old(store.logs), agent.name) + [Entry(id, "Human", agent.name, old(draft), Speech, timestamp)]
    {
      if Trim(draft) == "" {
        return;
      }
      typing := true;
      AgentMessagesAppend(store.logs, Entry(id, "Human", agent.name, draft, Speech, timestamp), agent.name);
      store.AddCommunicationLog(id, "Human", agent.name, draft, Speech, timestamp);
      draft := "";
      pendingReplies := pendingReplies + 1;
    }

    /** The scheduled reply firing. It checks nothing: not whether the banner
        is still open, nor whether another send is still waiting, and it
        turns the typing indicator off either way. */
    method FireReply(id: string, timestamp: string)
      requires Valid() && pendingReplies > 0
      modifies this`typing, this`pendingReplies, store`logs
      ensures Valid()
      ensures !typing && pendingReplies == old(pendingReplies) - 1
      ensures store.logs == old(store.logs) + [Entry(id, agent.name, "Human", ReplyMessage(agent.name), Speech, timestamp)]
      ensures AgentMessages(store.logs, agent.name) ==
        AgentMessages(old(store.logs), agent.name) + [Entry(id, agent.name, "Human", ReplyMessage(agent.name), Speech, timestamp)]
    {
      typing := false;
      AgentMessagesAppend(store.logs, Entry(id, agent.name, "Human", ReplyMessage(agent.name), Speech, timestamp), agent.name);
      store.AddCommunicationLog(id, agent.name, "Human", ReplyMessage(agent.name), Speech, timestamp);
      pendingReplies := pendingReplies - 1;
    }

    /** A routing button: the mode is stored, and six of the eight modes
        open the target picker; no mode closes it. */
    method SelectRoutingMode(m: RoutingMode)
      modifies store`routingMode, this`showSelector
      ensures store.routingMode == m
      ensures showSelector == (old(showSelector) || RevealsTargets(m))
    {
      store.SetRoutingMode(m);
      if m in [Selected, Cycle, Sequence, Parallel, Direct, Human] {
        showSelector := true;
      }
    }

    /** The picker's X button, the only thing that hides it. */
    method CloseSelector()
      modifies this`showSelector
      ensures !showSelector
    {
      showSelector := false;
    }
  }
}
