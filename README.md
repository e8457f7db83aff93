# Agent banner state machine

A Dafny model of the input-driven state behind the agent banner of the
agent-collaboration dashboard, and of the root component's keyboard
shortcuts and banner mount gate.

The banner is a modal overlay with three panels, `chat`, `prompts` and
`metrics`. You move between them with the footer chevrons and tabs, with
Ctrl+1/2/3, with the arrow keys and by swiping. Its chat input appends
the user's message to the shared communication log and then schedules
one mock reply. A row of eight routing buttons sets the routing mode, and
six of those buttons also open a target picker. The root component has
its own keydown listener, which writes the same store: Ctrl+1/2/3 store
`metrics`, `chat` and `summary`, and Escape closes an open banner. It
mounts the banner only once loading has finished, the store says the
banner is open, and the agent id is truthy.

Modules, leaf to root:

- `JsBuiltins` (`js_builtins.dfy`): the JavaScript built-ins the logic
  relies on. These are `String.prototype.trim` (with ECMAScript's
  whitespace set), `Array.prototype.indexOf` (−1 when absent), `filter`
  and `find`.
- `Types` (`types.dfy`): agents, log entries, routing modes, and the
  ordered panel list.
- `AppStore` (`app_store.dfy`): the slice of the shared store the two
  components use. It is a class whose setters assign.
- `PanelNavigation` (`panel_navigation.dfy`): the prev/next step, the
  swipe classifier, the banner's key chain, and what the footer and
  content area show. All of these are pure functions of the stored panel
  string, with lemmas about each.
- `BannerViews` (`banner_views.dfy`): the agent lookup, the per-agent log
  filter, the routing modes that open the picker, and the picker's list.
- `AgentBanner` (`agent_banner.dfy`): the class `Banner`. Its fields are
  the component's local state (draft, typing flag, picker visibility,
  swipe start point, replies still due) plus a reference to the store.
  Its methods are the handlers. Each method's `ensures` ties the new
  state to the pure functions above.
- `App` (`app.dfy`): the root listener's mapping, the mount gate, and the
  class `Root`, which holds the loading flag.
- `Scenarios` (`scenarios.dfy`): client runs proved from the handlers'
  contracts alone. Examples are a reply that lands after the banner has
  closed, and a panel stranded on `summary`.

The stored panel is a `string`, not an enumeration. The root listener
stores `summary`, which is not a `BannerPanel`. The model proves what the
banner then does: `prev` is a no-op, `next` stores `chat`, no panel body
is drawn, no tab is lit, and both chevrons are enabled.

Four details of the code that the model keeps as written:

- `bannerPanel` is typed `BannerPanel` (src/types/index.ts:54, 94), yet
  the root listener stores `summary` (src/App.tsx:37-40).
- Choosing `all` or `bookmark` leaves the target picker as it was: the
  click handler only ever sets it visible
  (src/components/ui-custom/AgentBanner.tsx:515-519), and only its X
  button hides it (:547).
- The root listener is registered for the root's whole lifetime
  (src/App.tsx:33-50), so it runs while a banner is mounted too.
- The mount test `bannerOpen && bannerAgentId` (src/App.tsx:80) is a
  truthiness test, so an empty agent id keeps the banner unmounted as
  well as a null one.

Inputs that come from outside the model are parameters:

- touch coordinates and keys;
- the id and timestamp of each new log entry, which the store generates;
- the agent list.

The 1500 ms delay is not modelled. The reply is the explicit step
`Banner.FireReply`, which any caller may take while a reply is due, even
after the banner has closed.

## Model

| member | source | states |
|---|---|---|
| `JsBuiltins.TrimStart` | src/components/ui-custom/AgentBanner.tsx:135 | the leading part of `trim`: it drops a prefix of whitespace only, and what remains is a suffix of the input that is empty or starts with a non-whitespace character |
| `JsBuiltins.TrimEnd` | src/components/ui-custom/AgentBanner.tsx:135 | the trailing part of `trim`: it drops a suffix of whitespace only, and what remains is a prefix of the input that is empty or ends with a non-whitespace character |
| `JsBuiltins.Trim` | src/components/ui-custom/AgentBanner.tsx:135 | the trimmed draft is empty exactly when the draft is all JavaScript whitespace; a non-empty result neither starts nor ends with whitespace; the result is a slice of the draft with only whitespace cut away on either side |
| `JsBuiltins.IndexOf` | src/components/ui-custom/AgentBanner.tsx:101-104 | `indexOf` gives -1 exactly when the value is absent, and otherwise the position of its first occurrence |
| `JsBuiltins.Filter` | src/components/ui-custom/AgentBanner.tsx:90-92 | `Array.prototype.filter`: the result holds exactly the elements that pass the test and is no longer than the input (order and concatenation are proved in `FilterAppend`) |
| `JsBuiltins.Find` | src/components/ui-custom/AgentBanner.tsx:86 | `Array.prototype.find`: nothing is found exactly when no element passes the test, and otherwise the result is the first element that does |
| `PanelNavigation.PanelIndexOf` | src/components/ui-custom/AgentBanner.tsx:100-101 | `panels.indexOf` is 0, 1, 2 for chat, prompts, metrics and -1 for any other stored string |
| `PanelNavigation.Step` | src/components/ui-custom/AgentBanner.tsx:103-110 | `goToPanel` keeps a listed panel listed; from an unlisted value `prev` keeps it and `next` stores chat; any change moves the index by exactly one in the step's direction |
| `PanelNavigation.NextStep` | src/components/ui-custom/AgentBanner.tsx:107-108 | `next` moves from index i to i+1 when i < 2 and leaves metrics unchanged (no wraparound) |
| `PanelNavigation.PrevStep` | src/components/ui-custom/AgentBanner.tsx:105-106 | `prev` moves from index i to i-1 when i > 0 and leaves chat unchanged |
| `PanelNavigation.UnlistedStep` | src/components/ui-custom/AgentBanner.tsx:101-108 | for a stored value outside the three panels, `prev` changes nothing and `next` stores 'chat' |
| `PanelNavigation.StepRoundTrip` | src/components/ui-custom/AgentBanner.tsx:103-110 | `next` then `prev` returns to the same panel unless at metrics, and `prev` then `next` returns to it unless at chat |
| `PanelNavigation.NavigateStaysListed` | src/components/ui-custom/AgentBanner.tsx:103-110 | any run of prev/next from a listed panel stays listed; the result is unlisted exactly when the start was unlisted and every step was `prev`, and is then the start value |
| `PanelNavigation.RepeatedNext` | src/components/ui-custom/AgentBanner.tsx:107-108 | n presses of `next` from the panel at index i land on the panel at index min(i+n, 2) |
| `PanelNavigation.RepeatedPrev` | src/components/ui-custom/AgentBanner.tsx:105-106 | n presses of `prev` from the panel at index i land on the panel at index max(i-n, 0) |
| `PanelNavigation.SwipeDirection` | src/components/ui-custom/AgentBanner.tsx:124-129 | a swipe is recognised only beyond 50 px and with |dx| > |dy|; a `next` swipe is leftward and a `prev` swipe rightward; a purely horizontal gesture is a swipe exactly when it passes 50 px |
| `PanelNavigation.SwipeClassification` | src/components/ui-custom/AgentBanner.tsx:119-131 | a touch end means `next` exactly when dx < -50 and 2·|dx| > 3·|dy|, `prev` exactly when dx > 50 under the same dominance test; mirroring dx swaps the two, the sign of dy is irrelevant |
| `PanelNavigation.SwipeExamples` | src/components/ui-custom/AgentBanner.tsx:124 | dx = -50 and (dx, dy) = (-60, 40) do nothing; (-60, 10) gives `next` and (60, 10) gives `prev` |
| `PanelNavigation.SwipeInert` | src/components/ui-custom/AgentBanner.tsx:123-124 | a gesture that is short or not dominantly horizontal leaves the panel unchanged |
| `PanelNavigation.PanelAfterSwipe` | src/components/ui-custom/AgentBanner.tsx:124-129 | a touch end leaves the panel unchanged or steps it in the direction given by the sign of dx alone; a changed panel is listed; 50 px or less changes nothing |
| `PanelNavigation.BannerKeyAction` | src/components/ui-custom/AgentBanner.tsx:149-166 | the chain jumps exactly on Ctrl+1/2/3, to the panel at the digit's position; it closes exactly on Escape, steps back exactly on ArrowLeft and forward exactly on ArrowRight |
| `PanelNavigation.PanelAfterBannerKey` | src/components/ui-custom/AgentBanner.tsx:149-166 | after the banner's listener the panel is listed, unless the key left an unlisted value unchanged; listed panels stay listed and Ctrl+digit always lands on a listed one |
| `PanelNavigation.BannerDigitShortcuts` | src/components/ui-custom/AgentBanner.tsx:150-158 | Ctrl+1/2/3 jump to chat/prompts/metrics from any stored value; the same digits without Ctrl are ignored |
| `PanelNavigation.BannerKeyEffects` | src/components/ui-custom/AgentBanner.tsx:149-166 | Escape (with or without Ctrl) and only Escape closes; ArrowLeft/ArrowRight act as prev/next; exactly the keys outside the chain are ignored |
| `PanelNavigation.BannerKeysKeepListed` | src/components/ui-custom/AgentBanner.tsx:149-166 | the banner's own keys never take a listed panel outside the three panels |
| `PanelNavigation.FooterAndContent` | src/components/ui-custom/AgentBanner.tsx:571-620 | on a listed panel a chevron is disabled exactly when it would be a no-op, one tab is lit and one body drawn; on an unlisted value nothing is drawn or lit, both chevrons are enabled and `prev` is an enabled no-op |
| `BannerViews.FindAgent` | src/components/ui-custom/AgentBanner.tsx:86-87 | the lookup fails exactly when no agent has the id, and otherwise returns the first agent with that id |
| `BannerViews.Involves` | src/components/ui-custom/AgentBanner.tsx:91 | no contract of its own: the entry test of the chat filter, from or to equal to the agent's name; `AgentMessages` and its lemmas state what the filter built on it keeps |
| `BannerViews.AgentMessages` | src/components/ui-custom/AgentBanner.tsx:90-92 | the per-agent view holds exactly the log entries sent by or to the agent's name |
| `BannerViews.AgentMessagesAppend` | src/components/ui-custom/AgentBanner.tsx:90-92 | appending an entry extends an agent's view by that entry exactly when it is from or to the agent |
| `BannerViews.AgentMessagesConcat` | src/components/ui-custom/AgentBanner.tsx:90-92 | the view of a concatenated log is the concatenation of the views: original order is kept |
| `BannerViews.AgentMessagesIdempotent` | src/components/ui-custom/AgentBanner.tsx:90-92 | filtering a view again for the same name changes nothing |
| `BannerViews.RevealsTargets` | src/components/ui-custom/AgentBanner.tsx:517 | a mode opens the picker exactly when it is neither 'all' nor 'bookmark' |
| `BannerViews.RoutingModesRevealing` | src/components/ui-custom/AgentBanner.tsx:515-519 | all eight modes have a button, and every mode except 'all' and 'bookmark' opens the picker |
| `BannerViews.Targets` | src/components/ui-custom/AgentBanner.tsx:537 | the picker lists exactly the agents whose id differs from the open banner's |
| `AgentBanner.ReplyMessage` | src/components/ui-custom/AgentBanner.tsx:143 | the reply text is "Response from ", the agent's name, then ": Processing your request..." |
| `AgentBanner.ReplyMessageInjective` | src/components/ui-custom/AgentBanner.tsx:143 | two agents' reply texts are equal only when their names are |
| `AgentBanner.Banner.constructor` | src/components/ui-custom/AgentBanner.tsx:74-82 | a mounted banner starts with an empty draft, no typing indicator, the picker hidden and the swipe start at (0, 0) |
| `AgentBanner.Banner.GoToPanel` | src/components/ui-custom/AgentBanner.tsx:103-110 | the stored panel becomes the prev/next step of the old one and stays listed if it was; nothing else changes |
| `AgentBanner.Banner.SetPanel` | src/components/ui-custom/AgentBanner.tsx:595 | a footer tab stores its panel |
| `AgentBanner.Banner.TouchStart` | src/components/ui-custom/AgentBanner.tsx:113-117 | the swipe start becomes the touch point |
| `AgentBanner.Banner.TouchEnd` | src/components/ui-custom/AgentBanner.tsx:119-131 | the stored panel becomes the swipe classification's step from the old one, measured from the kept start point |
| `AgentBanner.Banner.KeyDown` | src/components/ui-custom/AgentBanner.tsx:149-166 | the panel becomes the key chain's result and the banner is closed exactly on Escape |
| `AgentBanner.Banner.SetDraft` | src/components/ui-custom/AgentBanner.tsx:231 | typing replaces the draft |
| `AgentBanner.Banner.Send` | src/components/ui-custom/AgentBanner.tsx:134-140 | a blank draft changes nothing; otherwise exactly one entry {Human → agent, untrimmed draft, speech} is appended and is the one entry the agent's view gains, the draft is cleared, typing is on and one reply is due |
| `AgentBanner.Banner.FireReply` | src/components/ui-custom/AgentBanner.tsx:141-144 | with no guard on the banner being open, typing goes off and exactly one entry {agent → Human, reply text, speech} is appended and joins the agent's view |
| `AgentBanner.Banner.SelectRoutingMode` | src/components/ui-custom/AgentBanner.tsx:515-519 | the mode is stored; the picker afterwards is visible exactly when it already was or the mode is one of the six that open it |
| `AgentBanner.Banner.CloseSelector` | src/components/ui-custom/AgentBanner.tsx:547 | the X button hides the picker |
| `AppStore.Store.constructor` | src/types/index.ts:91-105 | the store holds the open flag, agent id, panel, routing mode and log it is given |
| `AppStore.Store.SetBannerPanel` | src/components/ui-custom/AgentBanner.tsx:106-108 | `setBannerPanel` stores the given value, which need not be one of the three panels, and changes nothing else |
| `AppStore.Store.SetRoutingMode` | src/components/ui-custom/AgentBanner.tsx:516 | `setRoutingMode` stores the mode and changes nothing else |
| `AppStore.Store.AddCommunicationLog` | src/components/ui-custom/AgentBanner.tsx:138-143 | `addCommunicationLog` appends exactly one entry with the given fields at the end of the log |
| `AppStore.Store.CloseBanner` | src/App.tsx:43-45 | `closeBanner` clears the open flag |
| `App.DigitValue` | src/App.tsx:38 | `parseInt` of a one-digit key is in 0..9, and for '1'-'3' it is one more than the key's position in the digit list |
| `App.RootShortcut` | src/App.tsx:35-41 | the root stores a panel exactly for Ctrl with '1'-'3', and then the root list's entry at that digit's position |
| `App.PanelAfterRootKey` | src/App.tsx:35-41 | after the root listener the panel is the root list's entry for a Ctrl+digit key, and the old panel for every other key |
| `App.RootShortcutMapping` | src/App.tsx:35-41 | Ctrl+1/2/3 store metrics/chat/summary, and a panel is stored exactly when Ctrl is held with one of those digits |
| `App.RootCtrl3LeavesPanels` | src/App.tsx:37-40 | Ctrl+3 at the root stores 'summary', which is not a banner panel |
| `App.Ctrl1OrderDependent` | src/App.tsx:33-50 | with both listeners handling Ctrl+1, the result is 'chat' if the banner runs last and 'metrics' if the root does |
| `App.Ctrl3OrderDependent` | src/App.tsx:33-50 | with both listeners handling Ctrl+3, the result is 'summary' if the root runs last and 'metrics' if the banner does |
| `App.RootInertKeys` | src/App.tsx:35 | an unmodified digit, or Ctrl with a key other than 1-3, leaves the panel unchanged at the root |
| `App.MountedBannerId` | src/App.tsx:76-85 | a banner is mounted exactly when loading is done, the banner is open and the agent id is present and non-empty, and it gets that id |
| `App.Root.MountedBanner` | src/App.tsx:80 | a banner is mounted exactly when the root has finished loading and the store is open with a non-empty agent id, and it is that id |
| `App.Root.constructor` | src/App.tsx:15 | the root starts loading |
| `App.Root.HandleLoadingComplete` | src/App.tsx:28-30 | loading ends, and it is the only writer of the flag |
| `App.Root.HandleKeyDown` | src/App.tsx:34-46 | the panel becomes the root mapping's result, Escape closes only an open banner, and the loading flag is untouched |
| `Scenarios.ReplyAfterClose` | src/components/ui-custom/AgentBanner.tsx:134-145 | send "Hello", press Escape, then fire the timer: the banner is unmounted yet the log and the agent's view gain the message and then the reply |
| `Scenarios.BlankSend` | src/components/ui-custom/AgentBanner.tsx:135 | a whitespace-only draft logs nothing and stays in the input |
| `Scenarios.TypingClearedEarly` | src/components/ui-custom/AgentBanner.tsx:137-144 | after two sends and one reply the typing indicator is off while one reply is still due |
| `Scenarios.SummaryStrandsBanner` | src/App.tsx:33-50 | Ctrl+3 reaching the banner's listener and then the root's (the order right after the banner mounts) stores 'summary', so no panel body is drawn; ArrowLeft then does nothing and ArrowRight returns to chat |
| `Scenarios.EscapeTwice` | src/App.tsx:43-45 | Escape reaching both listeners closes the banner; a second Escape changes nothing |
| `Scenarios.RoutingPickerSticks` | src/components/ui-custom/AgentBanner.tsx:515-519 | 'cycle' opens the picker, 'all' afterwards leaves it open, and only the close button hides it |

## Left out

- Rendering is not modelled. This covers JSX, styling, framer-motion animations, the scroll area, the auto-scroll effect, the typing-dots animation, and the high-contrast background. None of it affects state.
- The mock prompt, metric, task and session-summary data are not modelled. They are constant display content.
- The 1500 ms delay is not modelled. The reply is the explicit step `FireReply`, and scheduling order and timing are left to the caller.
- React does not apply `setIsTyping(false)` to a banner that has already unmounted. The model keeps the banner object after close, so it still records the flag. The log append, which is what persists, behaves as in the source.
- The store's internals are not part of this model, and neither is the agents list. Each `Store` setter is a plain assignment. `AddCommunicationLog` takes the id and timestamp the store would generate as arguments.
- `AppStore.Store.CloseBanner` is modelled only as clearing the open flag. Anything else the store's `closeBanner` does is not part of this model.
- The root and the banner both register window listeners. Their attach/detach lifecycle and their relative firing order depend on React effect ordering, so each listener is a separate method. `App.Ctrl1OrderDependent` and `App.Ctrl3OrderDependent` cover both orders.
- `preventDefault` on the Ctrl+digit keys and on the context menu is not modelled. It affects only the browser.
- The input-mode buttons, the `isSwiping` ref, and the attachment, camera and pen buttons are not modelled. They write state nobody reads, or do nothing.
- The Enter key and the send button's disabled state are not modelled separately. Both lead to `Banner.Send`, whose guard is the same blank test.
- Agent fields other than id and name are not modelled. They are display data.
- JavaScript strings are sequences of UTF-16 code units, while a Dafny `string` holds Unicode scalar values. Lone surrogates cannot be represented, and lengths of text outside the Basic Multilingual Plane differ. Nothing in the model depends on string length or on surrogates.
- Touch coordinates are modelled as integers. The dominance test is exact on integers in the form 2·|dx| > 3·|dy|. The source's float comparison on fractional pixels is not modelled.
- The loading screen, the session timer, the 3D scene and the top and bottom bars are not part of this model.
