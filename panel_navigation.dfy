/** The banner's panel navigation (src/components/ui-custom/AgentBanner.tsx):
    the prev/next step over the three-panel list, the swipe recogniser, the
    banner's keyboard chain, and what the footer and content area show for
    a given stored panel value. All of it is a function of the stored panel
    string and the input event. */
module PanelNavigation {
  import opened JsBuiltins
  import opened Types

  datatype Direction = Prev | Next

  /** `panels.indexOf(bannerPanel)` for each possible stored value. */
  lemma PanelIndexOf(p: string)
    ensures IndexOf(Panels, p) ==
      if p == "chat" then 0 else if p == "prompts" then 1 else if p == "metrics" then 2 else -1
  {
    assert Panels[0] == "chat" && Panels[1] == "prompts" && Panels[2] == "metrics";
    if p !in Panels {
    } else if p == "chat" {
    } else if p == "prompts" {
      assert Panels[..1] == ["chat"];
    } else {
      assert Panels[..2] == ["chat", "prompts"];
    }
  }

  /** `goToPanel(direction)`: the panel it stores, given the stored one.
      A step that changes the panel moves its index by one in the direction
      of the step; from an unlisted value (index -1) `next` reaches 'chat'. */
  function Step(p: string, d: Direction): (r: string)
    ensures IsBannerPanel(p) ==> IsBannerPanel(r)
    ensures !IsBannerPanel(p) ==> r == (if d == Next then "chat" else p)
    ensures r != p ==>
      IsBannerPanel(r) && IndexOf(Panels, r) == IndexOf(Panels, p) + (if d == Next then 1 else -1)
  {
    PanelIndexOf(p);
    var i := IndexOf(Panels, p);
    var r := if d == Prev && i > 0 then Panels[i - 1]
             else if d == Next && i < |Panels| - 1 then Panels[i + 1]
             else p;
    PanelIndexOf(r);
    r
  }

  /** `next` moves one panel forward and stops at the last one: no wraparound. */
  lemma NextStep(i: nat)
    requires i < |Panels|
    ensures i < |Panels| - 1 ==> Step(Panels[i], Next) == Panels[i + 1]
    ensures i == |Panels| - 1 ==> Step(Panels[i], Next) == Panels[i]
  {
    PanelIndexOf(Panels[i]);
  }

  /** `prev` moves one panel back and stops at the first one. */
  lemma PrevStep(i: nat)
    requires i < |Panels|
    ensures 0 < i ==> Step(Panels[i], Prev) == Panels[i - 1]
    ensures i == 0 ==> Step(Panels[i], Prev) == Panels[0]
  {
    PanelIndexOf(Panels[i]);
  }

  /** A stored value outside the three panels: `prev` leaves it alone and
      `next` stores 'chat', because indexOf gives -1. */
  lemma UnlistedStep(p: string)
    requires !IsBannerPanel(p)
    ensures Step(p, Prev) == p
    ensures Step(p, Next) == "chat"
  {
    PanelIndexOf(p);
  }

  /** One step and the reverse step give back the panel, unless the first
      step was stopped at an end. */
  lemma StepRoundTrip(p: string)
    requires IsBannerPanel(p)
    ensures p != "metrics" ==> Step(Step(p, Next), Prev) == p
    ensures p != "chat" ==> Step(Step(p, Prev), Next) == p
  {
    PanelIndexOf(p);
    PanelIndexOf(Step(p, Next));
    PanelIndexOf(Step(p, Prev));
  }

  /** The panel after a run of prev/next steps. */
  function Navigate(p: string, ds: seq<Direction>): string
    decreases |ds|
  {
    if ds == [] then p else Navigate(Step(p, ds[0]), ds[1..])
  }

  /** Navigation never leaves the three panels once inside them, and it
      stays on an unlisted value exactly while every step is `prev`. */
  lemma {:induction false} NavigateStaysListed(p: string, ds: seq<Direction>)
    ensures IsBannerPanel(p) ==> IsBannerPanel(Navigate(p, ds))
    ensures !IsBannerPanel(Navigate(p, ds)) <==>
      !IsBannerPanel(p) && forall k :: 0 <= k < |ds| ==> ds[k] == Prev
    ensures !IsBannerPanel(Navigate(p, ds)) ==> Navigate(p, ds) == p
    decreases |ds|
  {
    if ds != [] {
      PanelIndexOf(p);
      var q := Step(p, ds[0]);
      PanelIndexOf(q);
      NavigateStaysListed(q, ds[1..]);
      if !IsBannerPanel(p) && ds[0] == Prev {
        assert q == p;
        assert forall k :: 1 <= k < |ds| ==> ds[k] == ds[1..][k - 1];
      }
    }
  }

  function Repeat(d: Direction, n: nat): (r: seq<Direction>)
    ensures |r| == n && forall k :: 0 <= k < n ==> r[k] == d
  {
    if n == 0 then [] else [d] + Repeat(d, n - 1)
  }

  /** Unfolds one step of a repeated run. */
  lemma NavigateRepeat(p: string, d: Direction, n: nat)
    requires n > 0
    ensures Navigate(p, Repeat(d, n)) == Navigate(Step(p, d), Repeat(d, n - 1))
  {
    var ds := Repeat(d, n);
    assert ds[0] == d && ds[1..] == Repeat(d, n - 1);
  }

  function Min(a: int, b: int): int { if a <= b then a else b }
  function Max(a: int, b: int): int { if a <= b then b else a }

  /** n presses of `next` from the panel at index i land on index
      min(i + n, 2): there is no wraparound however often it is pressed. */
  lemma {:induction false} RepeatedNext(i: nat, n: nat)
    requires i < |Panels|
    ensures Navigate(Panels[i], Repeat(Next, n)) == Panels[Min(i + n, |Panels| - 1)]
    decreases n
  {
    if n > 0 {
      NextStep(i);
      NavigateRepeat(Panels[i], Next, n);
      RepeatedNext(Min(i + 1, |Panels| - 1), n - 1);
    }
  }

  /** n presses of `prev` from the panel at index i land on index max(i - n, 0). */
  lemma {:induction false} RepeatedPrev(i: nat, n: nat)
    requires i < |Panels|
    ensures Navigate(Panels[i], Repeat(Prev, n)) == Panels[Max(i - n, 0)]
    decreases n
  {
    if n > 0 {
      PrevStep(i);
      NavigateRepeat(Panels[i], Prev, n);
      RepeatedPrev(Max(i - 1, 0), n - 1);
    }
  }

  // ---- Swipe recogniser -------------------------------------------------

  /** The minimum horizontal travel, in pixels, of a swipe. */
  const SwipeThreshold: int := 50

  function Abs(x: int): nat { if x < 0 then -x else x }

  /** The touch-end classification of a displacement (dx, dy). Coordinates
      are integers here, so "|dx| exceeds 1.5 times |dy|" is written
      2·|dx| > 3·|dy|, which is the same test. */
  function SwipeDirection(dx: int, dy: int): (r: Option<Direction>)
    ensures r.Some? ==> Abs(dx) > SwipeThreshold && Abs(dx) > Abs(dy)
    ensures r == Some(Next) ==> dx < 0
    ensures r == Some(Prev) ==> dx > 0
    ensures dy == 0 ==> (r.Some? <==> Abs(dx) > SwipeThreshold)
  {
    if Abs(dx) > SwipeThreshold && 2 * Abs(dx) > 3 * Abs(dy) then
      if dx < 0 then Some(Next) else Some(Prev)
    else None
  }

  /** A leftward swipe means `next`, a rightward one `prev`, each only when
      it is long enough and clearly more horizontal than vertical. */
  lemma SwipeClassification(dx: int, dy: int)
    ensures SwipeDirection(dx, dy) == Some(Next) <==> dx < -SwipeThreshold && -2 * dx > 3 * Abs(dy)
    ensures SwipeDirection(dx, dy) == Some(Prev) <==> dx > SwipeThreshold && 2 * dx > 3 * Abs(dy)
    ensures SwipeDirection(-dx, dy) == (match SwipeDirection(dx, dy)
                                         case None => None
                                         case Some(d) => Some(if d == Next then Prev else Next))
    ensures SwipeDirection(dx, -dy) == SwipeDirection(dx, dy)
  {
  }

  /** Boundary cases: exactly 50 pixels is not enough, and equal dominance
      (|dx| = 1.5·|dy|) is not enough either. */
  lemma SwipeExamples()
    ensures SwipeDirection(-50, 0) == None
    ensures SwipeDirection(-60, 40) == None
    ensures SwipeDirection(-60, 10) == Some(Next)
    ensures SwipeDirection(60, 10) == Some(Prev)
  {
  }

  /** The panel a touch-end leaves stored: unchanged, or one step whose
      direction is given by the sign of dx alone (leftward means `next`). */
  function PanelAfterSwipe(p: string, dx: int, dy: int): (r: string)
    ensures r == p || r == Step(p, if dx < 0 then Next else Prev)
    ensures Abs(dx) <= SwipeThreshold ==> r == p
    ensures r == p || IsBannerPanel(r)
  {
    match SwipeDirection(dx, dy)
    case None => p
    case Some(d) => Step(p, d)
  }

  /** A short or mostly vertical gesture never changes the panel. */
  lemma SwipeInert(p: string, dx: int, dy: int)
    requires Abs(dx) <= SwipeThreshold || 2 * Abs(dx) <= 3 * Abs(dy)
    ensures PanelAfterSwipe(p, dx, dy) == p
  {
  }

  // ---- Banner keyboard chain ---------------------------------------------

  /** What one keydown does to the banner, in the order its `else if` chain
      tests the keys. */
  datatype KeyAction = Jump(panel: string) | Close | Move(dir: Direction) | Ignore

  function BannerKeyAction(key: string, ctrl: bool): (r: KeyAction)
    ensures r.Jump? <==> ctrl && key in ["1", "2", "3"]
    ensures r.Jump? ==> r.panel == Panels[IndexOf(["1", "2", "3"], key)]
    ensures r == Close <==> key == "Escape"
    ensures r == Move(Prev) <==> key == "ArrowLeft"
    ensures r == Move(Next) <==> key == "ArrowRight"
  {
    if ctrl && key == "1" then Jump("chat")
    else if ctrl && key == "2" then Jump("prompts")
    else if ctrl && key == "3" then Jump("metrics")
    else if key == "Escape" then Close
    else if key == "ArrowLeft" then Move(Prev)
    else if key == "ArrowRight" then Move(Next)
    else Ignore
  }

  /** The panel stored after the banner handles a keydown: a listed panel,
      unless the key left an unlisted value as it was. */
  function PanelAfterBannerKey(p: string, key: string, ctrl: bool): (r: string)
    ensures IsBannerPanel(p) ==> IsBannerPanel(r)
    ensures !IsBannerPanel(r) ==> r == p
    ensures ctrl && key in ["1", "2", "3"] ==> IsBannerPanel(r)
  {
    match BannerKeyAction(key, ctrl)
    case Jump(q) => q
    case Move(d) => Step(p, d)
    case _ => p
  }

  /** Ctrl+1, Ctrl+2 and Ctrl+3 jump to the first, second and third panel
      from any state; the same digits without Ctrl do nothing. */
  lemma BannerDigitShortcuts(p: string, i: nat)
    requires i < |Panels|
    ensures BannerKeyAction(["1", "2", "3"][i], true) == Jump(Panels[i])
    ensures PanelAfterBannerKey(p, ["1", "2", "3"][i], true) == Panels[i]
    ensures BannerKeyAction(["1", "2", "3"][i], false) == Ignore
  {
  }

  /** Escape closes whether or not Ctrl is held; the arrows step the panel;
      every other key is ignored. */
  lemma BannerKeyEffects(p: string, key: string, ctrl: bool)
    ensures BannerKeyAction(key, ctrl) == Close <==> key == "Escape"
    ensures key == "ArrowLeft" ==> PanelAfterBannerKey(p, key, ctrl) == Step(p, Prev)
    ensures key == "ArrowRight" ==> PanelAfterBannerKey(p, key, ctrl) == Step(p, Next)
    ensures BannerKeyAction(key, ctrl) == Ignore <==>
      key !in ["Escape", "ArrowLeft", "ArrowRight"] && !(ctrl && key in ["1", "2", "3"])
  {
  }

  /** The banner's own keys never take the panel out of the three panels. */
  lemma BannerKeysKeepListed(p: string, key: string, ctrl: bool)
    requires IsBannerPanel(p)
    ensures IsBannerPanel(PanelAfterBannerKey(p, key, ctrl))
  {
    PanelIndexOf(p);
  }

  // ---- Footer and content area -------------------------------------------

  /** The footer's chevrons are disabled at index 0 (prev) and at the last
      index (next); the dot of the tab whose index equals indexOf is lit. */
  predicate PrevDisabled(p: string) { IndexOf(Panels, p) == 0 }
  predicate NextDisabled(p: string) { IndexOf(Panels, p) == |Panels| - 1 }
  predicate TabLit(p: string, i: nat) { i == IndexOf(Panels, p) }

  /** The panel bodies the content area draws: one conditional per panel. */
  function RenderedPanels(p: string): set<string> {
    (if p == "chat" then {"chat"} else {})
    + (if p == "prompts" then {"prompts"} else {})
    + (if p == "metrics" then {"metrics"} else {})
  }

  /** On a listed panel a chevron is disabled exactly when pressing it would
      do nothing, one tab is lit and one body is drawn. On an unlisted value
      no body is drawn and no tab is lit, both chevrons are enabled, and
      `prev` is then an enabled no-op. */
  lemma FooterAndContent(p: string)
    ensures IsBannerPanel(p) ==> (PrevDisabled(p) <==> Step(p, Prev) == p)
    ensures IsBannerPanel(p) ==> (NextDisabled(p) <==> Step(p, Next) == p)
    ensures IsBannerPanel(p) ==> RenderedPanels(p) == {p}
    ensures IsBannerPanel(p) ==> forall i: nat :: TabLit(p, i) <==> i < |Panels| && Panels[i] == p
    ensures !IsBannerPanel(p) ==> RenderedPanels(p) == {} && !PrevDisabled(p) && !NextDisabled(p)
    ensures !IsBannerPanel(p) ==> forall i: nat :: !TabLit(p, i)
    ensures !IsBannerPanel(p) ==> Step(p, Prev) == p
  {
    PanelIndexOf(p);
  }
}
