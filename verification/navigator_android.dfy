/** The Android copy of `ComposeNavigator`: the same back-stack operations
    as the common one, plus saving the back stack into a `Bundle` and
    restoring it, and the Android `Navigator` composable's back-handler and
    rendering rules. The `Bundle` is reduced to the one entry the navigator
    writes, the screen array under the key "backstack". */
module AndroidNavigator {
  import opened Wrappers
  import Navigator

  /** The saved state of a navigator. */
  datatype Bundle<S> = Bundle(backstack: seq<S>)

  /** A navigator; the router it holds plays no part in these operations. */
  datatype ComposeNavigator<S> = ComposeNavigator(backStack: seq<S>)

  /** What the composable shows: the top screen and the transition direction. */
  datatype Frame<S> = Frame(screen: S, direction: int)

  /** The navigator built from `rememberNavigator`'s initial screen. */
  function Create<S>(initialScreen: S): (nav: ComposeNavigator<S>)
    ensures Navigator.NonEmpty(nav.backStack)
    ensures Navigator.Top(nav.backStack) == initialScreen
    ensures !BackHandlerEnabled(nav)
  {
    ComposeNavigator(Navigator.Initial(initialScreen))
  }

  /** `goTo`: push on top, keep everything below. */
  function GoTo<S>(nav: ComposeNavigator<S>, screen: S): (r: ComposeNavigator<S>)
    ensures |r.backStack| == |nav.backStack| + 1
    ensures r.backStack[..|nav.backStack|] == nav.backStack
    ensures r.backStack[|nav.backStack|] == screen
  {
    ComposeNavigator(Navigator.GoTo(nav.backStack, screen))
  }

  /** `popBackStack`: drop the top only when more than one screen remains. */
  function PopBackStack<S>(nav: ComposeNavigator<S>): (r: ComposeNavigator<S>)
    ensures |nav.backStack| > 1 ==> r.backStack == nav.backStack[..|nav.backStack| - 1]
    ensures |nav.backStack| <= 1 ==> r == nav
  {
    ComposeNavigator(Navigator.PopBackStack(nav.backStack))
  }

  /** `popWhile`, for the stacks on which it returns: an empty stack (which
      only a restore can produce) or one with an entry failing the predicate.
      It truncates the stack just above its last failing entry. */
  function PopWhile<S>(nav: ComposeNavigator<S>, p: S -> bool): (r: ComposeNavigator<S>)
    requires Navigator.PopWhileTerminates(nav.backStack, p)
    ensures |r.backStack| <= |nav.backStack| && r.backStack == nav.backStack[..|r.backStack|]
    ensures |r.backStack| > 0 ==> !p(r.backStack[|r.backStack| - 1])
    ensures forall k :: |r.backStack| <= k < |nav.backStack| ==> p(nav.backStack[k])
    ensures |nav.backStack| > 0 ==> |r.backStack| > 0
  {
    ComposeNavigator(Navigator.PopWhile(nav.backStack, p))
  }

  /** `saveState`: the back stack, in order, under "backstack". */
  function SaveState<S>(nav: ComposeNavigator<S>): (bundle: Bundle<S>)
    ensures |bundle.backstack| == |nav.backStack|
    ensures forall i :: 0 <= i < |nav.backStack| ==> bundle.backstack[i] == nav.backStack[i]
  {
    Bundle(nav.backStack)
  }

  /** `restoreState`: clear the stack, then add every saved screen in order.
      Nothing checks that the saved array is non-empty. */
  function RestoreState<S>(nav: ComposeNavigator<S>, bundle: Bundle<S>): (r: ComposeNavigator<S>)
    ensures |r.backStack| == |bundle.backstack|
    ensures forall i :: 0 <= i < |bundle.backstack| ==> r.backStack[i] == bundle.backstack[i]
  {
    ComposeNavigator([] + bundle.backstack)
  }

  /** The saver's `restore`: a fresh navigator on the initial screen, then
      `restoreState`, which replaces that screen with the saved stack. */
  function SaverRestore<S>(initialScreen: S, bundle: Bundle<S>): (r: ComposeNavigator<S>)
    ensures r.backStack == bundle.backstack
  {
    RestoreState(Create(initialScreen), bundle)
  }

  /** Saving one navigator and restoring into another reproduces the first
      one's back stack; the second one's old stack and the saver's initial
      screen play no part. */
  lemma SaveRestoreRoundTrip<S>(saved: ComposeNavigator<S>, target: ComposeNavigator<S>, initialScreen: S)
    ensures RestoreState(target, SaveState(saved)) == saved
    ensures SaverRestore(initialScreen, SaveState(saved)) == saved
  {
  }

  /** The back handler is enabled exactly when a back press changes the stack. */
  function BackHandlerEnabled<S>(nav: ComposeNavigator<S>): (enabled: bool)
    ensures enabled <==> PopBackStack(nav) != nav
  {
    Navigator.BackHandlerEnabled(nav.backStack)
  }

  /** The composable renders the top screen, if there is one, with the
      clamped size difference as its transition direction. */
  function Render<S>(nav: ComposeNavigator<S>, previousSize: nat): (f: Option<Frame<S>>)
    ensures f.None? <==> |nav.backStack| == 0
    ensures f.Some? ==> f.value.screen == nav.backStack[|nav.backStack| - 1]
    ensures f.Some? ==> -1 <= f.value.direction <= 1
    ensures f.Some? ==> (f.value.direction > 0 <==> |nav.backStack| > previousSize)
    ensures f.Some? ==> (f.value.direction < 0 <==> |nav.backStack| < previousSize)
  {
    match Navigator.LastOrNull(nav.backStack)
    case None => None
    case Some(screen) => Some(Frame(screen, Navigator.Direction(|nav.backStack|, previousSize)))
  }

  /** Restoring an empty saved array leaves a navigator whose stack breaks
      the never-empty invariant: it renders nothing, has no back handler,
      `popWhile` returns at once and `goTo` brings it back to one screen. */
  lemma RestoreEmptyBundle<S>(nav: ComposeNavigator<S>, p: S -> bool, previousSize: nat, screen: S)
    ensures !Navigator.NonEmpty(RestoreState(nav, Bundle([])).backStack)
    ensures Render(RestoreState(nav, Bundle([])), previousSize).None?
    ensures !BackHandlerEnabled(RestoreState(nav, Bundle([])))
    ensures PopWhile(RestoreState(nav, Bundle([])), p).backStack == []
    ensures GoTo(RestoreState(nav, Bundle([])), screen).backStack == [screen]
  {
  }

  /** Restoring a non-empty saved array re-establishes the invariant. */
  lemma RestoreNonEmptyBundle<S>(nav: ComposeNavigator<S>, bundle: Bundle<S>)
    requires |bundle.backstack| > 0
    ensures Navigator.NonEmpty(RestoreState(nav, bundle).backStack)
  {
  }
}
