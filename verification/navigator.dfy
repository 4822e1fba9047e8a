/** The back stack of the common `ComposeNavigator` and the two rules the
    `Navigator` composable derives from it (back-handler enabling and the
    transition direction).

    The back stack is a `seq<S>` whose last element is the screen on top;
    every operation is a pure function from the old stack to the new one. */
module Navigator {
  import opened Wrappers

  /** A back stack in the shape the common navigator keeps it: never empty. */
  predicate NonEmpty<S>(stack: seq<S>) {
    |stack| >= 1
  }

  /** The screen currently shown. */
  function Top<S>(stack: seq<S>): S
    requires |stack| > 0
  {
    stack[|stack| - 1]
  }

  /** Kotlin's `lastOrNull()` on the back stack. */
  function LastOrNull<S>(stack: seq<S>): (r: Option<S>)
    ensures r.None? <==> |stack| == 0
    ensures r.Some? ==> r.value == stack[|stack| - 1]
  {
    if |stack| == 0 then None else Some(Top(stack))
  }

  /** The back stack of a freshly constructed navigator. */
  function Initial<S>(initialScreen: S): (stack: seq<S>)
    ensures NonEmpty(stack) && !BackHandlerEnabled(stack)
    ensures Top(stack) == initialScreen
  {
    [initialScreen]
  }

  /** `goTo`: push a screen on top. */
  function GoTo<S>(stack: seq<S>, screen: S): (r: seq<S>)
    ensures |r| == |stack| + 1
    ensures r[..|stack|] == stack
    ensures Top(r) == screen
  {
    stack + [screen]
  }

  /** `popBackStack`: remove the top screen, unless it is the only one left. */
  function PopBackStack<S>(stack: seq<S>): (r: seq<S>)
    ensures |stack| > 1 ==> |r| == |stack| - 1 && r == stack[..|r|]
    ensures |stack| <= 1 ==> r == stack
  {
    if |stack| > 1 then stack[..|stack| - 1] else stack
  }

  /** The back handler is registered as enabled exactly when a back press
      would change the stack. */
  function BackHandlerEnabled<S>(stack: seq<S>): (enabled: bool)
    ensures enabled <==> PopBackStack(stack) != stack
    ensures enabled ==> NonEmpty(PopBackStack(stack))
  {
    |stack| > 1
  }

  /** Kotlin's `coerceIn(lo..hi)` on an `Int`. */
  function CoerceIn(x: int, lo: int, hi: int): (r: int)
    requires lo <= hi
    ensures lo <= r <= hi
    ensures lo <= x <= hi ==> r == x
    ensures x < lo ==> r == lo
    ensures x > hi ==> r == hi
  {
    if x < lo then lo else if x > hi then hi else x
  }

  /** The transition direction: +1 slides forward, -1 slides back, 0 fades. */
  function Direction(size: nat, previousSize: nat): (d: int)
    ensures -1 <= d <= 1
    ensures d > 0 <==> size > previousSize
    ensures d < 0 <==> size < previousSize
    ensures d == 0 <==> size == previousSize
  {
    CoerceIn(size - previousSize, -1, 1)
  }

  /** The directions the composable computes over successive compositions,
      given the back-stack size seen at each. `previousBackStackSize` is a
      `rememberSaveable` with no keys, so it keeps the size of the first
      composition, and every later direction is measured from that size. */
  function DirectionsAsWritten(sizes: seq<nat>): (ds: seq<int>)
    requires |sizes| > 0
    ensures |ds| == |sizes|
    ensures forall i :: 0 <= i < |sizes| ==> (ds[i] > 0 <==> sizes[i] > sizes[0])
    ensures forall i :: 0 <= i < |sizes| ==> (ds[i] < 0 <==> sizes[i] < sizes[0])
  {
    seq(|sizes|, i requires 0 <= i < |sizes| => Direction(sizes[i], sizes[0]))
  }

  /** The directions as the name `previousBackStackSize` means them: each
      composition compares with the one just before it. */
  function DirectionsIntended(sizes: seq<nat>): (ds: seq<int>)
    ensures |ds| == |sizes|
    ensures |sizes| > 0 ==> ds[0] == 0
    ensures forall i :: 0 < i < |sizes| ==> (ds[i] > 0 <==> sizes[i] > sizes[i - 1])
    ensures forall i :: 0 < i < |sizes| ==> (ds[i] < 0 <==> sizes[i] < sizes[i - 1])
  {
    seq(|sizes|, i requires 0 <= i < |sizes| => StepDirection(sizes, i))
  }

  /** The direction of composition `i` measured from composition `i - 1`. */
  function StepDirection(sizes: seq<nat>, i: nat): (d: int)
    requires i < |sizes|
    ensures i == 0 ==> d == 0
    ensures i > 0 ==> (d > 0 <==> sizes[i] > sizes[i - 1])
    ensures i > 0 ==> (d < 0 <==> sizes[i] < sizes[i - 1])
  {
    if i == 0 then 0 else Direction(sizes[i], sizes[i - 1])
  }

  /** Going forward twice from one screen and then back once: the back step
      is animated as a forward slide, where a backward slide is meant. */
  lemma StaleDirectionOnBackStep()
    ensures DirectionsAsWritten([1, 2, 3, 2])[3] == 1
    ensures DirectionsIntended([1, 2, 3, 2])[3] == -1
  {
  }

  // ---------------------------------------------------------------------
  // popWhile
  // ---------------------------------------------------------------------

  /** The test of the `popWhile` loop: there is a top and the predicate
      holds on it (`lastOrNull()?.let(predicate) == true`). */
  function KeepsPopping<S>(stack: seq<S>, p: S -> bool): (keeps: bool)
    ensures keeps <==> LastOrNull(stack).Some? && p(LastOrNull(stack).value)
  {
    |stack| > 0 && p(Top(stack))
  }

  /** `popWhile` returns exactly when the stack is empty or some entry fails
      the predicate; otherwise it pops down to one entry and spins there,
      because `popBackStack` refuses to remove the last one. */
  predicate PopWhileTerminates<S>(stack: seq<S>, p: S -> bool) {
    |stack| == 0 || exists j :: 0 <= j < |stack| && !p(stack[j])
  }

  /** Removing the top keeps a failing entry below the top. */
  lemma PopKeepsFailingEntry<S>(stack: seq<S>, p: S -> bool)
    requires PopWhileTerminates(stack, p) && KeepsPopping(stack, p)
    ensures |stack| > 1
    ensures PopWhileTerminates(PopBackStack(stack), p)
  {
  }

  /** `popWhile`, for the stacks on which it returns. The result is the
      prefix of the stack ending at its last entry that fails the predicate
      (or the empty stack, if it was empty). */
  function PopWhile<S>(stack: seq<S>, p: S -> bool): (r: seq<S>)
    requires PopWhileTerminates(stack, p)
    ensures |r| <= |stack| && r == stack[..|r|]
    ensures !KeepsPopping(r, p)
    ensures forall k :: |r| <= k < |stack| ==> p(stack[k])
    ensures |stack| > 0 ==> |r| > 0
    decreases |stack|
  {
    if KeepsPopping(stack, p) then
      PopKeepsFailingEntry(stack, p);
      PopWhile(PopBackStack(stack), p)
    else
      stack
  }

  /** The `popWhile` loop run for at most `n` iterations: the state the
      loop is in after `n` turns, or the state it left in, if earlier. */
  function Iterate<S>(stack: seq<S>, p: S -> bool, n: nat): (r: seq<S>)
    ensures |r| <= |stack| && r == stack[..|r|]
    ensures |stack| - n <= |r|
    ensures |stack| > 0 ==> |r| > 0
    ensures forall k :: |r| <= k < |stack| ==> p(stack[k])
    decreases n
  {
    if n == 0 || !KeepsPopping(stack, p) then stack
    else Iterate(PopBackStack(stack), p, n - 1)
  }

  /** When `popWhile` returns, the loop reaches `PopWhile`'s result and stays
      there. */
  lemma {:induction false} IterateReachesPopWhile<S>(stack: seq<S>, p: S -> bool, n: nat)
    requires PopWhileTerminates(stack, p)
    requires n >= |stack|
    ensures Iterate(stack, p, n) == PopWhile(stack, p)
    decreases n
  {
    if n > 0 && KeepsPopping(stack, p) {
      PopKeepsFailingEntry(stack, p);
      IterateReachesPopWhile(PopBackStack(stack), p, n - 1);
    }
  }

  /** If every entry satisfies the predicate, the loop never exits: after
      `|stack| - 1` turns it is stuck on the bottom entry. */
  lemma {:induction false} PopWhileSpins<S>(stack: seq<S>, p: S -> bool, n: nat)
    requires |stack| > 0
    requires forall k :: 0 <= k < |stack| ==> p(stack[k])
    ensures KeepsPopping(Iterate(stack, p, n), p)
    ensures n >= |stack| - 1 ==> Iterate(stack, p, n) == stack[..1]
    decreases n
  {
    if n > 0 {
      var popped := PopBackStack(stack);
      assert forall k :: 0 <= k < |popped| ==> popped[k] == stack[k];
      PopWhileSpins(popped, p, n - 1);
      if |stack| == 1 {
        assert stack[..1] == stack;
      } else {
        assert popped[..1] == stack[..1];
      }
    } else if |stack| == 1 {
      assert stack[..1] == stack;
    }
  }

  /** The loop exits for some number of turns exactly when some entry
      fails the predicate (or there is no entry at all). */
  lemma PopWhileTerminatesIff<S>(stack: seq<S>, p: S -> bool)
    ensures PopWhileTerminates(stack, p) <==> exists n: nat :: !KeepsPopping(Iterate(stack, p, n), p)
  {
    if PopWhileTerminates(stack, p) {
      IterateReachesPopWhile(stack, p, |stack|);
      assert !KeepsPopping(Iterate(stack, p, |stack|), p);
    } else {
      forall n: nat ensures KeepsPopping(Iterate(stack, p, n), p) {
        PopWhileSpins(stack, p, n);
      }
    }
  }

  /** With a predicate that always holds, `popWhile` on a one-screen stack
      never leaves its loop, whatever the number of turns. */
  lemma PopWhileHangsOnAlwaysTrue<S>(screen: S, p: S -> bool, n: nat)
    requires forall s :: p(s)
    ensures KeepsPopping(Iterate([screen], p, n), p)
    ensures !PopWhileTerminates([screen], p)
  {
  }

  /** `popWhile` as its doc comment ("continues popping the back stack
      while the predicate is true") and the never-empty stack suggest: pop
      while the predicate holds on the top, but stop at one entry. This is
      the loop guarded by `size > 1` as well as by the predicate. */
  function PopWhileBounded<S>(stack: seq<S>, p: S -> bool): (r: seq<S>)
    ensures |r| <= |stack| && r == stack[..|r|]
    ensures |stack| > 0 ==> |r| > 0
    ensures |r| > 1 ==> !p(Top(r))
    ensures forall k :: |r| <= k < |stack| ==> p(stack[k])
    decreases |stack|
  {
    if |stack| > 1 && p(Top(stack)) then PopWhileBounded(PopBackStack(stack), p) else stack
  }

  /** The guarded loop returns what `popWhile` returns whenever `popWhile`
      returns on a non-empty stack, and one entry when it would hang. */
  lemma PopWhileBoundedAgrees<S>(stack: seq<S>, p: S -> bool)
    requires NonEmpty(stack)
    ensures PopWhileTerminates(stack, p) ==> PopWhileBounded(stack, p) == PopWhile(stack, p)
    ensures !PopWhileTerminates(stack, p) ==> PopWhileBounded(stack, p) == stack[..1]
  {
  }

  // ---------------------------------------------------------------------
  // Sequences of navigator calls
  // ---------------------------------------------------------------------

  /** One call on the navigator's public interface. */
  datatype Action<!S> = Push(screen: S) | Pop | PopWhileAction(test: S -> bool)

  /** Apply the calls in order; `None` when a `popWhile` never returns. */
  function Run<S>(stack: seq<S>, actions: seq<Action<S>>): Option<seq<S>>
    decreases |actions|
  {
    if |actions| == 0 then Some(stack)
    else match actions[0]
      case Push(s) => Run(GoTo(stack, s), actions[1..])
      case Pop => Run(PopBackStack(stack), actions[1..])
      case PopWhileAction(p) =>
        if PopWhileTerminates(stack, p) then Run(PopWhile(stack, p), actions[1..]) else None
  }

  /** Starting from a non-empty stack (as every navigator does), no sequence
      of calls empties it, and the calls only fail to finish when a
      `popWhile` predicate holds on every entry of the stack it sees. */
  lemma {:induction false} RunKeepsNonEmpty<S>(stack: seq<S>, actions: seq<Action<S>>)
    requires NonEmpty(stack)
    ensures Run(stack, actions).Some? ==> NonEmpty(Run(stack, actions).value)
    ensures actions == [] ==> Run(stack, actions) == Some(stack)
    decreases |actions|
  {
    if |actions| > 0 {
      match actions[0]
      case Push(s) => RunKeepsNonEmpty(GoTo(stack, s), actions[1..]);
      case Pop => RunKeepsNonEmpty(PopBackStack(stack), actions[1..]);
      case PopWhileAction(p) =>
        if PopWhileTerminates(stack, p) {
          RunKeepsNonEmpty(PopWhile(stack, p), actions[1..]);
        }
    }
  }

  /** `goTo` followed by `popBackStack` restores a non-empty stack. */
  lemma PopUndoesGoTo<S>(stack: seq<S>, screen: S)
    requires NonEmpty(stack)
    ensures PopBackStack(GoTo(stack, screen)) == stack
  {
  }

  /** From `[a]`: `goTo(b)`, `goTo(c)`, `popBackStack()` twice gives `[a]`. */
  lemma PushTwicePopTwice<S>(a: S, b: S, c: S)
    ensures Run(Initial(a), [Push(b), Push(c), Pop, Pop]) == Some([a])
  {
    var acts := [Push(b), Push(c), Pop, Pop];
    assert acts[1..] == [Push(c), Pop, Pop];
    var pops: seq<Action<S>> := [Pop, Pop];
    assert [Push(c), Pop, Pop][1..] == pops;
    assert pops[1..] == [Pop];
    assert pops[1..][1..] == [];
    assert GoTo(GoTo([a], b), c) == [a, b, c];
    assert PopBackStack([a, b, c]) == [a, b];
    assert PopBackStack([a, b]) == [a];
    assert Run([a], acts) == Run([a, b], [Push(c), Pop, Pop]);
    assert Run([a, b], [Push(c), Pop, Pop]) == Run([a, b, c], pops);
    assert Run([a, b, c], pops) == Run([a, b], pops[1..]);
    assert Run([a, b], pops[1..]) == Run([a], []);
  }
}
