/** The `Router`: resolves a screen to a presenter and to a UI by asking the
    registered factories in order and taking the first non-null answer.
    A factory is a function returning `None` for a screen it declines. */
module Router {
  import opened Wrappers
  import opened Exceptions

  /** The message of the `NoSuchElementException` Kotlin's `firstNotNullOf`
      throws when every element is transformed to null. */
  const NoMatchMessage := "No element of the collection was transformed to a non-null value."

  /** The position of the first item the transform accepts, if any. */
  predicate FirstAcceptedAt<A, R>(items: seq<A>, transform: A -> Option<R>, i: int) {
    && 0 <= i < |items|
    && transform(items[i]).Some?
    && forall k :: 0 <= k < i ==> transform(items[k]).None?
  }

  /** Kotlin's `firstNotNullOf`: the first non-null transformed element, in
      list order; later elements are never transformed. */
  function FirstNotNullOf<A, R>(items: seq<A>, transform: A -> Option<R>): (r: Result<R, KotlinException>)
    ensures r.Failure? <==> forall i :: 0 <= i < |items| ==> transform(items[i]).None?
    ensures r.Failure? ==> r.error == NoSuchElement(NoMatchMessage)
    ensures r.Success? ==> exists i :: FirstAcceptedAt(items, transform, i) && transform(items[i]) == Some(r.value)
    decreases |items|
  {
    if |items| == 0 then Failure(NoSuchElement(NoMatchMessage))
    else match transform(items[0])
      case Some(v) => Success(v)
      case None =>
        var rest := FirstNotNullOf(items[1..], transform);
        assert forall i :: 0 < i < |items| ==> items[i] == items[1..][i - 1];
        rest
  }

  /** Items that all decline can be put in front without changing the result. */
  lemma {:induction false} DecliningPrefixIrrelevant<A, R>(prefix: seq<A>, items: seq<A>, transform: A -> Option<R>)
    requires forall i :: 0 <= i < |prefix| ==> transform(prefix[i]).None?
    ensures FirstNotNullOf(prefix + items, transform) == FirstNotNullOf(items, transform)
    decreases |prefix|
  {
    if |prefix| > 0 {
      assert (prefix + items)[0] == prefix[0];
      assert transform((prefix + items)[0]).None?;
      assert (prefix + items)[1..] == prefix[1..] + items;
      assert FirstNotNullOf(prefix + items, transform) == FirstNotNullOf(prefix[1..] + items, transform);
      DecliningPrefixIrrelevant(prefix[1..], items, transform);
    } else {
      assert prefix + items == items;
    }
  }

  /** Once some item accepts, whatever is appended after the list is never
      consulted. */
  lemma {:induction false} SuffixAfterAcceptIrrelevant<A, R>(items: seq<A>, more: seq<A>, transform: A -> Option<R>)
    requires FirstNotNullOf(items, transform).Success?
    ensures FirstNotNullOf(items + more, transform) == FirstNotNullOf(items, transform)
    decreases |items|
  {
    assert |items| > 0;
    assert (items + more)[0] == items[0];
    if transform(items[0]).None? {
      assert (items + more)[1..] == items[1..] + more;
      SuffixAfterAcceptIrrelevant(items[1..], more, transform);
    }
  }

  /** A router over the two factory lists. Presenter factories receive the
      screen and the navigator; UI factories receive the screen only. */
  datatype Router<!S, !N, P, U> = Router(
    presenterFactories: seq<(S, N) -> Option<P>>,
    viewFactories: seq<S -> Option<U>>)

  /** `createPresenter`: the presenter of the first presenter factory that
      accepts the screen, each factory being handed the same navigator;
      `NoSuchElement` if none accepts (an empty list included). */
  function CreatePresenter<S, N, P, U>(router: Router<S, N, P, U>, screen: S, navigator: N): (r: Result<P, KotlinException>)
    ensures r.Failure? <==> forall i :: 0 <= i < |router.presenterFactories| ==> router.presenterFactories[i](screen, navigator).None?
    ensures r.Failure? ==> r.error == NoSuchElement(NoMatchMessage)
    ensures r.Success? ==> exists i ::
      && 0 <= i < |router.presenterFactories|
      && router.presenterFactories[i](screen, navigator) == Some(r.value)
      && forall k :: 0 <= k < i ==> router.presenterFactories[k](screen, navigator).None?
  {
    FirstNotNullOf(router.presenterFactories, (f: (S, N) -> Option<P>) => f(screen, navigator))
  }

  /** `createUi`: the same first-match search over the UI factories alone. */
  function CreateUi<S, N, P, U>(router: Router<S, N, P, U>, screen: S): (r: Result<U, KotlinException>)
    ensures r.Failure? <==> forall i :: 0 <= i < |router.viewFactories| ==> router.viewFactories[i](screen).None?
    ensures r.Failure? ==> r.error == NoSuchElement(NoMatchMessage)
    ensures r.Success? ==> exists i ::
      && 0 <= i < |router.viewFactories|
      && router.viewFactories[i](screen) == Some(r.value)
      && forall k :: 0 <= k < i ==> router.viewFactories[k](screen).None?
  {
    FirstNotNullOf(router.viewFactories, (f: S -> Option<U>) => f(screen))
  }

  /** Registering, in front, a presenter factory that declines the screen
      does not change which presenter is created. */
  lemma PrependDecliningPresenterFactory<S, N, P, U>(router: Router<S, N, P, U>, f: (S, N) -> Option<P>, screen: S, navigator: N)
    requires f(screen, navigator).None?
    ensures CreatePresenter(router.(presenterFactories := [f] + router.presenterFactories), screen, navigator)
         == CreatePresenter(router, screen, navigator)
  {
  }

  /** Registering more presenter factories after one that accepts the
      screen does not change which presenter is created. */
  lemma AppendAfterAcceptingPresenterFactory<S, N, P, U>(router: Router<S, N, P, U>, more: seq<(S, N) -> Option<P>>, screen: S, navigator: N)
    requires CreatePresenter(router, screen, navigator).Success?
    ensures CreatePresenter(router.(presenterFactories := router.presenterFactories + more), screen, navigator)
         == CreatePresenter(router, screen, navigator)
  {
    SuffixAfterAcceptIrrelevant(router.presenterFactories, more, (g: (S, N) -> Option<P>) => g(screen, navigator));
  }

  /** The same two facts for UI factories. */
  lemma UiFactoryOrderFacts<S, N, P, U>(router: Router<S, N, P, U>, f: S -> Option<U>, more: seq<S -> Option<U>>, screen: S)
    ensures f(screen).None? ==>
      CreateUi(router.(viewFactories := [f] + router.viewFactories), screen) == CreateUi(router, screen)
    ensures CreateUi(router, screen).Success? ==>
      CreateUi(router.(viewFactories := router.viewFactories + more), screen) == CreateUi(router, screen)
  {
    var t := (g: S -> Option<U>) => g(screen);
    if f(screen).None? {
      DecliningPrefixIrrelevant([f], router.viewFactories, t);
    }
    if CreateUi(router, screen).Success? {
      SuffixAfterAcceptIrrelevant(router.viewFactories, more, t);
    }
  }
}
