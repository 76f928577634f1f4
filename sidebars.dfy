/**
 * The sidebar-visibility state machine of the `Layout` component
 * (src/components/layout.js), as pure functions over the component's
 * `this.state`. Each event handler is one atomic transition.
 */
module Sidebars {
  import opened Wrappers

  /**
   * `this.state` of `Layout`. `isMediumViewport` is `None` for the `null`
   * the constructor writes before the first viewport evaluation.
   */
  datatype LayoutState = LayoutState(leftActive: bool, rightActive: bool, isMediumViewport: Option<bool>)

  /** The JavaScript truthiness of `this.state.isMediumViewport`: `null` and `false` are falsy. */
  predicate Medium(s: LayoutState)
  {
    s.isMediumViewport == Some(true)
  }

  /** The safety invariant: in a medium viewport the two sidebars are never both active. */
  predicate Exclusive(s: LayoutState)
  {
    Medium(s) ==> !(s.leftActive && s.rightActive)
  }

  /** The theme used when the `theme` prop is missing or empty. */
  const DefaultTheme: string := "joy"

  /**
   * The theme name the constructor settles on. `theme` is the `theme` prop;
   * `None` (undefined or null) and the empty string are falsy in JavaScript.
   */
  function ThemeName(theme: Option<string>): (name: string)
    ensures name != ""
    ensures theme.Some? && theme.value != "" ==> name == theme.value
    ensures theme.None? || theme.value == "" ==> name == DefaultTheme
  {
    if theme.None? || theme.value == "" then DefaultTheme else theme.value
  }

  /** The state the constructor writes before it evaluates the viewport. */
  const Unevaluated: LayoutState := LayoutState(false, false, None)

  /**
   * Viewport evaluation, the `isMediumViewport` handler, given the current
   * result `matches` of the medium-width media query. The first evaluation
   * writes the flag directly; later ones write it only when it differs. Then,
   * if both sides are active in a medium viewport, the right side yields.
   */
  function Evaluate(s: LayoutState, matches: bool): (r: LayoutState)
    ensures r.isMediumViewport == Some(matches)
    ensures r.leftActive == s.leftActive
    ensures r.rightActive <==> s.rightActive && !(matches && s.leftActive)
    ensures Exclusive(r)
  {
    var stored :=
      if s.isMediumViewport.None? then Some(matches)
      else if s.isMediumViewport != Some(matches) then Some(matches)
      else s.isMediumViewport;
    var flagged := s.(isMediumViewport := stored);
    if flagged.leftActive && flagged.rightActive && matches then flagged.(rightActive := false) else flagged
  }

  /**
   * Whether viewport evaluation goes through `setState`: the stored flag is
   * already set and differs from the query, or the right side must close.
   */
  predicate EvaluationCallsSetState(s: LayoutState, matches: bool)
  {
    (s.isMediumViewport.Some? && s.isMediumViewport != Some(matches))
    || (s.leftActive && s.rightActive && matches)
  }

  /** The state right after construction: both sides closed, the flag set from the query. */
  function Construct(matches: bool): (s: LayoutState)
    ensures !s.leftActive && !s.rightActive
    ensures s.isMediumViewport == Some(matches)
    ensures Exclusive(s)
  {
    Evaluate(Unevaluated, matches)
  }

  /** `toggleLeftSidebar`: flip the left side; in a medium viewport an active right side closes. */
  function ToggleLeft(s: LayoutState): (r: LayoutState)
    ensures r.leftActive == !s.leftActive
    ensures r.rightActive <==> s.rightActive && !Medium(s)
    ensures r.isMediumViewport == s.isMediumViewport
    ensures Exclusive(r)
  {
    var flipped := s.(leftActive := !s.leftActive);
    if s.rightActive && Medium(s) then flipped.(rightActive := false) else flipped
  }

  /** `toggleRightSidebar`: flip the right side; in a medium viewport an active left side closes. */
  function ToggleRight(s: LayoutState): (r: LayoutState)
    ensures r.rightActive == !s.rightActive
    ensures r.leftActive <==> s.leftActive && !Medium(s)
    ensures r.isMediumViewport == s.isMediumViewport
    ensures Exclusive(r)
  {
    var flipped := s.(rightActive := !s.rightActive);
    if s.leftActive && Medium(s) then flipped.(leftActive := false) else flipped
  }

  /** The two toggle callbacks `render` hands to the sidebars. */
  datatype Handler = ToggleLeftSidebar | ToggleRightSidebar

  function Invoke(h: Handler, s: LayoutState): LayoutState
  {
    match h
    case ToggleLeftSidebar => ToggleLeft(s)
    case ToggleRightSidebar => ToggleRight(s)
  }

  /** What can happen to a mounted layout: a window resize, or a click on a sidebar's toggle. */
  datatype Event = Resize(matches: bool) | Click(handler: Handler)

  function Step(s: LayoutState, e: Event): LayoutState
  {
    match e
    case Resize(matches) => Evaluate(s, matches)
    case Click(h) => Invoke(h, s)
  }

  /** The state after handling `events` in order, starting from `s`. */
  function Run(s: LayoutState, events: seq<Event>): LayoutState
    decreases |events|
  {
    if events == [] then s else Run(Step(s, events[0]), events[1..])
  }

  /** The two sides swapped. */
  function Mirror(s: LayoutState): LayoutState
  {
    s.(leftActive := s.rightActive, rightActive := s.leftActive)
  }

  // ---------------------------------------------------------------------------
  // Viewport evaluation

  /** Construction starts closed and stores the query result without `setState`. */
  lemma ConstructionWritesFlagDirectly(matches: bool)
    ensures !EvaluationCallsSetState(Unevaluated, matches)
    ensures Construct(matches) == LayoutState(false, false, Some(matches))
  {
  }

  /**
   * Once the flag has been set, evaluation calls `setState` exactly when it
   * changes the state; in particular a query result equal to the stored flag,
   * with no side to close, leaves the state untouched.
   */
  lemma SetStateExactlyOnChange(s: LayoutState, matches: bool)
    requires s.isMediumViewport.Some?
    ensures EvaluationCallsSetState(s, matches) <==> Evaluate(s, matches) != s
  {
  }

  /** Evaluation in a medium viewport with both sides active closes only the right side. */
  lemma MediumEvaluationClosesRight(s: LayoutState)
    requires s.leftActive && s.rightActive
    ensures Evaluate(s, true) == LayoutState(true, false, Some(true))
  {
  }

  /** Evaluating twice with the same query result is evaluating once. */
  lemma EvaluateIdempotent(s: LayoutState, matches: bool)
    ensures Evaluate(Evaluate(s, matches), matches) == Evaluate(s, matches)
  {
  }

  /** A second evaluation with the same query result never calls `setState`. */
  lemma ReevaluationIsSilent(s: LayoutState, matches: bool)
    ensures !EvaluationCallsSetState(Evaluate(s, matches), matches)
  {
  }

  // ---------------------------------------------------------------------------
  // Toggles

  /** `toggleRightSidebar` is the mirror image of `toggleLeftSidebar`. */
  lemma ToggleRightMirrorsLeft(s: LayoutState)
    ensures ToggleRight(s) == Mirror(ToggleLeft(Mirror(s)))
  {
  }

  /** Outside a medium viewport each toggle is its own inverse and never touches the other side. */
  lemma WideTogglesAreInvolutions(s: LayoutState)
    requires !Medium(s)
    ensures ToggleLeft(ToggleLeft(s)) == s && ToggleLeft(s).rightActive == s.rightActive
    ensures ToggleRight(ToggleRight(s)) == s && ToggleRight(s).leftActive == s.leftActive
  {
  }

  /** In a wide viewport, opening the left and then the right side leaves both open. */
  lemma WideBothSidesOpen(s: LayoutState)
    requires s.isMediumViewport == Some(false) && !s.leftActive && !s.rightActive
    ensures Run(s, [Click(ToggleLeftSidebar), Click(ToggleRightSidebar)]) == LayoutState(true, true, Some(false))
  {
  }

  /** In a medium viewport with the left side open, opening the right side closes the left. */
  lemma MediumOpeningRightClosesLeft(s: LayoutState)
    requires Medium(s) && s.leftActive && !s.rightActive
    ensures ToggleRight(s) == LayoutState(false, true, Some(true))
  {
  }

  /**
   * The wide-to-medium scenario: both sides open in a wide viewport, then a
   * resize to medium closes the right side and keeps the left; an instance of
   * `MediumEvaluationClosesRight`.
   */
  lemma WideToMediumClosesRight(s: LayoutState)
    requires s == LayoutState(true, true, Some(false))
    ensures Run(s, [Resize(true)]) == LayoutState(true, false, Some(true))
  {
    MediumEvaluationClosesRight(s);
  }

  // ---------------------------------------------------------------------------
  // The safety invariant over event sequences

  /** Every transition establishes exclusivity, whatever state it starts from. */
  lemma StepEstablishesExclusive(s: LayoutState, e: Event)
    ensures Exclusive(Step(s, e))
  {
  }

  /** Running events from an exclusive state ends in an exclusive state. */
  lemma {:induction false} RunPreservesExclusive(s: LayoutState, events: seq<Event>)
    requires Exclusive(s)
    ensures Exclusive(Run(s, events))
    decreases |events|
  {
    if events != [] {
      StepEstablishesExclusive(s, events[0]);
      RunPreservesExclusive(Step(s, events[0]), events[1..]);
    }
  }

  /** Running events from a state whose flag is set keeps the flag set. */
  lemma {:induction false} RunKeepsFlagSet(s: LayoutState, events: seq<Event>)
    requires s.isMediumViewport.Some?
    ensures Run(s, events).isMediumViewport.Some?
    decreases |events|
  {
    if events != [] {
      RunKeepsFlagSet(Step(s, events[0]), events[1..]);
    }
  }

  /**
   * The invariant of the layout: from the constructed state, after any
   * sequence of resizes and toggles, the flag is set and a medium viewport
   * never has both sides active.
   */
  lemma ReachableStatesAreExclusive(matches: bool, events: seq<Event>)
    ensures Run(Construct(matches), events).isMediumViewport.Some?
    ensures Exclusive(Run(Construct(matches), events))
  {
    RunPreservesExclusive(Construct(matches), events);
    RunKeepsFlagSet(Construct(matches), events);
  }

  /** Handling `a` and then `b` is handling `a + b`. */
  lemma {:induction false} RunAppend(s: LayoutState, a: seq<Event>, b: seq<Event>)
    ensures Run(s, a + b) == Run(Run(s, a), b)
    decreases |a|
  {
    if a != [] {
      assert (a + b)[0] == a[0];
      assert (a + b)[1..] == a[1..] + b;
      RunAppend(Step(s, a[0]), a[1..], b);
    } else {
      assert a + b == b;
    }
  }

  /** The stored flag after a run ending in a resize is that resize's query result. */
  lemma LastResizeDecidesFlag(s: LayoutState, events: seq<Event>, matches: bool)
    ensures Run(s, events + [Resize(matches)]).isMediumViewport == Some(matches)
  {
    RunAppend(s, events, [Resize(matches)]);
  }
}
