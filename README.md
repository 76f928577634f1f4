# Sidebar layout state machine

A model of the `Layout` component of a responsive page layout with a left
sidebar, a right sidebar and a main region. `Layout` keeps three pieces of
state: `leftActive`, `rightActive` and `isMediumViewport` (unset, then the
result of the theme's medium-width media query). Three handlers change it:

- viewport evaluation (`isMediumViewport`), run once by the constructor and
  then on every window resize: it stores the query result and, in a medium
  (narrow) viewport with both sides open, closes the right side;
- `toggleLeftSidebar` and `toggleRightSidebar`: each flips its own side and,
  in a medium viewport, closes the other side if it is open.

`render` hands each child props according to its component type: the
`Leftside` and `Rightside` sidebars get their side's flag and toggle, `Main`
gets both flags, and children of any other type are dropped.

Files:

- `wrappers.dfy`: `Option`, with `None` standing for `null`/`undefined`.
- `sidebars.dfy` (module `Sidebars`): `this.state` as the value
  `LayoutState`, the three transitions as functions, event sequences
  (`Run`), and the lemmas, among them the safety invariant: in a medium
  viewport the two sides are never both active, after any sequence of
  resizes and toggles.
- `children.dfy` (module `Children`): the child dispatch of `render`.
- `layout.dfy` (module `Layout`): class `Layout`, whose fields are updated
  in place by the constructor and handlers exactly as the functions in
  `Sidebars` say, with the exclusivity invariant kept in `Valid()`.

Children of an unrecognised type are dropped: the `else` branch that would
return them is commented out at src/components/layout.js:82, so the callback
returns `undefined`, which `React.Children.map` omits. `Render` drops them.

A stronger fact than the invariant falls out of the proofs: every single
transition establishes exclusivity from any state (`StepEstablishesExclusive`),
so the invariant does not depend on how the state was reached.

## Model

| member | source | states |
|---|---|---|
| `Sidebars.ThemeName` | src/components/layout.js:8-11 | the theme name is never empty: a non-empty `theme` prop is used as given, a missing or empty one gives `joy` |
| `Sidebars.Construct` | src/components/layout.js:14-19 | after construction both sides are closed and the stored flag is the query result; the state is exclusive |
| `Sidebars.Evaluate` | src/components/layout.js:29-44 | evaluation stores the query result, keeps `leftActive`, closes the right side exactly when both sides are open and the viewport is medium, and leaves an exclusive state |
| `Sidebars.ToggleLeft` | src/components/layout.js:46-53 | `leftActive` always flips; `rightActive` becomes false exactly when the viewport is medium, otherwise is kept; the flag is unchanged |
| `Sidebars.ToggleRight` | src/components/layout.js:55-62 | `rightActive` always flips; `leftActive` becomes false exactly when the viewport is medium, otherwise is kept; the flag is unchanged |
| `Sidebars.ConstructionWritesFlagDirectly` | src/components/layout.js:14-35 | the first evaluation stores the query result without calling `setState`, from the all-closed state |
| `Sidebars.SetStateExactlyOnChange` | src/components/layout.js:37-43 | once the flag is set, evaluation calls `setState` if and only if it changes the state; a matching flag with nothing to close is left untouched |
| `Sidebars.MediumEvaluationClosesRight` | src/components/layout.js:41-43 | medium viewport with both sides active: right closes, left stays open, flag set to medium |
| `Sidebars.EvaluateIdempotent` | src/components/layout.js:37-43 | evaluating twice with the same query result equals evaluating once |
| `Sidebars.ReevaluationIsSilent` | src/components/layout.js:37-43 | a repeated evaluation with the same query result never calls `setState` |
| `Sidebars.ToggleRightMirrorsLeft` | src/components/layout.js:46-62 | `toggleRightSidebar` is `toggleLeftSidebar` with the two sides swapped |
| `Sidebars.WideTogglesAreInvolutions` | src/components/layout.js:46-62 | outside a medium viewport each toggle undoes itself and never changes the other side |
| `Sidebars.WideBothSidesOpen` | src/components/layout.js:46-62 | wide viewport, both closed: toggling left then right leaves both open |
| `Sidebars.MediumOpeningRightClosesLeft` | src/components/layout.js:55-62 | medium viewport, left open: toggling right opens the right side and closes the left |
| `Sidebars.WideToMediumClosesRight` | src/components/layout.js:37-43 | both open in a wide viewport, then a resize to medium: right closes, left stays open |
| `Sidebars.StepEstablishesExclusive` | src/components/layout.js:41-61 | every resize or toggle, from any state, ends in a state where a medium viewport has at most one side active |
| `Sidebars.RunPreservesExclusive` | src/components/layout.js:41-61 | any sequence of resizes and toggles started in an exclusive state ends in one |
| `Sidebars.RunKeepsFlagSet` | src/components/layout.js:33-38 | once set, the viewport flag is never unset again by any sequence of events |
| `Sidebars.ReachableStatesAreExclusive` | src/components/layout.js:14-62 | from the constructed state, after any sequence of resizes and toggles, the flag is set and the medium viewport never has both sides active |
| `Sidebars.LastResizeDecidesFlag` | src/components/layout.js:30-38 | after a run that ends in a resize, the stored flag is that resize's query result |
| `Children.Inject` | src/components/layout.js:66-83 | a child gets props exactly when its type is `Leftside`, `Rightside` or `Main`, the clone is of that same child, `Leftside` gets `leftActive` with the left toggle, `Rightside` gets `rightActive` with the right toggle, and `Main` gets both flags |
| `Children.Render` | src/components/layout.js:65-84 | the output is no longer than the children, holds only recognised children, and each carries the props dispatched on its own type |
| `Children.RenderKeepsRecognisedInOrder` | src/components/layout.js:65-84 | the rendered children are exactly the recognised children, in their original order |
| `Children.RenderAppend` | src/components/layout.js:65-84 | rendering a concatenation of children is the concatenation of the renderings |
| `Children.RenderDropsNothingRecognised` | src/components/layout.js:65-84 | when every child is recognised, every child is rendered, in order |
| `Children.RenderDropsUnrecognised` | src/components/layout.js:82-84 | children of no recognised type render to nothing |
| `Children.RenderedProps` | src/components/layout.js:67-81 | a rendered `Leftside` gets `leftActive` and the left toggle handler, so clicking it runs `toggleLeftSidebar`; `Rightside` likewise with the right side; `Main` gets both flags |
| `Layout.Layout.constructor` | src/components/layout.js:5-20 | a new layout has the resolved theme name, both sides closed, the flag set from the query, no resize subscription, and is valid |
| `Layout.Layout.ComponentDidMount` | src/components/layout.js:22-24 | mounting subscribes to resizes and changes no state |
| `Layout.Layout.ComponentWillUnmount` | src/components/layout.js:25-27 | unmounting removes the subscription and changes no state |
| `Layout.Layout.IsMediumViewport` | src/components/layout.js:29-44 | the new state is `Evaluate` of the old, only the flag and `rightActive` may change, the result tells whether `setState` was called, and the invariant holds afterwards |
| `Layout.Layout.OnResize` | src/components/layout.js:22-27 | a resize evaluates the viewport while subscribed and changes nothing once unsubscribed |
| `Layout.Layout.ToggleLeftSidebar` | src/components/layout.js:46-53 | the new state is `ToggleLeft` of the old, the flag is untouched, and the invariant is kept |
| `Layout.Layout.ToggleRightSidebar` | src/components/layout.js:55-62 | the new state is `ToggleRight` of the old, the flag is untouched, and the invariant is kept |

## Left out

- The stylesheet load `require('./themes/theme-' + theme + '.scss')` and the `mediumWidthQuery` it supplies: a foreign resource. Only the choice of theme name is modelled. A non-empty theme name with no matching stylesheet makes the `require` throw in the constructor; there is no fallback to `joy` in that case, and the model does not include this error path.
- `window.matchMedia(...).matches`: browser I/O. It is the boolean parameter `matches` of the evaluation step.
- `window.addEventListener` / `removeEventListener`: environment I/O. They are the `subscribed` flag, and `OnResize` stands for the window delivering a resize.
- `setState` batching and re-render scheduling: each handler is one atomic transition. This loses nothing, because every read of `this.state` after a `setState` in a handler reads a field that `setState` did not change.
- `React.cloneElement`, JSX and the `<div id='layout'>` wrapper around the rendered children: DOM output. A clone is the child paired with its injected props.
- Text-node and other children without a component type, where `child.type.name` would throw: a child is always an element with a type name.
- ThemeName: only `undefined`, `null` and the empty string are treated as a missing theme; other falsy non-string prop values (`false`, `0`) are outside the model, because the prop is a string.
- src/components/main/main.js and src/components/sidebar/rightside.js: pure pass-through markup with no state or logic.
