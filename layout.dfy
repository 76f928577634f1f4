/**
 * The `Layout` component (src/components/layout.js) as an object whose
 * handlers update its state fields in place. The media-query result of
 * `window.matchMedia` is a parameter; the window's resize listener is the
 * `subscribed` flag together with `OnResize`, the window's dispatch.
 */
module Layout {
  import opened Wrappers
  import opened Sidebars

  class Layout {
    /** The theme name chosen at construction; it selects the stylesheet. */
    const theme: string
    var leftActive: bool
    var rightActive: bool
    var isMediumViewport: Option<bool>
    /** Whether `isMediumViewport` is registered as the window's resize listener. */
    var subscribed: bool

    /** `this.state` as a value. */
    function State(): LayoutState
      reads this
    {
      LayoutState(leftActive, rightActive, isMediumViewport)
    }

    /** The object invariant: the flag has been evaluated and the sides are exclusive. */
    ghost predicate Valid()
      reads this
    {
      isMediumViewport.Some? && Exclusive(State())
    }

    /** `matches` is the media query's result when the constructor runs. */
    constructor (themeProp: Option<string>, matches: bool)
      ensures Valid()
      ensures theme == ThemeName(themeProp)
      ensures State() == Construct(matches)
      ensures !subscribed
    {
      var t := if themeProp.Some? then themeProp.value else "";
      if t == "" {
        t := DefaultTheme;
      }
      theme := t;
      leftActive, rightActive, isMediumViewport := false, false, None;
      subscribed := false;
      new;
      var _ := IsMediumViewport(matches);
    }

    /** `componentDidMount`: register the resize listener. */
    method ComponentDidMount()
      modifies this`subscribed
      ensures subscribed
    {
      subscribed := true;
    }

    /** `componentWillUnmount`: remove the resize listener. */
    method ComponentWillUnmount()
      modifies this`subscribed
      ensures !subscribed
    {
      subscribed := false;
    }

    /**
     * The viewport evaluation handler. `calledSetState` reports whether the
     * update went through `setState` rather than the direct write of the
     * first evaluation (or no write at all).
     */
    method IsMediumViewport(matches: bool) returns (calledSetState: bool)
      modifies this`isMediumViewport, this`rightActive
      ensures State() == Evaluate(old(State()), matches)
      ensures calledSetState == EvaluationCallsSetState(old(State()), matches)
      ensures Valid()
    {
      calledSetState := false;
      if isMediumViewport.None? {
        isMediumViewport := Some(matches);
      } else if isMediumViewport != Some(matches) {
        isMediumViewport := Some(matches);
        calledSetState := true;
      }
      if leftActive && rightActive && matches {
        rightActive := false;
        calledSetState := true;
      }
    }

    /** The window delivering a resize: it reaches the handler only while subscribed. */
    method OnResize(matches: bool)
      requires Valid()
      modifies this`isMediumViewport, this`rightActive
      ensures Valid()
      ensures old(subscribed) ==> State() == Evaluate(old(State()), matches)
      ensures !old(subscribed) ==> State() == old(State())
    {
      if subscribed {
        var _ := IsMediumViewport(matches);
      }
    }

    method ToggleLeftSidebar()
      requires Valid()
      modifies this`leftActive, this`rightActive
      ensures Valid()
      ensures State() == ToggleLeft(old(State()))
    {
      leftActive := !leftActive;
      if rightActive && isMediumViewport == Some(true) {
        rightActive := false;
      }
    }

    method ToggleRightSidebar()
      requires Valid()
      modifies this`leftActive, this`rightActive
      ensures Valid()
      ensures State() == ToggleRight(old(State()))
    {
      rightActive := !rightActive;
      if leftActive && isMediumViewport == Some(true) {
        leftActive := false;
      }
    }
  }

  /**
   * A client of the contracts above: open both sides in a wide viewport,
   * narrow it, unmount, and resize again.
   */
  method UnmountedLayoutIgnoresResize()
  {
    var layout := new Layout(None, false);
    assert layout.theme == "joy";
    layout.ComponentDidMount();
    layout.ToggleLeftSidebar();
    layout.ToggleRightSidebar();
    assert layout.leftActive && layout.rightActive;
    layout.OnResize(true);
    assert layout.leftActive && !layout.rightActive;
    layout.ComponentWillUnmount();
    layout.OnResize(false);
    assert layout.State() == LayoutState(true, false, Some(true));
  }
}
