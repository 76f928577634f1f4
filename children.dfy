/**
 * The child dispatch of `Layout.render` (src/components/layout.js): each
 * child is recognised by the name of its component type and cloned with the
 * props of its role. A child of any other type is mapped to `undefined`,
 * which `React.Children.map` leaves out of its result.
 */
module Children {
  import opened Wrappers
  import opened Sidebars

  /** A child element: the name of its component type (`child.type.name`) and its own props. */
  datatype Element<P> = Element(typeName: string, props: P)

  /** The props `render` adds to a recognised child. */
  datatype Injected =
    | PanelProps(isActive: bool, toggleSidebar: Handler)
    | MainProps(leftActive: bool, rightActive: bool)

  /** A child cloned with injected props (`React.cloneElement(child, injected)`). */
  datatype Rendered<P> = Rendered(element: Element<P>, injected: Injected)

  predicate Recognised(typeName: string)
  {
    typeName == "Leftside" || typeName == "Rightside" || typeName == "Main"
  }

  /** The callback `render` maps over the children; `None` is the `undefined` an unrecognised child gets. */
  function Inject<P>(s: LayoutState, child: Element<P>): (r: Option<Rendered<P>>)
    ensures r.None? <==> !Recognised(child.typeName)
    ensures r.Some? ==> r.value.element == child
    ensures child.typeName == "Leftside" ==> r.Some? && r.value.injected == PanelProps(s.leftActive, ToggleLeftSidebar)
    ensures child.typeName == "Rightside" ==> r.Some? && r.value.injected == PanelProps(s.rightActive, ToggleRightSidebar)
    ensures child.typeName == "Main" ==> r.Some? && r.value.injected == MainProps(s.leftActive, s.rightActive)
  {
    if child.typeName == "Leftside" then
      Some(Rendered(child, PanelProps(s.leftActive, ToggleLeftSidebar)))
    else if child.typeName == "Rightside" then
      Some(Rendered(child, PanelProps(s.rightActive, ToggleRightSidebar)))
    else if child.typeName == "Main" then
      Some(Rendered(child, MainProps(s.leftActive, s.rightActive)))
    else
      None
  }

  /** `React.Children.map(children, Inject)`, which omits the `undefined` results. */
  function Render<P>(s: LayoutState, children: seq<Element<P>>): (r: seq<Rendered<P>>)
    ensures |r| <= |children|
    ensures forall i :: 0 <= i < |r| ==> Recognised(r[i].element.typeName)
    ensures forall i :: 0 <= i < |r| ==> Inject(s, r[i].element) == Some(r[i])
  {
    if children == [] then []
    else match Inject(s, children[0])
      case None => Render(s, children[1..])
      case Some(c) => [c] + Render(s, children[1..])
  }

  /** The elements underneath rendered children. */
  function Elements<P>(rs: seq<Rendered<P>>): (es: seq<Element<P>>)
    ensures |es| == |rs|
  {
    if rs == [] then [] else [rs[0].element] + Elements(rs[1..])
  }

  /** Reference definition: the recognised children, in their original order. */
  function KeepRecognised<P>(children: seq<Element<P>>): seq<Element<P>>
  {
    if children == [] then []
    else if Recognised(children[0].typeName) then [children[0]] + KeepRecognised(children[1..])
    else KeepRecognised(children[1..])
  }

  /** Rendering keeps exactly the recognised children, in order, and drops the rest. */
  lemma {:induction false} RenderKeepsRecognisedInOrder<P>(s: LayoutState, children: seq<Element<P>>)
    ensures Elements(Render(s, children)) == KeepRecognised(children)
    decreases |children|
  {
    if children != [] {
      RenderKeepsRecognisedInOrder(s, children[1..]);
      var rest := Render(s, children[1..]);
      match Inject(s, children[0])
      case None =>
      case Some(c) =>
        assert ([c] + rest)[1..] == rest;
    }
  }

  /** Rendering distributes over concatenation of the children. */
  lemma {:induction false} RenderAppend<P>(s: LayoutState, a: seq<Element<P>>, b: seq<Element<P>>)
    ensures Render(s, a + b) == Render(s, a) + Render(s, b)
    decreases |a|
  {
    if a == [] {
      assert a + b == b;
    } else {
      assert (a + b)[0] == a[0];
      assert (a + b)[1..] == a[1..] + b;
      RenderAppend(s, a[1..], b);
    }
  }

  /** When every child is recognised, none is dropped. */
  lemma {:induction false} RenderDropsNothingRecognised<P>(s: LayoutState, children: seq<Element<P>>)
    requires forall i :: 0 <= i < |children| ==> Recognised(children[i].typeName)
    ensures Elements(Render(s, children)) == children
    decreases |children|
  {
    if children != [] {
      RenderDropsNothingRecognised(s, children[1..]);
      var c := Inject(s, children[0]).value;
      var rest := Render(s, children[1..]);
      assert ([c] + rest)[1..] == rest;
    }
  }

  /** Children of no recognised type render to nothing at all. */
  lemma {:induction false} RenderDropsUnrecognised<P>(s: LayoutState, children: seq<Element<P>>)
    requires forall i :: 0 <= i < |children| ==> !Recognised(children[i].typeName)
    ensures Render(s, children) == []
    decreases |children|
  {
    if children != [] {
      RenderDropsUnrecognised(s, children[1..]);
    }
  }

  /**
   * What each rendered child receives: a sidebar shows its own side's flag and
   * gets its own side's toggle handler; the main region gets both flags.
   */
  lemma RenderedProps<P>(s: LayoutState, children: seq<Element<P>>, i: nat)
    requires i < |Render(s, children)|
    ensures var r := Render(s, children)[i];
      match r.element.typeName
      case "Leftside" =>
        r.injected == PanelProps(s.leftActive, ToggleLeftSidebar)
        && Invoke(r.injected.toggleSidebar, s) == ToggleLeft(s)
      case "Rightside" =>
        r.injected == PanelProps(s.rightActive, ToggleRightSidebar)
        && Invoke(r.injected.toggleSidebar, s) == ToggleRight(s)
      case _ =>
        r.element.typeName == "Main" && r.injected == MainProps(s.leftActive, s.rightActive)
  {
  }
}
