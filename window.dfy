/** The windowing arithmetic of `frontend/app/components/VirtualizedMessageList.tsx`:
    which slice of the message list is rendered for a scroll position, where it
    is placed, how tall the scrolling area is, and when windowing is used at all.

    Pixel quantities (`scrollTop`, `containerHeight`, `itemHeight`) are natural
    numbers; `itemHeight` is positive. */
module Virtualization {

  /** The props' defaults. */
  const DefaultItemHeight: nat := 120
  const DefaultOverscan: nat := 5

  /** Lists longer than this are windowed. */
  const VirtualizationThreshold: nat := 50

  /** `Math.ceil(a / b)` for natural `a` and positive `b`. */
  function CeilDiv(a: nat, b: nat): (q: nat)
    requires b > 0
    ensures a <= q * b < a + b
  {
    var f := a / b;
    assert f * b + a % b == a;
    if a % b == 0 then f else f + 1
  }

  /** `Math.floor(scrollTop / itemHeight)`: the first item whose box reaches
      below the top of the viewport. */
  function VisibleStart(scrollTop: nat, itemHeight: nat): (v: nat)
    requires itemHeight > 0
    ensures v * itemHeight <= scrollTop < (v + 1) * itemHeight
  {
    var v := scrollTop / itemHeight;
    assert v * itemHeight + scrollTop % itemHeight == scrollTop;
    v
  }

  /** The rendered range `[startIndex, visibleEnd)` and the pixel offset of its
      first item. */
  datatype Window = Window(startIndex: nat, visibleEnd: nat, offset: nat)

  function Min(a: int, b: int): int { if a <= b then a else b }
  function Max(a: int, b: int): int { if a >= b then a else b }

  /** The window for `n` messages at the given scroll position. */
  function ComputeWindow(n: nat, scrollTop: nat, containerHeight: nat, itemHeight: nat, overscan: nat): (w: Window)
    requires itemHeight > 0
    ensures w.visibleEnd <= n
    ensures w.offset == w.startIndex * itemHeight
  {
    var visibleStart := VisibleStart(scrollTop, itemHeight);
    var visibleEnd := Min(visibleStart + CeilDiv(containerHeight, itemHeight) + overscan, n);
    var startIndex := Max(0, visibleStart - overscan);
    Window(startIndex, visibleEnd, startIndex * itemHeight)
  }

  /** `Array.prototype.slice(start, end)` for non-negative bounds. */
  function Slice<T>(s: seq<T>, start: nat, end: nat): (r: seq<T>)
    ensures |r| == Max(0, Min(end, |s|) - Min(start, |s|))
    ensures forall k :: 0 <= k < |r| ==> r[k] == s[start + k]
  {
    var e := Min(end, |s|);
    var b := Min(start, |s|);
    if b >= e then [] else s[b..e]
  }

  /** `messages.slice(startIndex, visibleEnd)`. */
  function VisibleMessages<T>(messages: seq<T>, w: Window): seq<T> {
    Slice(messages, w.startIndex, w.visibleEnd)
  }

  /** The height of the scrolling spacer, `messages.length * itemHeight`. */
  function TotalHeight(n: nat, itemHeight: nat): nat {
    n * itemHeight
  }

  /** What the list area shows, apart from the end-of-list marker. */
  datatype Body<T> =
    | EmptyState
    | AllMessages(items: seq<T>)
    | Windowed(totalHeight: nat, offset: nat, items: seq<T>)

  /** The rendered list: its body and whether the typing indicator follows it. */
  datatype Rendered<T> = Rendered(body: Body<T>, typingIndicator: bool)

  /** The component's render: the whole list up to the threshold, the window
      above it, and the empty state for no messages. */
  function Render<T>(messages: seq<T>, isLoading: bool, scrollTop: nat, containerHeight: nat,
                     itemHeight: nat, overscan: nat): Rendered<T>
    requires itemHeight > 0
  {
    if |messages| <= VirtualizationThreshold then
      Rendered(if |messages| == 0 then EmptyState else AllMessages(messages), isLoading)
    else if |messages| == 0 then
      Rendered(EmptyState, false)
    else
      var w := ComputeWindow(|messages|, scrollTop, containerHeight, itemHeight, overscan);
      Rendered(Windowed(TotalHeight(|messages|, itemHeight), w.offset, VisibleMessages(messages, w)), isLoading)
  }

  // ---------------------------------------------------------------------------
  // Properties
  // ---------------------------------------------------------------------------

  /** The window starts no later than the first visible item and at most
      `overscan` items before it, and ends at most at the end of the list. */
  lemma WindowBounds(n: nat, scrollTop: nat, containerHeight: nat, itemHeight: nat, overscan: nat)
    requires itemHeight > 0
    ensures var w := ComputeWindow(n, scrollTop, containerHeight, itemHeight, overscan);
      var v := VisibleStart(scrollTop, itemHeight);
      && w.startIndex <= v
      && v <= w.startIndex + overscan
      && w.visibleEnd <= n
      && w.visibleEnd <= v + CeilDiv(containerHeight, itemHeight) + overscan
  {
  }

  /** The rendered items are the messages from `startIndex` on, in order, and
      none when the window is empty. */
  lemma VisibleInOrder<T>(messages: seq<T>, scrollTop: nat, containerHeight: nat, itemHeight: nat, overscan: nat)
    requires itemHeight > 0
    ensures var w := ComputeWindow(|messages|, scrollTop, containerHeight, itemHeight, overscan);
      var r := VisibleMessages(messages, w);
      && (w.startIndex <= w.visibleEnd ==> r == messages[w.startIndex..w.visibleEnd])
      && (w.startIndex >= w.visibleEnd ==> r == [])
  {
  }

  /** At most `ceil(containerHeight / itemHeight) + 2 * overscan` items are rendered. */
  lemma WindowCountBound<T>(messages: seq<T>, scrollTop: nat, containerHeight: nat, itemHeight: nat, overscan: nat)
    requires itemHeight > 0
    ensures var w := ComputeWindow(|messages|, scrollTop, containerHeight, itemHeight, overscan);
      |VisibleMessages(messages, w)| <= CeilDiv(containerHeight, itemHeight) + 2 * overscan
  {
    WindowBounds(|messages|, scrollTop, containerHeight, itemHeight, overscan);
  }

  /** Scrolled more than `overscan` items past the end, nothing is rendered. */
  lemma ScrolledPastEndIsEmpty<T>(messages: seq<T>, scrollTop: nat, containerHeight: nat, itemHeight: nat, overscan: nat)
    requires itemHeight > 0
    requires VisibleStart(scrollTop, itemHeight) >= |messages| + overscan
    ensures VisibleMessages(messages, ComputeWindow(|messages|, scrollTop, containerHeight, itemHeight, overscan)) == []
  {
  }

  /** The positioned block of rendered items lies inside the spacer: its top is
      the offset and its bottom is at most the total height. */
  lemma WindowInsideSpacer<T>(messages: seq<T>, scrollTop: nat, containerHeight: nat, itemHeight: nat, overscan: nat)
    requires itemHeight > 0
    ensures var w := ComputeWindow(|messages|, scrollTop, containerHeight, itemHeight, overscan);
      var r := VisibleMessages(messages, w);
      |r| > 0 ==> w.offset + |r| * itemHeight == w.visibleEnd * itemHeight <= TotalHeight(|messages|, itemHeight)
  {
    var w := ComputeWindow(|messages|, scrollTop, containerHeight, itemHeight, overscan);
    var r := VisibleMessages(messages, w);
    if |r| > 0 {
      assert |r| == w.visibleEnd - w.startIndex;
      assert w.offset + |r| * itemHeight == (w.startIndex + |r|) * itemHeight;
      MulMonotone(w.visibleEnd, |messages|, itemHeight);
    }
  }

  lemma MulMonotone(a: nat, b: nat, c: nat)
    requires a <= b
    ensures a * c <= b * c
  {
  }

  lemma MulCancel(a: nat, b: nat, c: nat)
    requires a * c < b * c
    ensures a < b
  {
  }

  /** With at least one item of overscan, every message whose box meets the
      viewport `[scrollTop, scrollTop + containerHeight)` is rendered. */
  lemma ViewportCovered(n: nat, scrollTop: nat, containerHeight: nat, itemHeight: nat, overscan: nat, i: nat)
    requires itemHeight > 0 && overscan >= 1
    requires i < n
    requires scrollTop < (i + 1) * itemHeight && i * itemHeight < scrollTop + containerHeight
    ensures var w := ComputeWindow(n, scrollTop, containerHeight, itemHeight, overscan);
      w.startIndex <= i < w.visibleEnd
  {
    var v := VisibleStart(scrollTop, itemHeight);
    var c := CeilDiv(containerHeight, itemHeight);
    // The item reaches below the top of the viewport: it is not above the first visible one.
    MulCancel(v, i + 1, itemHeight);
    // Its top is above the bottom of the viewport: at most `c` items after the first visible one.
    assert (v + 1 + c) * itemHeight == (v + 1) * itemHeight + c * itemHeight;
    MulCancel(i, v + 1 + c, itemHeight);
  }

  /** Without overscan, an item cut by the bottom edge of the viewport is not
      rendered: 100-pixel items scrolled by 50 in a 100-pixel viewport show the
      lower half of item 0 and the upper half of item 1, but only item 0 is
      in the window. */
  lemma NoOverscanMissesPartialItem()
    ensures var w := ComputeWindow(10, 50, 100, 100, 0);
      && 50 < (1 + 1) * 100 && 1 * 100 < 50 + 100
      && w.startIndex == 0 && w.visibleEnd == 1
  {
  }

  /** Windowing is used exactly for more than 50 messages; otherwise all
      messages are rendered in order, or the empty state when there are none.
      The typing indicator follows the list whenever a request is in flight. */
  lemma RenderChoice<T>(messages: seq<T>, isLoading: bool, scrollTop: nat, containerHeight: nat,
                        itemHeight: nat, overscan: nat)
    requires itemHeight > 0
    ensures var r := Render(messages, isLoading, scrollTop, containerHeight, itemHeight, overscan);
      && (r.body.Windowed? <==> |messages| > VirtualizationThreshold)
      && (r.body.EmptyState? <==> |messages| == 0)
      && (r.body.AllMessages? ==> r.body.items == messages)
      && r.typingIndicator == isLoading
  {
  }

  /** The defaults with 200 messages, scrolled 1200 pixels in a 600-pixel
      viewport: items 5 to 19 are rendered, shifted by 600 pixels, in a
      24000-pixel spacer. */
  lemma DefaultsExample<T>(messages: seq<T>)
    requires |messages| == 200
    ensures var w := ComputeWindow(200, 1200, 600, DefaultItemHeight, DefaultOverscan);
      && w == Window(5, 20, 600)
      && TotalHeight(200, DefaultItemHeight) == 24000
      && Render(messages, false, 1200, 600, DefaultItemHeight, DefaultOverscan).body
         == Windowed(24000, 600, messages[5..20])
  {
    assert VisibleStart(1200, 120) == 10;
    assert CeilDiv(600, 120) == 5;
  }
}
