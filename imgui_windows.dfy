/**
 * The demo windows of `DemoImgui`: `addDemoWindow` appends a window named
 * after its position, and each GUI frame resizes a window's render target
 * when the space the GUI gives it changes size, then draws the demo into
 * it.
 */
module ImguiWindows {
  import opened Gpu

  // ---------------------------------------------------------------------
  // Decimal names (`std::to_string` on a `size_t`)

  function DigitChar(d: nat): (c: char)
    requires d < 10
    ensures '0' <= c <= '9'
  {
    "0123456789"[d]
  }

  function DigitValue(c: char): nat
    requires '0' <= c <= '9'
  {
    (c as int - '0' as int) as nat
  }

  predicate AllDigits(s: seq<char>) {
    forall i :: 0 <= i < |s| ==> '0' <= s[i] <= '9'
  }

  /** The decimal text of `n`, without leading zeros. */
  function NatToString(n: nat): (s: seq<char>)
    ensures |s| >= 1 && AllDigits(s)
    ensures |s| > 1 ==> s[0] != '0'
  {
    if n < 10 then [DigitChar(n)] else NatToString(n / 10) + [DigitChar(n % 10)]
  }

  /** The value of a text of decimal digits. */
  function ParseNat(s: seq<char>): nat
    requires AllDigits(s)
  {
    if s == [] then 0 else ParseNat(s[..|s| - 1]) * 10 + DigitValue(s[|s| - 1])
  }

  lemma {:induction false} ParseNatToString(n: nat)
    ensures ParseNat(NatToString(n)) == n
  {
    var s := NatToString(n);
    if n >= 10 {
      assert s[..|s| - 1] == NatToString(n / 10);
      ParseNatToString(n / 10);
    }
  }

  /** The name `addDemoWindow` gives the window at `index`. */
  function WindowName(index: nat): string {
    "Demo-" + NatToString(index)
  }

  /** Different positions give different names. */
  lemma WindowNamesDistinct(i: nat, j: nat)
    requires i != j
    ensures WindowName(i) != WindowName(j)
  {
    if WindowName(i) == WindowName(j) {
      assert NatToString(i) == WindowName(i)[5..] == WindowName(j)[5..] == NatToString(j);
      ParseNatToString(i);
      ParseNatToString(j);
      assert false;
    }
  }

  // ---------------------------------------------------------------------
  // One window

  /** `DemoWindow`: the embedded demo (by identity), the size of its render
      target, the open flag, the name, and the target texture and view. */
  datatype DemoWindow = DemoWindow(
    demo: nat,
    width: nat,
    height: nat,
    isOpen: bool,
    name: string,
    texture: Handle,
    view: Handle)

  /** What `ImGui::Begin` and `GetContentRegionAvail` report for a window
      this frame: collapsed or clipped, or visible with a content region
      of the given size (already truncated to `uint32_t`). */
  datatype Region = Hidden | Visible(width: nat, height: nat)

  /** A call the frame makes on an embedded demo: `resize` with the new
      size, or `frame` with the view to draw into. */
  datatype DemoCall = ResizeCall(window: nat, width: nat, height: nat) | FrameCall(window: nat, view: Handle)

  /** The outcome of one window's (or all windows') frame bookkeeping. */
  datatype Bookkeeping = Bookkeeping(windows: seq<DemoWindow>, gpu: Log, calls: seq<DemoCall>, invalidate: bool)

  /** The loop body of `DemoImgui::frame` for the window at `index`. */
  function StepWindow(index: nat, w: DemoWindow, region: Region, g: Log): (r: Bookkeeping)
    ensures |r.windows| == 1
  {
    match region
    case Hidden => Bookkeeping([w], g, [], false)
    case Visible(wd, ht) =>
      if wd == 0 || ht == 0 then Bookkeeping([w], g, [], false)
      else if wd == w.width && ht == w.height then Bookkeeping([w], g, [FrameCall(index, w.view)], false)
      else
        var g1 := if w.texture != Null then WithRelease(WithRelease(g, w.texture), w.view) else g;
        var texture := g1.next;
        var view := g1.next + 1;
        var n := w.(width := wd, height := ht, texture := texture, view := view);
        Bookkeeping([n], WithAlloc(WithAlloc(g1)), [ResizeCall(index, wd, ht), FrameCall(index, view)],
                    w.texture != Null)
  }

  /** One window's bookkeeping: a hidden or empty window is skipped
      untouched; otherwise the stored size becomes the region's size, the
      demo is resized and its render target replaced exactly when the size
      changed, and the demo then draws into the window's current view. */
  lemma StepWindowBookkeeping(index: nat, w: DemoWindow, region: Region, g: Log)
    ensures var r := StepWindow(index, w, region, g);
            var n := r.windows[0];
            n.demo == w.demo && n.name == w.name && n.isOpen == w.isOpen
    ensures region.Hidden? || region.width == 0 || region.height == 0 ==>
              StepWindow(index, w, region, g) == Bookkeeping([w], g, [], false)
    ensures region.Visible? && region.width > 0 && region.height > 0 ==>
              var r := StepWindow(index, w, region, g);
              var n := r.windows[0];
              && n.width == region.width && n.height == region.height
              && |r.calls| >= 1 && r.calls[|r.calls| - 1] == FrameCall(index, n.view)
              && (ResizeCall(index, region.width, region.height) in r.calls
                  <==> (region.width, region.height) != (w.width, w.height))
              && (r.gpu == g <==> (region.width, region.height) == (w.width, w.height))
              && (r.invalidate <==> (region.width, region.height) != (w.width, w.height) && w.texture != Null)
  {
  }

  /** A resize releases the old texture and view (when there is a texture)
      and installs a texture and view created by this step. */
  lemma ResizeReplacesTarget(index: nat, w: DemoWindow, wd: nat, ht: nat, g: Log)
    requires wd > 0 && ht > 0 && (wd, ht) != (w.width, w.height)
    ensures var r := StepWindow(index, w, Visible(wd, ht), g);
            var n := r.windows[0];
            && Created(r.gpu, n.texture) && !Created(g, n.texture)
            && Created(r.gpu, n.view) && !Created(g, n.view) && n.texture != n.view
            && (w.texture != Null ==> r.gpu.releases == g.releases + [w.texture, w.view])
            && (w.texture == Null ==> r.gpu.releases == g.releases)
  {
  }

  /** The first `i` windows, in order: the windows before window `i - 1`
      first. */
  function FramePrefix(ws: seq<DemoWindow>, regions: seq<Region>, g: Log, i: nat): (r: Bookkeeping)
    requires |regions| == |ws| && i <= |ws|
    ensures |r.windows| == i
  {
    if i == 0 then Bookkeeping([], g, [], false)
    else
      var before := FramePrefix(ws, regions, g, i - 1);
      Then(before, StepWindow(i - 1, ws[i - 1], regions[i - 1], before.gpu))
  }

  /** All windows, in order. */
  function FrameWindows(ws: seq<DemoWindow>, regions: seq<Region>, g: Log): (r: Bookkeeping)
    requires |regions| == |ws|
    ensures |r.windows| == |ws|
  {
    FramePrefix(ws, regions, g, |ws|)
  }

  /** Bookkeeping `next` done after `first`. */
  function Then(first: Bookkeeping, next: Bookkeeping): Bookkeeping {
    Bookkeeping(first.windows + next.windows, next.gpu, first.calls + next.calls, first.invalidate || next.invalidate)
  }

  /** Replacing element `i` of `a + s[i..]`, where `|a| == i`. */
  lemma ReplaceAt<T>(a: seq<T>, s: seq<T>, i: nat, y: T)
    requires |a| == i < |s|
    ensures (a + s[i..])[i] == s[i]
    ensures (a + s[i..])[i := y] == a + [y] + s[i + 1..]
  {
    assert s[i..] == [s[i]] + s[i + 1..];
    var updated, expected := (a + s[i..])[i := y], a + [y] + s[i + 1..];
    assert forall k :: 0 <= k < |s| ==> updated[k] == expected[k];
  }

  /** Window `k` after the first `i` windows are done (`k < i`). */
  lemma {:induction false} FramePrefixSizes(ws: seq<DemoWindow>, regions: seq<Region>, g: Log, i: nat, k: nat)
    requires |regions| == |ws| && k < i <= |ws|
    ensures var n := FramePrefix(ws, regions, g, i).windows[k];
            && n.name == ws[k].name && n.demo == ws[k].demo
            && (regions[k].Hidden? || regions[k].width == 0 || regions[k].height == 0 ==> n == ws[k])
            && (regions[k].Visible? && regions[k].width > 0 && regions[k].height > 0 ==>
                  n.width == regions[k].width && n.height == regions[k].height)
  {
    var before := FramePrefix(ws, regions, g, i - 1);
    var step := StepWindow(i - 1, ws[i - 1], regions[i - 1], before.gpu);
    assert FramePrefix(ws, regions, g, i).windows == before.windows + step.windows;
    if k < i - 1 {
      FramePrefixSizes(ws, regions, g, i - 1, k);
    } else {
      StepWindowBookkeeping(i - 1, ws[i - 1], regions[i - 1], before.gpu);
    }
  }

  /** Window by window: a window whose region is hidden or empty is left
      as it was; any other window ends up with its region's size; names
      and demos never change. */
  lemma FrameWindowsSizes(ws: seq<DemoWindow>, regions: seq<Region>, g: Log, k: nat)
    requires |regions| == |ws| && k < |ws|
    ensures var n := FrameWindows(ws, regions, g).windows[k];
            && n.name == ws[k].name && n.demo == ws[k].demo
            && (regions[k].Hidden? || regions[k].width == 0 || regions[k].height == 0 ==> n == ws[k])
            && (regions[k].Visible? && regions[k].width > 0 && regions[k].height > 0 ==>
                  n.width == regions[k].width && n.height == regions[k].height)
  {
    FramePrefixSizes(ws, regions, g, |ws|, k);
  }

  /** One turn of the frame loop: with the windows before `i` already
      done, doing window `i` gives the bookkeeping of the windows up to
      `i` inclusive. */
  lemma FramePrefixStep(ws: seq<DemoWindow>, regions: seq<Region>, g: Log, i: nat)
    requires |regions| == |ws| && i < |ws|
    ensures var before := FramePrefix(ws, regions, g, i);
            var step := StepWindow(i, ws[i], regions[i], before.gpu);
            var after := FramePrefix(ws, regions, g, i + 1);
            && (before.windows + ws[i..])[i] == ws[i]
            && (before.windows + ws[i..])[i := step.windows[0]] == after.windows + ws[i + 1..]
            && after.gpu == step.gpu && after.calls == before.calls + step.calls
            && after.invalidate == (before.invalidate || step.invalidate)
  {
    var before := FramePrefix(ws, regions, g, i);
    var step := StepWindow(i, ws[i], regions[i], before.gpu);
    ReplaceAt(before.windows, ws, i, step.windows[0]);
    assert before.windows + step.windows == before.windows + [step.windows[0]];
  }

  /** The frame keeps every window's name. */
  lemma FrameWindowsKeepsNames(ws: seq<DemoWindow>, regions: seq<Region>, g: Log)
    requires |regions| == |ws|
    ensures forall k :: 0 <= k < |ws| ==> FrameWindows(ws, regions, g).windows[k].name == ws[k].name
  {
    forall k | 0 <= k < |ws| {
      FrameWindowsSizes(ws, regions, g, k);
    }
  }

  /** A `resize` call made for the first `i` windows. */
  lemma {:induction false} FramePrefixResizeCalls(ws: seq<DemoWindow>, regions: seq<Region>, g: Log, i: nat, c: DemoCall)
    requires |regions| == |ws| && i <= |ws|
    requires c in FramePrefix(ws, regions, g, i).calls && c.ResizeCall?
    ensures c.window < i && regions[c.window] == Visible(c.width, c.height)
    ensures c.width > 0 && c.height > 0 && (c.width, c.height) != (ws[c.window].width, ws[c.window].height)
  {
    var before := FramePrefix(ws, regions, g, i - 1);
    var step := StepWindow(i - 1, ws[i - 1], regions[i - 1], before.gpu);
    if c in before.calls {
      FramePrefixResizeCalls(ws, regions, g, i - 1, c);
    } else {
      StepWindowBookkeeping(i - 1, ws[i - 1], regions[i - 1], before.gpu);
      assert c in step.calls;
    }
  }

  /** Every demo that gets a `resize` call was given a new, non-empty size
      this frame, and the call names that size. */
  lemma FrameWindowsResizeCalls(ws: seq<DemoWindow>, regions: seq<Region>, g: Log, c: DemoCall)
    requires |regions| == |ws|
    requires c in FrameWindows(ws, regions, g).calls && c.ResizeCall?
    ensures c.window < |ws| && regions[c.window] == Visible(c.width, c.height)
    ensures c.width > 0 && c.height > 0 && (c.width, c.height) != (ws[c.window].width, ws[c.window].height)
  {
    FramePrefixResizeCalls(ws, regions, g, |ws|, c);
  }

  // ---------------------------------------------------------------------
  // The GUI demo's window list

  class DemoImgui {
    var windows: seq<DemoWindow>

    /** Window `i` is named after its position. */
    predicate NamedInOrder()
      reads this
    {
      forall i :: 0 <= i < |windows| ==> windows[i].name == WindowName(i)
    }

    constructor ()
      ensures windows == [] && NamedInOrder()
    {
      windows := [];
    }

    /** `addDemoWindow`: append one open window, without a render target,
        named after the number of windows before it. */
    method AddDemoWindow(demo: nat)
      modifies this
      ensures windows == old(windows) + [DemoWindow(demo, 0, 0, true, WindowName(|old(windows)|), Null, Null)]
      ensures old(NamedInOrder()) ==> NamedInOrder()
    {
      var window := DemoWindow(demo, 0, 0, true, WindowName(|windows|), Null, Null);
      windows := windows + [window];
    }

    /** The loop body of `DemoImgui::frame` for window `index`, which
        holds `w` and is given `region`: returns the window's new value,
        the calls made on its demo and whether a render target was
        released. */
    method FrameWindow(wgpu: Device, index: nat, w: DemoWindow, region: Region)
      returns (n: DemoWindow, calls: seq<DemoCall>, invalidated: bool)
      modifies wgpu
      ensures var r := StepWindow(index, w, region, old(wgpu.Trace()));
              && [n] == r.windows && wgpu.Trace() == r.gpu && calls == r.calls && invalidated == r.invalidate
    {
      n, calls, invalidated := w, [], false;
      match region {
        case Hidden =>
        case Visible(width, height) =>
          if width > 0 && height > 0 {
            if width != n.width || height != n.height {
              calls := calls + [ResizeCall(index, width, height)];
              n := n.(width := width, height := height);
              if n.texture != Null {
                wgpu.Release(n.texture);
                wgpu.Release(n.view);
                invalidated := true;
              }
              var texture := wgpu.Create();
              var view := wgpu.Create();
              n := n.(texture := texture, view := view);
            }
            calls := calls + [FrameCall(index, n.view)];
          }
      }
    }

    /** The per-window part of `DemoImgui::frame`: `regions[i]` is what
        the GUI reports for window `i`; returns the calls made on the
        demos and whether the GUI's device objects must be invalidated. */
    method Frame(wgpu: Device, regions: seq<Region>) returns (calls: seq<DemoCall>, invalidateObjects: bool)
      requires |regions| == |windows|
      modifies this, wgpu
      ensures var r := FrameWindows(old(windows), regions, old(wgpu.Trace()));
              && windows == r.windows && wgpu.Trace() == r.gpu
              && calls == r.calls && invalidateObjects == r.invalidate
      ensures old(NamedInOrder()) ==> NamedInOrder()
    {
      ghost var ws := windows;
      ghost var g := wgpu.Trace();
      calls, invalidateObjects := [], false;
      // The loop updates a local copy of the list, written back once at the
      // end: nothing reads `windows` while the loop runs.
      var current := windows;
      var i, n := 0, |windows|;
      while i < n
        modifies wgpu
        invariant 0 <= i <= n == |current| == |ws|
        invariant current == FramePrefix(ws, regions, g, i).windows + ws[i..]
        invariant wgpu.Trace() == FramePrefix(ws, regions, g, i).gpu
        invariant calls == FramePrefix(ws, regions, g, i).calls
        invariant invalidateObjects == FramePrefix(ws, regions, g, i).invalidate
      {
        FramePrefixStep(ws, regions, g, i);
        var w, stepCalls, invalidated := FrameWindow(wgpu, i, current[i], regions[i]);
        calls := calls + stepCalls;
        invalidateObjects := invalidateObjects || invalidated;
        current := current[i := w];
        i := i + 1;
      }
      windows := current;
      assert ws[i..] == [];
      FrameWindowsKeepsNames(ws, regions, g);
    }
  }
}
