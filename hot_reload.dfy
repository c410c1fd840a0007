/**
 * The shader hot-reload state machine of the fragment-shader demo, as pure
 * transitions over the demo's fields and the device's handle log.
 *
 * `Rebuild` installs a freshly created fragment module as the pending
 * candidate and clears the error text; the backend may then report an
 * error (`OnError`); the next `Frame` either discards the candidate (an
 * error was reported) or promotes it to a new render pipeline, releasing
 * the old one. `Revision.AsWritten` follows the code; `Revision.Corrected`
 * also releases a candidate that is still pending when it is superseded or
 * when the demo is cleaned up, and does not release a null pipeline.
 */
module HotReload {
  import opened Gpu
  import opened Revisions

  /** `BufferInfo::frameNumber` is a `uint32_t`. */
  const FrameNumberModulus: nat := 0x1_0000_0000

  /** The fields of `DemoFragment` that hold handles or take part in the
      state machine; `width` and `height` are the uniform buffer's size. */
  datatype Fragment = Fragment(
    gpuBufferInfo: Handle,
    bindGroupLayout: Handle,
    bindGroup: Handle,
    vertexShaderModule: Handle,
    fragmentModule: Handle,
    lastError: string,
    pipeline: Handle,
    frameNumber: nat,
    width: nat,
    height: nat)

  /** The demo together with the device it allocates from. */
  datatype World = World(demo: Fragment, gpu: Log)

  /** The three states of the hot-reload machine: no candidate pending, a
      candidate pending with no error seen, a candidate pending whose
      compilation has reported an error. */
  datatype Phase = Idle | Compiling | Failed

  function PhaseOf(d: Fragment): Phase {
    if d.fragmentModule == Null then Idle
    else if d.lastError == "" then Compiling
    else Failed
  }

  /** A freshly constructed (value-initialised) demo: every handle null. */
  const Blank := Fragment(Null, Null, Null, Null, Null, "", Null, 0, 0, 0)

  /** How many of the demo's handle fields hold `h`. */
  function Holders(d: Fragment, h: Handle): nat {
    (if d.gpuBufferInfo == h then 1 else 0) + (if d.bindGroupLayout == h then 1 else 0)
    + (if d.bindGroup == h then 1 else 0) + (if d.vertexShaderModule == h then 1 else 0)
    + (if d.fragmentModule == h then 1 else 0) + (if d.pipeline == h then 1 else 0)
  }

  /** The four resources `init` creates are in place. */
  predicate Initialised(d: Fragment) {
    d.gpuBufferInfo != Null && d.bindGroupLayout != Null && d.bindGroup != Null && d.vertexShaderModule != Null
  }

  /** Single ownership: every created handle is either held by exactly one
      of the demo's fields and never released, or held by none and released
      exactly once; a handle never created is neither held nor released, and
      the null handle is never released. */
  ghost predicate Accounted(w: World) {
    && Released(w.gpu, Null) == 0
    && forall h: Handle :: h != Null ==>
         Released(w.gpu, h) + Holders(w.demo, h) == if Created(w.gpu, h) then 1 else 0
  }

  /** No handle is released twice: every created handle is held by at most
      one field or released at most once, never both; a handle never
      created is neither held nor released, and the null handle is never
      released. Unlike `Accounted`, a leaked handle is allowed. */
  ghost predicate AtMostOnce(w: World) {
    && Released(w.gpu, Null) == 0
    && forall h: Handle :: h != Null ==>
         Released(w.gpu, h) + Holders(w.demo, h) <= if Created(w.gpu, h) then 1 else 0
  }

  /** A created handle that the demo no longer holds and that was never
      released: nothing can release it any more. */
  ghost predicate Leaked(w: World, h: Handle) {
    Created(w.gpu, h) && Holders(w.demo, h) == 0 && Released(w.gpu, h) == 0
  }

  /** `DemoFragment::rebuild`: clear the error text and create the new
      candidate module from the shader buffer. */
  function Rebuild(w: World, rev: Revision): (r: World)
    ensures r.demo.lastError == "" && PhaseOf(r.demo) != Failed
    ensures r.demo.fragmentModule == w.gpu.next && Created(r.gpu, r.demo.fragmentModule)
    ensures r.demo.pipeline == w.demo.pipeline && Initialised(r.demo) == Initialised(w.demo)
    ensures r.demo == w.demo.(lastError := "", fragmentModule := w.gpu.next)
    ensures r.gpu.next == w.gpu.next + 1
    ensures rev == AsWritten ==> r.gpu.releases == w.gpu.releases
    ensures rev == Corrected ==>
              r.gpu.releases == w.gpu.releases + if w.demo.fragmentModule != Null then [w.demo.fragmentModule] else []
  {
    var g := if rev == Corrected && w.demo.fragmentModule != Null
             then WithRelease(w.gpu, w.demo.fragmentModule) else w.gpu;
    World(w.demo.(lastError := "", fragmentModule := g.next), WithAlloc(g))
  }

  /** `DemoFragment::onError`: the backend reports an error message. */
  function OnError(w: World, message: string): (r: World)
    ensures r.demo.lastError == message
    ensures r.gpu == w.gpu && r.demo.(lastError := w.demo.lastError) == w.demo
  {
    w.(demo := w.demo.(lastError := message))
  }

  /** `DemoFragment::resize`: record the target size in the uniform data. */
  function Resize(w: World, width: nat, height: nat): (r: World)
    ensures r.demo.width == width && r.demo.height == height
    ensures r.gpu == w.gpu && r.demo.(width := w.demo.width, height := w.demo.height) == w.demo
  {
    w.(demo := w.demo.(width := width, height := height))
  }

  /** `DemoFragment::frame`: draw with the current pipeline (if any), then
      resolve the pending candidate. */
  function Frame(w: World): (r: World)
    ensures PhaseOf(r.demo) == Idle
    ensures r.demo.lastError == w.demo.lastError && Initialised(r.demo) == Initialised(w.demo)
    ensures r.demo.frameNumber ==
              if w.demo.pipeline != Null then (w.demo.frameNumber + 1) % FrameNumberModulus
              else w.demo.frameNumber
    ensures PhaseOf(w.demo) == Idle ==> r.gpu == w.gpu && r.demo.pipeline == w.demo.pipeline
    ensures PhaseOf(w.demo) == Failed ==>
              r.demo.pipeline == w.demo.pipeline && r.gpu == WithRelease(w.gpu, w.demo.fragmentModule)
    ensures PhaseOf(w.demo) == Compiling ==>
              !Created(w.gpu, r.demo.pipeline) && Created(r.gpu, r.demo.pipeline)
    ensures PhaseOf(w.demo) != Compiling ==>
              r.demo == w.demo.(fragmentModule := Null, frameNumber := r.demo.frameNumber)
    ensures PhaseOf(w.demo) == Compiling ==>
              r.demo == w.demo.(fragmentModule := Null, frameNumber := r.demo.frameNumber, pipeline := r.demo.pipeline)
  {
    var d := w.demo;
    var counted := if d.pipeline != Null then d.(frameNumber := (d.frameNumber + 1) % FrameNumberModulus) else d;
    if d.fragmentModule == Null then
      World(counted, w.gpu)
    else if d.lastError != "" then
      World(counted.(fragmentModule := Null), WithRelease(w.gpu, d.fragmentModule))
    else
      var g1 := if d.pipeline != Null then WithRelease(w.gpu, d.pipeline) else w.gpu;
      var layout := g1.next;
      var pipeline := g1.next + 1;
      var g2 := WithRelease(WithRelease(WithAlloc(WithAlloc(g1)), d.fragmentModule), layout);
      World(counted.(pipeline := pipeline, fragmentModule := Null), g2)
  }

  /** `DemoFragment::init`: create the uniform buffer, the bind group layout,
      the bind group and the vertex module, then rebuild. */
  function Init(w: World): (r: World)
    ensures Initialised(r.demo) && PhaseOf(r.demo) == Compiling
    ensures r.demo.pipeline == w.demo.pipeline
    ensures r.demo == w.demo.(gpuBufferInfo := w.gpu.next, bindGroupLayout := w.gpu.next + 1,
                              bindGroup := w.gpu.next + 2, vertexShaderModule := w.gpu.next + 3,
                              fragmentModule := w.gpu.next + 4, lastError := "")
    ensures r.gpu == Log(w.gpu.next + 5, w.gpu.releases)
  {
    var g := w.gpu;
    var d := w.demo.(gpuBufferInfo := g.next, bindGroupLayout := g.next + 1,
                     bindGroup := g.next + 2, vertexShaderModule := g.next + 3);
    Rebuild(World(d, WithAlloc(WithAlloc(WithAlloc(WithAlloc(g))))), AsWritten)
  }

  /** The corrected cleanup's first two releases: the pending candidate
      and the pipeline, each only when it exists. */
  function CleanupOptional(w: World): Log {
    var d := w.demo;
    var g0 := if d.fragmentModule != Null then WithRelease(w.gpu, d.fragmentModule) else w.gpu;
    if d.pipeline != Null then WithRelease(g0, d.pipeline) else g0
  }

  /** The releases `cleanup` always makes: the vertex module, the buffer,
      the bind group and its layout. */
  function ReleaseResources(g: Log, d: Fragment): Log {
    WithRelease(WithRelease(WithRelease(WithRelease(g, d.vertexShaderModule), d.gpuBufferInfo),
                            d.bindGroup), d.bindGroupLayout)
  }

  /** `DemoFragment::cleanup`: release the pipeline, the vertex module, the
      buffer, the bind group and its layout. As written, the pipeline is
      released even when null and a pending candidate is not released. */
  function Cleanup(w: World, rev: Revision): (r: World)
    ensures r.demo == w.demo && r.gpu.next == w.gpu.next
  {
    var g := if rev == Corrected then CleanupOptional(w) else WithRelease(w.gpu, w.demo.pipeline);
    World(w.demo, ReleaseResources(g, w.demo))
  }

  /** What can happen between `init` and `cleanup`: the user asks for a
      rebuild, the backend reports an error, a frame is drawn, the target
      is resized. */
  datatype Event = RebuildRequested | ErrorReported(message: string) | FrameDrawn | Resized(width: nat, height: nat)

  function Step(w: World, e: Event, rev: Revision): World {
    match e
    case RebuildRequested => Rebuild(w, rev)
    case ErrorReported(m) => OnError(w, m)
    case FrameDrawn => Frame(w)
    case Resized(wd, ht) => Resize(w, wd, ht)
  }

  function Run(w: World, es: seq<Event>, rev: Revision): World
    decreases |es|
  {
    if es == [] then w else Run(Step(w, es[0], rev), es[1..], rev)
  }

  // ---------------------------------------------------------------------
  // Ownership: each transition keeps the handle accounting.

  /** The accounting carries over from `w` to `r` when, handle by handle,
      what `r` newly released plus what it holds equals what `w` held plus
      what was newly created. */
  lemma {:induction false} AccountedTransfer(w: World, r: World, xs: seq<Handle>)
    requires Accounted(w)
    requires r.gpu.next >= w.gpu.next && r.gpu.releases == w.gpu.releases + xs && Null !in xs
    requires forall h: Handle :: h != Null ==>
               multiset(xs)[h] + Holders(r.demo, h)
               == Holders(w.demo, h) + (if w.gpu.next <= h < r.gpu.next then 1 else 0)
    ensures Accounted(r)
  {
    assert multiset(r.gpu.releases) == multiset(w.gpu.releases) + multiset(xs);
  }

  lemma BlankAccounted()
    ensures Accounted(World(Blank, FreshLog))
  {
  }

  lemma {:induction false} InitAccounted(w: World)
    requires Accounted(w) && w.demo == Blank
    ensures Accounted(Init(w))
  {
    AccountedTransfer(w, Init(w), []);
  }

  lemma {:induction false} FramePreservesAccounted(w: World)
    requires Accounted(w)
    ensures Accounted(Frame(w))
  {
    var d := w.demo;
    if d.fragmentModule == Null {
      AccountedTransfer(w, Frame(w), []);
    } else if d.lastError != "" {
      AccountedTransfer(w, Frame(w), [d.fragmentModule]);
    } else {
      PromotionAccounted(w);
    }
  }

  /** What a promoting frame releases, in order: the old pipeline (when
      there is one), the candidate module and the new pipeline layout. */
  function PromotionReleases(w: World): seq<Handle> {
    var m, p, layout := w.demo.fragmentModule, w.demo.pipeline, w.gpu.next;
    if p != Null then [p, m, layout] else [m, layout]
  }

  lemma PromotionReleasesCount(w: World, h: Handle)
    ensures multiset(PromotionReleases(w))[h] ==
              (if h == w.demo.fragmentModule then 1 else 0) + (if h == w.gpu.next then 1 else 0)
              + (if w.demo.pipeline != Null && h == w.demo.pipeline then 1 else 0)
  {
    var m, p, layout := w.demo.fragmentModule, w.demo.pipeline, w.gpu.next;
    if p != Null {
      assert [p, m, layout] == [p] + [m] + [layout];
    } else {
      assert [m, layout] == [m] + [layout];
    }
  }

  /** A promoting frame holds the new pipeline in place of the old one and
      of the candidate, and logs two creations and `PromotionReleases`. */
  lemma PromotionResult(w: World)
    requires PhaseOf(w.demo) == Compiling
    ensures var r := Frame(w);
            && r.demo == w.demo.(pipeline := w.gpu.next + 1, fragmentModule := Null, frameNumber := r.demo.frameNumber)
            && r.gpu == Log(w.gpu.next + 2, w.gpu.releases + PromotionReleases(w))
  {
  }

  /** After a promoting frame, `h` has one holder fewer for being the old
      candidate or the old pipeline, and one more for being the new
      pipeline. */
  lemma PromotionHolders(w: World, h: Handle)
    requires PhaseOf(w.demo) == Compiling && h != Null
    ensures Holders(Frame(w).demo, h) + (if h == w.demo.fragmentModule then 1 else 0)
              + (if w.demo.pipeline != Null && h == w.demo.pipeline then 1 else 0)
            == Holders(w.demo, h) + (if h == w.gpu.next + 1 then 1 else 0)
  {
    PromotionResult(w);
  }

  lemma {:induction false} PromotionAccounted(w: World)
    requires Accounted(w) && PhaseOf(w.demo) == Compiling
    ensures Accounted(Frame(w))
  {
    var d := w.demo;
    var layout := w.gpu.next;
    var xs: seq<Handle> := PromotionReleases(w);
    PromotionResult(w);
    assert Released(w.gpu, d.fragmentModule) + Holders(d, d.fragmentModule) == 1;
    assert d.pipeline != Null ==> Released(w.gpu, d.pipeline) + Holders(d, d.pipeline) == 1;
    forall h: Handle | h != Null
      ensures multiset(xs)[h] + Holders(Frame(w).demo, h) == Holders(d, h) + (if layout <= h < layout + 2 then 1 else 0)
    {
      assert Released(w.gpu, h) + Holders(d, h) == if Created(w.gpu, h) then 1 else 0;
      PromotionReleasesCount(w, h);
      PromotionHolders(w, h);
    }
    AccountedTransfer(w, Frame(w), xs);
  }

  /** A frame releases the pending candidate exactly once, whichever way it
      is resolved. */
  lemma {:induction false} FrameReleasesPendingOnce(w: World)
    requires AtMostOnce(w) && w.demo.fragmentModule != Null
    ensures Released(w.gpu, w.demo.fragmentModule) == 0
    ensures Released(Frame(w).gpu, w.demo.fragmentModule) == 1
  {
    var m := w.demo.fragmentModule;
    assert Released(w.gpu, m) + Holders(w.demo, m) <= 1;
    if w.demo.lastError != "" {
      ReleasedOnce(w.gpu, m, m);
    } else {
      PromotionResult(w);
      PromotionReleasesCount(w, m);
      assert multiset(Frame(w).gpu.releases) == multiset(w.gpu.releases) + multiset(PromotionReleases(w));
    }
  }

  /** A frame that promotes the candidate releases the previous pipeline
      (when there was one) and installs a pipeline never released. */
  lemma {:induction false} FramePromotes(w: World)
    requires AtMostOnce(w) && PhaseOf(w.demo) == Compiling
    ensures var r := Frame(w);
            && r.demo.pipeline != Null && r.demo.pipeline != w.demo.pipeline
            && Released(r.gpu, r.demo.pipeline) == 0
            && (w.demo.pipeline != Null ==> Released(r.gpu, w.demo.pipeline) == 1)
  {
    var r := Frame(w);
    var p := w.demo.pipeline;
    PromotionResult(w);
    assert multiset(r.gpu.releases) == multiset(w.gpu.releases) + multiset(PromotionReleases(w));
    PromotionReleasesCount(w, r.demo.pipeline);
    assert Released(w.gpu, r.demo.pipeline) + Holders(w.demo, r.demo.pipeline) <= 0;
    if p != Null {
      PromotionReleasesCount(w, p);
      assert Released(w.gpu, p) + Holders(w.demo, p) <= 1;
    }
  }

  lemma {:induction false} RebuildWhenIdlePreservesAccounted(w: World, rev: Revision)
    requires Accounted(w) && (PhaseOf(w.demo) == Idle || rev == Corrected)
    ensures Accounted(Rebuild(w, rev))
  {
    var m := w.demo.fragmentModule;
    if m != Null {
      assert Released(w.gpu, m) + Holders(w.demo, m) == 1;
      AccountedTransfer(w, Rebuild(w, rev), [m]);
    } else {
      AccountedTransfer(w, Rebuild(w, rev), []);
    }
  }

  /** As written, a second rebuild before the next frame overwrites the
      pending candidate without releasing it: the handle is leaked. */
  lemma {:induction false} RebuildWhilePendingLeaks(w: World)
    requires Accounted(w) && PhaseOf(w.demo) != Idle
    ensures Leaked(Rebuild(w, AsWritten), w.demo.fragmentModule)
    ensures !Accounted(Rebuild(w, AsWritten))
  {
    var m := w.demo.fragmentModule;
    assert Released(w.gpu, m) + Holders(w.demo, m) == 1;
  }

  lemma {:induction false} StepPreservesAccounted(w: World, e: Event)
    requires Accounted(w)
    ensures Accounted(Step(w, e, Corrected))
  {
    match e
    case RebuildRequested => RebuildWhenIdlePreservesAccounted(w, Corrected);
    case ErrorReported(m) => AccountedTransfer(w, OnError(w, m), []);
    case FrameDrawn => FramePreservesAccounted(w);
    case Resized(wd, ht) => AccountedTransfer(w, Resize(w, wd, ht), []);
  }

  lemma {:induction false} RunPreservesAccounted(w: World, es: seq<Event>)
    requires Accounted(w)
    ensures Accounted(Run(w, es, Corrected))
    ensures Initialised(Run(w, es, Corrected).demo) == Initialised(w.demo)
    decreases |es|
  {
    if es != [] {
      StepPreservesAccounted(w, es[0]);
      RunPreservesAccounted(Step(w, es[0], Corrected), es[1..]);
    }
  }

  // ---------------------------------------------------------------------
  // Safety as written: nothing is released twice, leaks or not.

  lemma AccountedAtMostOnce(w: World)
    requires Accounted(w)
    ensures AtMostOnce(w)
  {
  }

  /** `AtMostOnce` carries over from `w` to `r` when, handle by handle,
      what `r` newly released plus what it holds is at most what `w` held
      plus what was newly created. */
  lemma {:induction false} AtMostOnceTransfer(w: World, r: World, xs: seq<Handle>)
    requires AtMostOnce(w)
    requires r.gpu.next >= w.gpu.next && r.gpu.releases == w.gpu.releases + xs && Null !in xs
    requires forall h: Handle :: h != Null ==>
               multiset(xs)[h] + Holders(r.demo, h)
               <= Holders(w.demo, h) + (if w.gpu.next <= h < r.gpu.next then 1 else 0)
    ensures AtMostOnce(r)
  {
    assert multiset(r.gpu.releases) == multiset(w.gpu.releases) + multiset(xs);
  }

  /** A rebuild, as written or corrected, releases nothing twice: as
      written it may drop the candidate, which only leaks it. */
  lemma {:induction false} RebuildPreservesAtMostOnce(w: World, rev: Revision)
    requires AtMostOnce(w)
    ensures AtMostOnce(Rebuild(w, rev))
  {
    var m := w.demo.fragmentModule;
    if rev == Corrected && m != Null {
      AtMostOnceTransfer(w, Rebuild(w, rev), [m]);
    } else {
      AtMostOnceTransfer(w, Rebuild(w, rev), []);
    }
  }

  lemma {:induction false} FramePreservesAtMostOnce(w: World)
    requires AtMostOnce(w)
    ensures AtMostOnce(Frame(w))
  {
    var d := w.demo;
    if d.fragmentModule == Null {
      AtMostOnceTransfer(w, Frame(w), []);
    } else if d.lastError != "" {
      AtMostOnceTransfer(w, Frame(w), [d.fragmentModule]);
    } else {
      PromotionAtMostOnce(w);
    }
  }

  lemma {:induction false} PromotionAtMostOnce(w: World)
    requires AtMostOnce(w) && PhaseOf(w.demo) == Compiling
    ensures AtMostOnce(Frame(w))
  {
    var layout := w.gpu.next;
    var xs: seq<Handle> := PromotionReleases(w);
    PromotionResult(w);
    forall h: Handle | h != Null
      ensures multiset(xs)[h] + Holders(Frame(w).demo, h)
              <= Holders(w.demo, h) + (if layout <= h < layout + 2 then 1 else 0)
    {
      PromotionReleasesCount(w, h);
      PromotionHolders(w, h);
    }
    AtMostOnceTransfer(w, Frame(w), xs);
  }

  lemma {:induction false} StepPreservesAtMostOnce(w: World, e: Event, rev: Revision)
    requires AtMostOnce(w)
    ensures AtMostOnce(Step(w, e, rev))
  {
    match e
    case RebuildRequested => RebuildPreservesAtMostOnce(w, rev);
    case ErrorReported(m) => AtMostOnceTransfer(w, OnError(w, m), []);
    case FrameDrawn => FramePreservesAtMostOnce(w);
    case Resized(wd, ht) => AtMostOnceTransfer(w, Resize(w, wd, ht), []);
  }

  /** Any sequence of transitions, the code as written included, never
      releases a handle twice and never releases the null handle. */
  lemma {:induction false} RunPreservesAtMostOnce(w: World, es: seq<Event>, rev: Revision)
    requires AtMostOnce(w)
    ensures AtMostOnce(Run(w, es, rev))
    ensures Initialised(Run(w, es, rev).demo) == Initialised(w.demo)
    decreases |es|
  {
    if es != [] {
      StepPreservesAtMostOnce(w, es[0], rev);
      RunPreservesAtMostOnce(Step(w, es[0], rev), es[1..], rev);
    }
  }

  /** As written, init and any events after it never release a handle
      twice nor the null handle. */
  lemma {:induction false} AsWrittenRunReleasesAtMostOnce(es: seq<Event>)
    ensures var w := Run(Init(World(Blank, FreshLog)), es, AsWritten);
            && Released(w.gpu, Null) == 0
            && forall h :: Released(w.gpu, h) <= 1
  {
    BlankAccounted();
    InitAccounted(World(Blank, FreshLog));
    AccountedAtMostOnce(Init(World(Blank, FreshLog)));
    RunPreservesAtMostOnce(Init(World(Blank, FreshLog)), es, AsWritten);
    var w := Run(Init(World(Blank, FreshLog)), es, AsWritten);
    forall h: Handle
      ensures Released(w.gpu, h) <= 1
    {
      if h != Null {
        assert Released(w.gpu, h) + Holders(w.demo, h) <= if Created(w.gpu, h) then 1 else 0;
      }
    }
  }

  /** As written, the whole lifetime, init, any events, cleanup, releases
      no handle more than once. The null handle is released at most once:
      by cleanup, when no pipeline was ever built. */
  lemma {:induction false} AsWrittenLifetimeReleasesAtMostOnce(es: seq<Event>)
    ensures var w := Cleanup(Run(Init(World(Blank, FreshLog)), es, AsWritten), AsWritten);
            forall h :: Released(w.gpu, h) <= 1
  {
    var w0 := Init(World(Blank, FreshLog));
    BlankAccounted();
    InitAccounted(World(Blank, FreshLog));
    AccountedAtMostOnce(w0);
    RunPreservesAtMostOnce(w0, es, AsWritten);
    var w := Run(w0, es, AsWritten);
    forall h: Handle
      ensures Released(Cleanup(w, AsWritten).gpu, h) <= 1
    {
      AsWrittenCleanupAtMostOnce(w, h);
    }
  }

  /** As written, cleanup of an initialised demo in which nothing was
      released twice releases no handle twice either. */
  lemma AsWrittenCleanupAtMostOnce(w: World, h: Handle)
    requires AtMostOnce(w) && Initialised(w.demo)
    ensures Released(Cleanup(w, AsWritten).gpu, h) <= 1
  {
    AsWrittenCleanupCounts(w, h);
    if h != Null {
      assert Released(w.gpu, h) + Holders(w.demo, h) <= if Created(w.gpu, h) then 1 else 0;
    }
  }

  /** Releasing the candidate and the pipeline adds one release for each
      of the two fields that holds `h`, and none for the null handle. */
  lemma CleanupOptionalCounts(w: World, h: Handle)
    ensures Released(CleanupOptional(w), h) == Released(w.gpu, h)
              + (if h != Null && w.demo.fragmentModule == h then 1 else 0)
              + (if h != Null && w.demo.pipeline == h then 1 else 0)
  {
    var d := w.demo;
    var g0 := if d.fragmentModule != Null then WithRelease(w.gpu, d.fragmentModule) else w.gpu;
    if d.fragmentModule != Null { ReleasedOnce(w.gpu, d.fragmentModule, h); }
    if d.pipeline != Null { ReleasedOnce(g0, d.pipeline, h); }
  }

  /** The four unconditional releases count once for each of the four
      fields that holds `h`. */
  lemma ReleaseResourcesCounts(g: Log, d: Fragment, h: Handle)
    ensures Released(ReleaseResources(g, d), h) == Released(g, h)
              + (if d.vertexShaderModule == h then 1 else 0) + (if d.gpuBufferInfo == h then 1 else 0)
              + (if d.bindGroup == h then 1 else 0) + (if d.bindGroupLayout == h then 1 else 0)
  {
    var g2 := WithRelease(g, d.vertexShaderModule);
    var g3 := WithRelease(g2, d.gpuBufferInfo);
    var g4 := WithRelease(g3, d.bindGroup);
    ReleasedOnce(g, d.vertexShaderModule, h);
    ReleasedOnce(g2, d.gpuBufferInfo, h);
    ReleasedOnce(g3, d.bindGroup, h);
    ReleasedOnce(g4, d.bindGroupLayout, h);
  }

  /** As written, cleanup releases the pipeline field, null or not, and the
      four resources, once per field holding the handle; a pending
      candidate is never released. */
  lemma AsWrittenCleanupCounts(w: World, h: Handle)
    ensures Released(Cleanup(w, AsWritten).gpu, h) == Released(w.gpu, h)
              + (if w.demo.pipeline == h then 1 else 0)
              + (if w.demo.vertexShaderModule == h then 1 else 0) + (if w.demo.gpuBufferInfo == h then 1 else 0)
              + (if w.demo.bindGroup == h then 1 else 0) + (if w.demo.bindGroupLayout == h then 1 else 0)
  {
    ReleasedOnce(w.gpu, w.demo.pipeline, h);
    ReleaseResourcesCounts(WithRelease(w.gpu, w.demo.pipeline), w.demo, h);
  }

  /** Corrected, cleanup of an initialised demo releases each handle once
      per field that holds it, and never the null handle. */
  lemma CleanupCounts(w: World, h: Handle)
    requires Initialised(w.demo)
    ensures Released(Cleanup(w, Corrected).gpu, h) == Released(w.gpu, h) + (if h != Null then Holders(w.demo, h) else 0)
  {
    var d := w.demo;
    CleanupOptionalCounts(w, h);
    ReleaseResourcesCounts(CleanupOptional(w), d, h);
    if h == Null {
      assert Released(CleanupOptional(w), h) == Released(w.gpu, h);
    } else {
      assert Released(CleanupOptional(w), h) == Released(w.gpu, h)
               + (if d.fragmentModule == h then 1 else 0) + (if d.pipeline == h then 1 else 0);
    }
  }

  /** With the correction, cleanup leaves every created handle released
      exactly once and never releases the null handle. */
  lemma {:induction false} CorrectedCleanupReleasesAll(w: World)
    requires Accounted(w) && Initialised(w.demo)
    ensures forall h :: Released(Cleanup(w, Corrected).gpu, h) == if Created(w.gpu, h) then 1 else 0
  {
    forall h: Handle
      ensures Released(Cleanup(w, Corrected).gpu, h) == if Created(w.gpu, h) then 1 else 0
    {
      CleanupCounts(w, h);
      if h != Null {
        assert Released(w.gpu, h) + Holders(w.demo, h) == if Created(w.gpu, h) then 1 else 0;
      }
    }
  }

  /** The whole lifetime, init, any events, cleanup, with the correction:
      every handle the demo created is released exactly once, and the null
      handle never is. */
  lemma {:induction false} CorrectedLifetimeReleasesEverything(es: seq<Event>)
    ensures var w := Cleanup(Run(Init(World(Blank, FreshLog)), es, Corrected), Corrected);
            forall h :: Released(w.gpu, h) == if Created(w.gpu, h) then 1 else 0
  {
    BlankAccounted();
    InitAccounted(World(Blank, FreshLog));
    var w1 := Init(World(Blank, FreshLog));
    RunPreservesAccounted(w1, es);
    CorrectedCleanupReleasesAll(Run(w1, es, Corrected));
  }

  /** The demo right after `init` on a fresh device: handles 1 to 4 are
      its resources and handle 5 the pending candidate. */
  lemma InitFromBlank()
    ensures Init(World(Blank, FreshLog)) == World(Fragment(1, 2, 3, 4, 5, "", Null, 0, 0, 0), Log(6, []))
  {
  }

  /** As written, a lifetime with two rebuilds before a frame never
      releases the first candidate (handle 5). */
  lemma AsWrittenRebuildTwiceLeaks()
    ensures var w := Cleanup(Run(Init(World(Blank, FreshLog)), [RebuildRequested, FrameDrawn], AsWritten), AsWritten);
            Created(w.gpu, 5) && Released(w.gpu, 5) == 0
  {
    InitFromBlank();
    var w0 := World(Fragment(1, 2, 3, 4, 5, "", Null, 0, 0, 0), Log(6, []));
    var w1 := World(w0.demo.(fragmentModule := 6), Log(7, []));
    assert Rebuild(w0, AsWritten) == w1;
    var w2 := World(w0.demo.(fragmentModule := Null, pipeline := 8), Log(9, [6, 7]));
    assert Frame(w1) == w2;
    var es := [RebuildRequested, FrameDrawn];
    assert Run(w0, es, AsWritten) == w2 by {
      assert es[1..][1..] == [];
    }
    var rs := [6, 7, 8, 4, 1, 3, 2];
    assert Cleanup(w2, AsWritten).gpu == Log(9, rs);
    assert 5 !in rs;
  }

  /** As written, a lifetime whose first frame never comes leaks the
      candidate (handle 5) and releases the null pipeline once. */
  lemma AsWrittenEarlyCleanupLeaks()
    ensures var w := Cleanup(Init(World(Blank, FreshLog)), AsWritten);
            Created(w.gpu, 5) && Released(w.gpu, 5) == 0 && Released(w.gpu, Null) == 1
  {
    InitFromBlank();
    var w0 := World(Fragment(1, 2, 3, 4, 5, "", Null, 0, 0, 0), Log(6, []));
    var g1 := WithRelease(w0.gpu, Null);
    assert Cleanup(w0, AsWritten).gpu == ReleaseResources(g1, w0.demo);
    ReleasedOnce(w0.gpu, Null, 5);
    ReleasedOnce(w0.gpu, Null, Null);
    ReleaseResourcesCounts(g1, w0.demo, 5);
    ReleaseResourcesCounts(g1, w0.demo, Null);
  }

  /** A frame neither releases nor takes up a leaked handle. */
  lemma FrameKeepsLeaked(w: World, h: Handle)
    requires Leaked(w, h)
    ensures Leaked(Frame(w), h)
  {
    var d := w.demo;
    var m, p := d.fragmentModule, d.pipeline;
    if m != Null && d.lastError != "" {
      ReleasedOnce(w.gpu, m, h);
    } else if m != Null {
      var g1 := if p != Null then WithRelease(w.gpu, p) else w.gpu;
      if p != Null {
        ReleasedOnce(w.gpu, p, h);
      }
      var g2 := WithAlloc(WithAlloc(g1));
      ReleasedOnce(g2, m, h);
      ReleasedOnce(WithRelease(g2, m), g1.next, h);
      assert Frame(w).gpu == WithRelease(WithRelease(g2, m), g1.next);
      assert Frame(w).demo.pipeline == g1.next + 1;
    }
  }

  /** A leaked handle stays leaked under every transition as written. */
  lemma {:induction false} LeakIsPermanent(w: World, es: seq<Event>, h: Handle)
    requires Leaked(w, h)
    ensures Leaked(Run(w, es, AsWritten), h)
    decreases |es|
  {
    if es != [] {
      var w1 := Step(w, es[0], AsWritten);
      if es[0] == FrameDrawn {
        FrameKeepsLeaked(w, h);
      }
      assert Leaked(w1, h);
      LeakIsPermanent(w1, es[1..], h);
    }
  }

  // ---------------------------------------------------------------------
  // The outcomes of one submission.

  /** Source that compiles: one frame later the machine is idle with a new
      pipeline and no error text. */
  lemma {:induction false} ValidSourceIsPromoted(w: World, rev: Revision)
    requires AtMostOnce(w)
    ensures var r := Frame(Rebuild(w, rev));
            && PhaseOf(r.demo) == Idle && r.demo.lastError == ""
            && r.demo.pipeline != Null && r.demo.pipeline != w.demo.pipeline
            && Released(r.gpu, r.demo.pipeline) == 0
            && (w.demo.pipeline != Null ==> Released(r.gpu, w.demo.pipeline) == 1)
  {
    RebuildPreservesAtMostOnce(w, rev);
    FramePromotes(Rebuild(w, rev));
  }

  /** Source whose compilation reports an error: one frame later the machine
      is idle, shows the error, and keeps the previous pipeline. */
  lemma {:induction false} InvalidSourceKeepsPipeline(w: World, rev: Revision, message: string)
    requires AtMostOnce(w) && message != ""
    ensures var r := Frame(OnError(Rebuild(w, rev), message));
            && PhaseOf(r.demo) == Idle && r.demo.lastError == message
            && r.demo.pipeline == w.demo.pipeline
            && Released(r.gpu, Rebuild(w, rev).demo.fragmentModule) == 1
  {
    var c := Rebuild(w, rev);
    RebuildPreservesAtMostOnce(w, rev);
    assert Released(c.gpu, c.demo.fragmentModule) + Holders(c.demo, c.demo.fragmentModule) <= 1;
    ReleasedOnce(c.gpu, c.demo.fragmentModule, c.demo.fragmentModule);
  }

  /** Resubmitting before the frame leaves one candidate pending: the one
      created last. */
  lemma {:induction false} ResubmitKeepsLatest(w: World, rev: Revision)
    ensures var r := Rebuild(Rebuild(w, rev), rev);
            && PhaseOf(r.demo) == Compiling
            && r.demo.fragmentModule == r.gpu.next - 1
            && r.demo.fragmentModule != Rebuild(w, rev).demo.fragmentModule
  {
  }
}
