/**
 * The host program's decisions: which demo `main` runs, how a frame reacts
 * to a window resize and to the status of the surface texture, and how
 * many device tiers are tried.
 */
module Host {
  import opened Gpu
  import opened Wrappers

  // ---------------------------------------------------------------------
  // Demo selection (`main`)

  /** A registry entry: the demo's name and the factory it was registered
      with (by identity). */
  datatype DemoBuilder = DemoBuilder(name: string, factory: nat)

  /** The position of the first entry named `wanted`. */
  function FirstMatch(builders: seq<DemoBuilder>, wanted: string): (r: Option<nat>)
    ensures r.Some? ==> r.value < |builders| && builders[r.value].name == wanted
                        && forall j :: 0 <= j < r.value ==> builders[j].name != wanted
    ensures r.Nothing? ==> forall j :: 0 <= j < |builders| ==> builders[j].name != wanted
    decreases |builders|
  {
    if builders == [] then Nothing
    else if builders[0].name == wanted then Some(0)
    else match FirstMatch(builders[1..], wanted)
      case Nothing => Nothing
      case Some(k) => Some(k + 1)
  }

  /** The registry loop of `main`: scan in order and stop at the first
      entry whose name is the configured one. */
  method SelectDemo(builders: seq<DemoBuilder>, wanted: string) returns (found: Option<nat>)
    ensures found == FirstMatch(builders, wanted)
  {
    found := Nothing;
    var i := 0;
    while i < |builders|
      invariant 0 <= i <= |builders|
      invariant forall j :: 0 <= j < i ==> builders[j].name != wanted
    {
      if builders[i].name == wanted {
        found := Some(i);
        break;
      }
      i := i + 1;
    }
    FirstMatchUnique(builders, wanted, found);
  }

  /** The first match is the only position that is named `wanted` with no
      earlier entry of that name. */
  lemma FirstMatchUnique(builders: seq<DemoBuilder>, wanted: string, found: Option<nat>)
    requires found.Some? ==> found.value < |builders| && builders[found.value].name == wanted
                             && forall j :: 0 <= j < found.value ==> builders[j].name != wanted
    requires found.Nothing? ==> forall j :: 0 <= j < |builders| ==> builders[j].name != wanted
    ensures found == FirstMatch(builders, wanted)
  {
  }

  /** What `main` does: run the selected demo's application (exit code 0)
      or report that no demo has that name (exit code -1). */
  datatype MainOutcome = RanApp(factory: nat, exitCode: int) | NoDemo(exitCode: int)

  function MainDecision(builders: seq<DemoBuilder>, wanted: string): (r: MainOutcome)
    ensures r.exitCode == -1 <==> forall j :: 0 <= j < |builders| ==> builders[j].name != wanted
    ensures r.NoDemo? ==> r.exitCode == -1
    ensures r.RanApp? ==> r.exitCode == 0 && exists j :: 0 <= j < |builders| && builders[j] == DemoBuilder(wanted, r.factory)
                                                         && forall i :: 0 <= i < j ==> builders[i].name != wanted
  {
    match FirstMatch(builders, wanted)
    case Nothing => NoDemo(-1)
    case Some(k) => RanApp(builders[k].factory, 0)
  }

  // ---------------------------------------------------------------------
  // The native frame (`frame`)

  /** `WGPUSurfaceGetCurrentTextureStatus`. */
  datatype TextureStatus =
    | SuccessOptimal | SuccessSuboptimal
    | Timeout | Outdated | Lost
    | OutOfMemory | DeviceLost | Error | Force32

  /** What a frame does with the surface texture it was given. */
  datatype StatusAction = Draw | SkipFrame | Terminate

  /** The status switch of `frame`. */
  function ActionFor(status: TextureStatus): StatusAction {
    match status
    case SuccessOptimal | SuccessSuboptimal => Draw
    case Timeout | Outdated | Lost => SkipFrame
    case OutOfMemory | DeviceLost | Error | Force32 => Terminate
  }

  /** The calls the host makes outside the device's handle log. */
  datatype HostCall =
    | ConfigureSurface(width: nat, height: nat)
    | DemoResize(width: nat, height: nat)
    | DemoFrame(view: Handle)
    | Present
    | Exit(code: int)

  /** How one call of `frame` ended. */
  datatype FrameOutcome = Waiting | Reconfigured | Skipped | Terminated | Drawn

  /** The native host: the queue (null until the device arrives), the
      surface configuration's size and the calls made so far. */
  class Surface {
    var queueReady: bool
    var configWidth: nat
    var configHeight: nat
    var calls: seq<HostCall>

    /** `onDevice` configures the surface as 1 x 1. */
    constructor (queueReady: bool)
      ensures this.queueReady == queueReady && configWidth == 1 && configHeight == 1 && calls == []
    {
      this.queueReady := queueReady;
      configWidth, configHeight := 1, 1;
      calls := [];
    }

    /** `reconfigureSurface`: `width` and `height` are `sapp_width()` and
        `sapp_height()`. An empty window changes nothing; a new size is
        stored, the surface reconfigured and the demo resized. */
    method ReconfigureSurface(width: nat, height: nat) returns (changed: bool)
      modifies this
      ensures changed <==> width != 0 && height != 0 && (width, height) != old((configWidth, configHeight))
      ensures changed ==> configWidth == width && configHeight == height
                          && calls == old(calls) + [ConfigureSurface(width, height), DemoResize(width, height)]
      ensures !changed ==> configWidth == old(configWidth) && configHeight == old(configHeight) && calls == old(calls)
      ensures queueReady == old(queueReady)
    {
      if width == 0 || height == 0 {
        return false;
      }
      if configWidth != width || configHeight != height {
        configWidth := width;
        configHeight := height;
        calls := calls + [ConfigureSurface(configWidth, configHeight)];
        calls := calls + [DemoResize(width, height)];
        return true;
      }
      return false;
    }

    /** `frame` (native): wait for the queue, follow a resize, then act on
        the surface texture's status. `texture` is the texture the surface
        returned with `status`. */
    method Frame(wgpu: Device, width: nat, height: nat, status: TextureStatus, texture: Handle)
      returns (outcome: FrameOutcome)
      modifies this, wgpu
      ensures outcome == Waiting <==> !old(queueReady)
      ensures queueReady == old(queueReady)
      ensures outcome == Waiting ==>
                && calls == old(calls) && wgpu.Trace() == old(wgpu.Trace())
                && configWidth == old(configWidth) && configHeight == old(configHeight)
      ensures outcome == Reconfigured <==>
                old(queueReady) && width != 0 && height != 0 && (width, height) != old((configWidth, configHeight))
      ensures outcome == Reconfigured ==>
                && configWidth == width && configHeight == height
                && wgpu.Trace() == old(wgpu.Trace())
                && calls == old(calls) + [ConfigureSurface(width, height), DemoResize(width, height)]
      ensures outcome == Skipped ==>
                ActionFor(status) == SkipFrame && calls == old(calls)
                && wgpu.Trace() == (if texture != Null then WithRelease(old(wgpu.Trace()), texture) else old(wgpu.Trace()))
      ensures outcome == Terminated ==>
                ActionFor(status) == Terminate && calls == old(calls) + [Exit(-1)] && wgpu.Trace() == old(wgpu.Trace())
      ensures outcome == Drawn ==>
                && ActionFor(status) == Draw
                && var view := old(wgpu.next);
                   && calls == old(calls) + [DemoFrame(view), Present]
                   && wgpu.Trace() == WithRelease(WithRelease(WithAlloc(old(wgpu.Trace())), view), texture)
      ensures outcome in {Skipped, Terminated, Drawn} ==>
                old(queueReady) && configWidth == old(configWidth) && configHeight == old(configHeight)
      ensures old(queueReady) && outcome != Reconfigured ==> outcome == match ActionFor(status)
                case Draw => Drawn
                case SkipFrame => Skipped
                case Terminate => Terminated
    {
      if !queueReady {
        return Waiting;
      }
      var changed := ReconfigureSurface(width, height);
      if changed {
        return Reconfigured;
      }
      match status {
        case SuccessOptimal | SuccessSuboptimal =>
        case Timeout | Outdated | Lost =>
          // skip this frame and reconfigure: the size is the one just
          // checked, so the reconfiguration changes nothing
          if texture != Null {
            wgpu.Release(texture);
          }
          changed := ReconfigureSurface(width, height);
          return Skipped;
        case OutOfMemory | DeviceLost | Error | Force32 =>
          calls := calls + [Exit(-1)];
          return Terminated;
      }
      var view := wgpu.Create();
      calls := calls + [DemoFrame(view)];
      calls := calls + [Present];
      wgpu.Release(view);
      wgpu.Release(texture);
      return Drawn;
    }
  }

  // ---------------------------------------------------------------------
  // Device tiers (`requestDevice`)

  /** How the device request ends: the device of a tier arrives, the
      process exits reporting how many tries were made, or the answer to
      the last request has not come yet. */
  datatype DeviceOutcome = Acquired(tier: nat) | GaveUp(reportedTries: nat) | Pending

  /** `requestDevice` from tier `index`, given the backend's answers to the
      successive requests (true for success). Only tier 0 is defined; any
      other tier ends the process. */
  function DeviceRequest(index: nat, answers: seq<bool>): DeviceOutcome
    decreases |answers|
  {
    if index != 0 then GaveUp(index + 1)
    else if answers == [] then Pending
    else if answers[0] then Acquired(index)
    else DeviceRequest(index + 1, answers[1..])
  }

  /** From the first tier: the device is acquired exactly when the first
      request succeeds, and a failure ends the process reporting two
      tries; nothing else can happen. */
  lemma {:induction false} DeviceRequestFromFirstTier(answers: seq<bool>)
    ensures DeviceRequest(0, answers) == if answers == [] then Pending
                                        else if answers[0] then Acquired(0)
                                        else GaveUp(2)
  {
    if answers != [] && !answers[0] {
      assert DeviceRequest(0, answers) == DeviceRequest(1, answers[1..]);
    }
  }

  /** Any tier other than the first ends the process at once, reporting
      the tier number plus one as the number of tries. */
  lemma DeviceRequestBeyondFirstTier(index: nat, answers: seq<bool>)
    requires index != 0
    ensures DeviceRequest(index, answers) == GaveUp(index + 1)
  {
  }

  /** The `WGPU` record's device fields. */
  class Wgpu {
    var requestedDeviceIndex: nat
    var requests: nat
    var device: bool

    constructor ()
      ensures requestedDeviceIndex == 0 && requests == 0 && !device
    {
      requestedDeviceIndex, requests, device := 0, 0, false;
    }

    /** `requestDevice` and its callback: request the current tier, and on
        failure move to the next tier and request again. `answers` are the
        backend's answers to the requests, in order. */
    method RequestDevice(answers: seq<bool>) returns (outcome: DeviceOutcome)
      modifies this
      ensures outcome == DeviceRequest(old(requestedDeviceIndex), answers)
      ensures outcome.Acquired? ==> device && requestedDeviceIndex == outcome.tier
      ensures !outcome.Acquired? ==> device == old(device)
      ensures requests == old(requests) + if old(requestedDeviceIndex) == 0 then 1 else 0
      ensures requestedDeviceIndex ==
                old(requestedDeviceIndex) + if outcome.GaveUp? && old(requestedDeviceIndex) == 0 then 1 else 0
      decreases |answers|
    {
      if requestedDeviceIndex != 0 {
        return GaveUp(requestedDeviceIndex + 1);
      }
      requests := requests + 1;
      if answers == [] {
        return Pending;
      }
      if answers[0] {
        device := true;
        return Acquired(requestedDeviceIndex);
      }
      requestedDeviceIndex := requestedDeviceIndex + 1;
      outcome := RequestDevice(answers[1..]);
    }
  }
}
