/**
 * `DemoFragment`: the fragment-shader demo object. Its methods change the
 * demo's fields and call the device step by step, exactly as the pure
 * transitions of `HotReload` describe; the shader source lives in a fixed
 * character buffer that `ReplaceShaderCode` overwrites in place.
 */
module FragmentDemo {
  import opened Gpu
  import HotReload
  import Revisions

  /** `sizeof(DemoFragment::fragmentCode)`. */
  const CodeCapacity: nat := 65536

  /** The text a NUL-terminated C string in `buf` stands for: everything
      before the first NUL, or all of `buf` when it holds none. */
  function CStringPrefix(buf: seq<char>): (s: seq<char>)
    ensures |s| <= |buf| && s == buf[..|s|]
    ensures '\0' !in s
    ensures |s| == |buf| || buf[|s|] == '\0'
  {
    if buf == [] || buf[0] == '\0' then [] else [buf[0]] + CStringPrefix(buf[1..])
  }

  /** Text without NUL written with a terminator reads back as itself,
      whatever follows the terminator. */
  lemma {:induction false} CStringOfTerminated(s: seq<char>, rest: seq<char>)
    requires '\0' !in s
    ensures CStringPrefix(s + ['\0'] + rest) == s
  {
    if s != [] {
      assert (s + ['\0'] + rest)[1..] == s[1..] + ['\0'] + rest;
      CStringOfTerminated(s[1..], rest);
    }
  }

  class DemoFragment {
    var gpuBufferInfo: Handle
    var bindGroupLayout: Handle
    var bindGroup: Handle
    var vertexShaderModule: Handle
    var fragmentModule: Handle
    var lastError: string
    var pipeline: Handle
    /** `bufferInfo.frameNumber`, a `uint32_t`. */
    var frameNumber: nat
    /** `bufferInfo.width` and `bufferInfo.height`. */
    var width: nat
    var height: nat
    /** `char fragmentCode[65536]`. */
    const fragmentCode: array<char>

    /** The demo's fields as a value of the hot-reload machine. */
    function State(): HotReload.Fragment
      reads this
    {
      HotReload.Fragment(gpuBufferInfo, bindGroupLayout, bindGroup, vertexShaderModule,
                         fragmentModule, lastError, pipeline, frameNumber, width, height)
    }

    /** The shader source the next `Rebuild` compiles. */
    function ShaderText(): seq<char>
      reads fragmentCode
    {
      CStringPrefix(fragmentCode[..])
    }

    predicate Valid() {
      fragmentCode.Length == CodeCapacity
    }

    /** `std::make_unique<DemoFragment>()` value-initialises the object:
        every handle null, every counter and character zero. */
    constructor ()
      ensures Valid() && State() == HotReload.Blank
      ensures fresh(fragmentCode) && ShaderText() == []
      ensures forall i :: 0 <= i < fragmentCode.Length ==> fragmentCode[i] == '\0'
    {
      gpuBufferInfo, bindGroupLayout, bindGroup, vertexShaderModule := Null, Null, Null, Null;
      fragmentModule, lastError, pipeline := Null, "", Null;
      frameNumber, width, height := 0, 0, 0;
      fragmentCode := new char[CodeCapacity](_ => '\0');
    }

    /** `DemoFragment::replaceShaderCode`: copy `strlen(shader) + 1`
        characters, the terminator included, to the front of the buffer;
        the characters after them keep their old values. */
    method ReplaceShaderCode(shader: seq<char>)
      requires Valid() && '\0' !in shader && |shader| < CodeCapacity
      modifies fragmentCode
      ensures fragmentCode[..|shader|] == shader && fragmentCode[|shader|] == '\0'
      ensures fragmentCode[|shader| + 1..] == old(fragmentCode[|shader| + 1..])
      ensures ShaderText() == shader
    {
      var bytes := shader + ['\0'];
      var i := 0;
      while i < |bytes|
        invariant 0 <= i <= |bytes|
        invariant fragmentCode[..i] == bytes[..i]
        invariant fragmentCode[i..] == old(fragmentCode[i..])
      {
        fragmentCode[i] := bytes[i];
        i := i + 1;
      }
      assert fragmentCode[..] == shader + ['\0'] + fragmentCode[|bytes|..];
      CStringOfTerminated(shader, fragmentCode[|bytes|..]);
    }

    /** `DemoFragment::rebuild`: clear the error text and create the
        candidate module from the buffer. */
    method Rebuild(wgpu: Gpu.Device)
      modifies this, wgpu
      ensures HotReload.World(State(), wgpu.Trace())
              == HotReload.Rebuild(old(HotReload.World(State(), wgpu.Trace())), Revisions.AsWritten)
    {
      lastError := "";
      fragmentModule := wgpu.Create();
    }

    /** `DemoFragment::onError`. */
    method OnError(wgpu: Gpu.Device, message: string)
      modifies this
      ensures HotReload.World(State(), wgpu.Trace())
              == HotReload.OnError(old(HotReload.World(State(), wgpu.Trace())), message)
    {
      lastError := message;
    }

    /** `DemoFragment::resize`. */
    method Resize(wgpu: Gpu.Device, newWidth: nat, newHeight: nat)
      modifies this
      ensures HotReload.World(State(), wgpu.Trace())
              == HotReload.Resize(old(HotReload.World(State(), wgpu.Trace())), newWidth, newHeight)
    {
      width := newWidth;
      height := newHeight;
    }

    /** `DemoFragment::frame`: draw (counting the frame) when there is a
        pipeline, then resolve the pending candidate. */
    method Frame(wgpu: Gpu.Device)
      modifies this, wgpu
      ensures HotReload.World(State(), wgpu.Trace())
              == HotReload.Frame(old(HotReload.World(State(), wgpu.Trace())))
    {
      if pipeline != Null {
        frameNumber := (frameNumber + 1) % HotReload.FrameNumberModulus;
      }
      if fragmentModule != Null {
        if lastError != "" {
          wgpu.Release(fragmentModule);
          fragmentModule := Null;
          return;
        }
        if pipeline != Null {
          wgpu.Release(pipeline);
        }
        var pipelineLayout := wgpu.Create();
        pipeline := wgpu.Create();
        wgpu.Release(fragmentModule);
        wgpu.Release(pipelineLayout);
        fragmentModule := Null;
      }
    }

    /** `DemoFragment::init`: create the uniform buffer, the bind group
        layout, the bind group and the vertex module, load the initial
        shader and rebuild. */
    method Init(wgpu: Gpu.Device, shader: seq<char>)
      requires Valid() && '\0' !in shader && |shader| < CodeCapacity
      modifies this, wgpu, fragmentCode
      ensures HotReload.World(State(), wgpu.Trace())
              == HotReload.Init(old(HotReload.World(State(), wgpu.Trace())))
      ensures ShaderText() == shader
    {
      ghost var g := wgpu.Trace();
      gpuBufferInfo := wgpu.Create();
      bindGroupLayout := wgpu.Create();
      bindGroup := wgpu.Create();
      vertexShaderModule := wgpu.Create();
      ReplaceShaderCode(shader);
      assert wgpu.Trace() == WithAlloc(WithAlloc(WithAlloc(WithAlloc(g))));
      assert State() == old(State()).(gpuBufferInfo := g.next, bindGroupLayout := g.next + 1,
                                      bindGroup := g.next + 2, vertexShaderModule := g.next + 3);
      Rebuild(wgpu);
    }

    /** The "initial", "SDF" and "Rick!" buttons: load a shader and
        rebuild. */
    method LoadShader(wgpu: Gpu.Device, shader: seq<char>)
      requires Valid() && '\0' !in shader && |shader| < CodeCapacity
      modifies this, wgpu, fragmentCode
      ensures HotReload.World(State(), wgpu.Trace())
              == HotReload.Rebuild(old(HotReload.World(State(), wgpu.Trace())), Revisions.AsWritten)
      ensures ShaderText() == shader
    {
      ReplaceShaderCode(shader);
      Rebuild(wgpu);
    }

    /** `DemoFragment::cleanup`. */
    method Cleanup(wgpu: Gpu.Device)
      modifies wgpu
      ensures HotReload.World(State(), wgpu.Trace())
              == HotReload.Cleanup(old(HotReload.World(State(), wgpu.Trace())), Revisions.AsWritten)
    {
      wgpu.Release(pipeline);
      wgpu.Release(vertexShaderModule);
      wgpu.Release(gpuBufferInfo);
      wgpu.Release(bindGroup);
      wgpu.Release(bindGroupLayout);
    }
  }
}
