/**
 * GPU objects as opaque handles. The WebGPU backend is a foreign library:
 * all the model keeps of it is which handles it has handed out and which
 * release calls it has received, in order.
 */
module Gpu {

  /** An opaque WebGPU object handle; 0 is the null handle. */
  type Handle = nat

  const Null: Handle := 0

  /** A handle the backend can still hand out: never null. */
  type NextHandle = h: Handle | h >= 1 witness 1

  /** The backend's record: `next` is the handle the next creation call
      returns (handles 1 .. next-1 have been created), `releases` every
      release call in the order it was made. */
  datatype Log = Log(next: NextHandle, releases: seq<Handle>)

  /** The log of a device that has created nothing yet. */
  const FreshLog := Log(1, [])

  /** Handle `h` has been returned by a creation call. */
  predicate Created(g: Log, h: Handle) {
    1 <= h < g.next
  }

  /** How many release calls handle `h` has received. */
  function Released(g: Log, h: Handle): nat {
    multiset(g.releases)[h]
  }

  /** The log after one creation call (it returns `g.next`). */
  function WithAlloc(g: Log): Log {
    g.(next := g.next + 1)
  }

  /** The log after one release call on `h`. */
  function WithRelease(g: Log, h: Handle): Log {
    g.(releases := g.releases + [h])
  }

  /** One more release call counts once, for its own handle only. */
  lemma ReleasedOnce(g: Log, x: Handle, h: Handle)
    ensures Released(WithRelease(g, x), h) == Released(g, h) + (if h == x then 1 else 0)
  {
    assert multiset(WithRelease(g, x).releases) == multiset(g.releases) + multiset{x};
  }

  /** The device: the object every creation and release call goes to. */
  class Device {
    var next: NextHandle
    var releases: seq<Handle>

    function Trace(): Log
      reads this
    {
      Log(next, releases)
    }

    constructor ()
      ensures Trace() == FreshLog
    {
      next := 1;
      releases := [];
    }

    /** `wgpuDeviceCreate…`: a new, never released handle. */
    method Create() returns (h: Handle)
      modifies this
      ensures h == old(next) && h != Null
      ensures Trace() == WithAlloc(old(Trace()))
    {
      h := next;
      next := next + 1;
    }

    /** `wgpu…Release`: records the release call, whatever the handle. */
    method Release(h: Handle)
      modifies this
      ensures Trace() == WithRelease(old(Trace()), h)
    {
      releases := releases + [h];
    }
  }
}
