/** src/vulkan/sync_objects.rs: the per-frame synchronisation objects, one
    image-available semaphore, one render-finished semaphore and one in-flight fence for
    each of the `MAX_FRAMES_IN_FLIGHT` frames. The frame count is a parameter here. */
module Sync {
  import opened Base
  import opened Vk
  import opened Gpu

  /** `SyncObjects`: three vectors that grow together, entry `i` of each belonging to
      frame `i`. */
  class SyncObjects {
    var imageAvailableSemaphores: seq<Handle>
    var renderFinishedSemaphores: seq<Handle>
    var inflightFences: seq<Handle>

    /** All three vectors start empty. */
    constructor ()
      ensures imageAvailableSemaphores == [] && renderFinishedSemaphores == [] && inflightFences == []
    {
      imageAvailableSemaphores := [];
      renderFinishedSemaphores := [];
      inflightFences := [];
    }

    /** The three `push`es of one loop iteration. */
    method Push(imageAvailable: Handle, renderFinished: Handle, fence: Handle)
      modifies this
      ensures imageAvailableSemaphores == old(imageAvailableSemaphores) + [imageAvailable]
      ensures renderFinishedSemaphores == old(renderFinishedSemaphores) + [renderFinished]
      ensures inflightFences == old(inflightFences) + [fence]
    {
      imageAvailableSemaphores := imageAvailableSemaphores + [imageAvailable];
      renderFinishedSemaphores := renderFinishedSemaphores + [renderFinished];
      inflightFences := inflightFences + [fence];
    }
  }

  /** The calls of one iteration when the handles are handed out from `base` on: two
      semaphores, then a fence created signalled. */
  function FrameSyncCalls(base: Handle): seq<Call> {
    [Call(CreateSemaphore, Made(base)),
     Call(CreateSemaphore, Made(base + 1)),
     Call(CreateFence(FENCE_CREATE_SIGNALED), Made(base + 2))]
  }

  /** The calls of `frames` iterations. */
  function SyncCalls(base: Handle, frames: nat): seq<Call>
    decreases frames
  {
    if frames == 0 then [] else SyncCalls(base, frames - 1) + FrameSyncCalls(base + 3 * (frames - 1))
  }

  /** Call `j` of the whole creation as an independent description: it makes handle
      `base + j`, a signalled fence every third call and a semaphore otherwise. */
  function SyncCallAt(base: Handle, j: nat): Call {
    if j % 3 == 2 then Call(CreateFence(FENCE_CREATE_SIGNALED), Made(base + j))
    else Call(CreateSemaphore, Made(base + j))
  }

  /** The loop's trace is three calls per frame, each the one `SyncCallAt` describes;
      in particular every fence is created signalled. */
  lemma {:induction false} SyncCallsShape(base: Handle, frames: nat)
    ensures var t := SyncCalls(base, frames);
            && |t| == 3 * frames
            && (forall j :: 0 <= j < |t| ==> t[j] == SyncCallAt(base, j))
            && (forall j :: 0 <= j < |t| && t[j].request.CreateFence? ==> t[j].request.fenceFlags == FENCE_CREATE_SIGNALED)
    decreases frames
  {
    if frames > 0 {
      SyncCallsShape(base, frames - 1);
      var prefix := SyncCalls(base, frames - 1);
      var m := 3 * (frames - 1);
      var t := prefix + FrameSyncCalls(base + m);
      forall j | 0 <= j < |t|
        ensures t[j] == SyncCallAt(base, j)
      {
        if j >= m {
          assert j % 3 == j - m;
        }
      }
    }
  }

  /** One iteration: the two semaphores and the fence, each `expect`ed. */
  method CreateFrameSync(dev: Device) returns (r: Result<(Handle, Handle, Handle)>)
    modifies dev
    ensures r.Ok? ==> r.value == (old(dev.next), old(dev.next) + 1, old(dev.next) + 2) &&
                      dev.next == old(dev.next) + 3 && dev.calls == old(dev.calls) + FrameSyncCalls(old(dev.next))
    ensures r.Panicked? ==> r.panic == CallRefused && EndsRefused(dev.calls)
  {
    var imageAvailable := dev.Create(CreateSemaphore);
    if imageAvailable.None? {
      return Panicked(CallRefused);
    }
    var renderFinished := dev.Create(CreateSemaphore);
    if renderFinished.None? {
      return Panicked(CallRefused);
    }
    var fence := dev.Create(CreateFence(FENCE_CREATE_SIGNALED));
    if fence.None? {
      return Panicked(CallRefused);
    }
    r := Ok((imageAvailable.value, renderFinished.value, fence.value));
  }

  /** `create_sync_objects`: a fresh `SyncObjects` whose three vectors have one entry per
      frame, entry `k` of each made by iteration `k` (handles `3k`, `3k + 1` and `3k + 2`
      past the allocator's position); any refused creation panics, so no partial result
      is returned. */
  method CreateSyncObjects(dev: Device, maxFramesInFlight: nat) returns (r: Result<SyncObjects>)
    modifies dev
    ensures r.Ok? ==>
              var base := old(dev.next);
              var so := r.value;
              && fresh(so)
              && |so.imageAvailableSemaphores| == |so.renderFinishedSemaphores| == |so.inflightFences| == maxFramesInFlight
              && (forall k :: 0 <= k < maxFramesInFlight ==>
                    so.imageAvailableSemaphores[k] == base + 3 * k &&
                    so.renderFinishedSemaphores[k] == base + 3 * k + 1 &&
                    so.inflightFences[k] == base + 3 * k + 2)
              && dev.calls == old(dev.calls) + SyncCalls(base, maxFramesInFlight)
              && dev.next == base + 3 * maxFramesInFlight
    ensures r.Panicked? ==> r.panic == CallRefused && EndsRefused(dev.calls)
  {
    ghost var base := dev.next;
    var so := new SyncObjects();
    var i := 0;
    while i < maxFramesInFlight
      invariant 0 <= i <= maxFramesInFlight
      invariant |so.imageAvailableSemaphores| == |so.renderFinishedSemaphores| == |so.inflightFences| == i
      invariant forall k :: 0 <= k < i ==>
                  so.imageAvailableSemaphores[k] == base + 3 * k &&
                  so.renderFinishedSemaphores[k] == base + 3 * k + 1 &&
                  so.inflightFences[k] == base + 3 * k + 2
      invariant dev.calls == old(dev.calls) + SyncCalls(base, i)
      invariant dev.next == base + 3 * i
    {
      var frame := CreateFrameSync(dev);
      if frame.Panicked? {
        return Panicked(CallRefused);
      }
      so.Push(frame.value.0, frame.value.1, frame.value.2);
      i := i + 1;
    }
    r := Ok(so);
  }
}
