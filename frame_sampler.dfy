/**
 * `extractFrames` (src/lib/deepfakeDetector.ts) as an event-driven state
 * machine. The browser's `video` element is replaced by the four events its
 * handlers react to; drawing a frame is replaced by recording the media time
 * it was drawn at, and the object URL by a `revoked` flag.
 */
module FrameSampler {
  import opened Types

  /** A captured frame, known by the media time it was drawn at. */
  datatype Frame = Frame(time: real)

  datatype ExtractionError =
    | NoCanvasContext           // "Could not create canvas context"
    | VideoError(detail: string) // "Error loading video: " + e
    | TimedOut                  // "Video loading timed out"

  /** The state of the promise `extractFrames` returns. */
  datatype Status = Pending | Resolved(frames: seq<Frame>) | Rejected(error: ExtractionError)

  datatype Event =
    | LoadedMetadata(duration: real) // `video.onloadedmetadata`
    | Seeked(contextOk: bool)        // `video.onseeked`; `contextOk` is whether `getContext("2d")` succeeded
    | Error(detail: string)          // `video.onerror`
    | Timeout                        // the 10-second `setTimeout` callback

  /** `k` steps of `video.currentTime += frameInterval` from 0. */
  function Offset(k: nat, step: real): real {
    if k == 0 then 0.0 else Offset(k - 1, step) + step
  }

  /** Repeated addition of the step is multiplication by the number of steps. */
  lemma {:induction false} OffsetIsProduct(k: nat, step: real)
    ensures Offset(k, step) == k as real * step
  {
    if k > 0 {
      OffsetIsProduct(k - 1, step);
      assert k as real * step == (k - 1) as real * step + step;
    }
  }

  /** The media time of the `k`-th frame: seeking stops after the last requested one. */
  function CaptureTime(k: nat, numFrames: nat, frameInterval: real): real
    requires numFrames > 0
  {
    Offset(if k < numFrames then k else numFrames - 1, frameInterval)
  }

  class Sampler {
    const numFrames: nat
    /** Whether `onloadedmetadata` has run, and so installed `onseeked`. */
    var metadataLoaded: bool
    var frameInterval: real
    var framesExtracted: nat
    var currentTime: real
    var frames: seq<Frame>
    var revoked: bool
    var status: Status

    ghost predicate Valid()
      reads this
    {
      && numFrames > 0
      && |frames| == framesExtracted
      && (!metadataLoaded ==> frames == [] && currentTime == 0.0)
      && (forall k :: 0 <= k < |frames| ==>
            frames[k].time == CaptureTime(k, numFrames, frameInterval))
      && (metadataLoaded ==>
            currentTime == CaptureTime(framesExtracted, numFrames, frameInterval))
      && (status == Pending ==> framesExtracted < numFrames)
      && (status.Rejected? && status.error != NoCanvasContext ==> revoked)
      && (status.Resolved? ==>
            && metadataLoaded
            && revoked
            && |status.frames| == numFrames
            && (forall k :: 0 <= k < numFrames ==>
                  status.frames[k].time == Offset(k, frameInterval)))
    }

    /** `video.src = URL.createObjectURL(videoFile)`; nothing has happened yet. */
    constructor (numFrames: nat)
      requires numFrames > 0
      ensures Valid()
      ensures this.numFrames == numFrames
      ensures !metadataLoaded && frames == [] && framesExtracted == 0
      ensures currentTime == 0.0 && !revoked && status == Pending
    {
      this.numFrames := numFrames;
      metadataLoaded := false;
      frameInterval := 0.0;
      framesExtracted := 0;
      currentTime := 0.0;
      frames := [];
      revoked := false;
      status := Pending;
    }

    /**
     * Metadata arrived: fix the step `duration / numFrames`, reset the counter,
     * install the seek handler and seek to time 0. A media element fires this
     * event once per source, which the precondition records.
     */
    method OnLoadedMetadata(duration: real)
      requires Valid() && !metadataLoaded
      modifies this
      ensures Valid()
      ensures metadataLoaded
      ensures frameInterval == duration / numFrames as real
      ensures framesExtracted == 0 && currentTime == 0.0
      ensures frames == old(frames) && revoked == old(revoked) && status == old(status)
    {
      frameInterval := duration / numFrames as real;
      framesExtracted := 0;
      metadataLoaded := true;
      currentTime := 0.0;
    }

    /**
     * A seek completed. Without a 2-D context the promise rejects and nothing
     * else happens (the URL stays unrevoked). Otherwise the frame at the
     * current time is captured; the sampler seeks one step further until
     * `numFrames` frames exist, and then revokes the URL and resolves.
     */
    method OnSeeked(contextOk: bool)
      requires Valid()
      modifies this
      ensures Valid()
      ensures metadataLoaded == old(metadataLoaded) && frameInterval == old(frameInterval)
      ensures !old(metadataLoaded) || !contextOk ==>
        frames == old(frames) && framesExtracted == old(framesExtracted)
        && currentTime == old(currentTime) && revoked == old(revoked)
      ensures !old(metadataLoaded) ==> status == old(status)
      ensures old(metadataLoaded) && !contextOk ==>
        status == if old(status) == Pending then Rejected(NoCanvasContext) else old(status)
      ensures old(metadataLoaded) && contextOk ==>
        && frames == old(frames) + [Frame(old(currentTime))]
        && framesExtracted == old(framesExtracted) + 1
        && (framesExtracted < numFrames ==>
              currentTime == old(currentTime) + frameInterval
              && revoked == old(revoked) && status == old(status))
        && (framesExtracted >= numFrames ==>
              currentTime == old(currentTime) && revoked
              && status == if old(status) == Pending then Resolved(frames) else old(status))
    {
      if !metadataLoaded {
        return;
      }
      if !contextOk {
        if status == Pending {
          status := Rejected(NoCanvasContext);
        }
        return;
      }
      CaptureFrame();
    }

    /** The body of `onseeked` once a 2-D context exists: draw, push, then seek on or finish. */
    method CaptureFrame()
      requires Valid() && metadataLoaded
      modifies this
      ensures Valid()
      ensures metadataLoaded && frameInterval == old(frameInterval)
      ensures frames == old(frames) + [Frame(old(currentTime))]
      ensures framesExtracted == old(framesExtracted) + 1
      ensures framesExtracted < numFrames ==>
        currentTime == old(currentTime) + frameInterval && revoked == old(revoked) && status == old(status)
      ensures framesExtracted >= numFrames ==>
        currentTime == old(currentTime) && revoked
        && status == if old(status) == Pending then Resolved(frames) else old(status)
    {
      ghost var k := framesExtracted;
      frames := frames + [Frame(currentTime)];
      framesExtracted := framesExtracted + 1;
      assert frames[k].time == CaptureTime(k, numFrames, frameInterval);
      if framesExtracted < numFrames {
        currentTime := currentTime + frameInterval;
        assert currentTime == Offset(k + 1, frameInterval);
      } else {
        revoked := true;
        if status == Pending {
          status := Resolved(frames);
          assert forall j :: 0 <= j < numFrames ==> status.frames[j] == frames[j];
        }
      }
    }

    /** The video failed to load or decode: revoke the URL and reject. */
    method OnError(detail: string)
      requires Valid()
      modifies this
      ensures Valid()
      ensures revoked
      ensures status == if old(status) == Pending then Rejected(VideoError(detail)) else old(status)
      ensures metadataLoaded == old(metadataLoaded) && frames == old(frames)
      ensures framesExtracted == old(framesExtracted) && currentTime == old(currentTime)
      ensures frameInterval == old(frameInterval)
    {
      revoked := true;
      if status == Pending {
        status := Rejected(VideoError(detail));
      }
    }

    /** The timeout fired: it revokes and rejects only when no frame was captured. */
    method OnTimeout()
      requires Valid()
      modifies this
      ensures Valid()
      ensures revoked == (old(revoked) || old(frames) == [])
      ensures status ==
        if old(frames) == [] && old(status) == Pending then Rejected(TimedOut) else old(status)
      ensures metadataLoaded == old(metadataLoaded) && frames == old(frames)
      ensures framesExtracted == old(framesExtracted) && currentTime == old(currentTime)
      ensures frameInterval == old(frameInterval)
    {
      if |frames| == 0 {
        revoked := true;
        if status == Pending {
          status := Rejected(TimedOut);
        }
      }
    }

    method Dispatch(e: Event)
      requires Valid()
      requires e.LoadedMetadata? ==> !metadataLoaded
      modifies this
      ensures Valid()
      ensures metadataLoaded == (old(metadataLoaded) || e.LoadedMetadata?)
      ensures old(status) != Pending ==> status == old(status)
      ensures e.LoadedMetadata? ==> frameInterval == e.duration / numFrames as real
      ensures !e.LoadedMetadata? ==> frameInterval == old(frameInterval)
      ensures old(revoked) ==> revoked
    {
      match e
      case LoadedMetadata(d) => OnLoadedMetadata(d);
      case Seeked(ok) => OnSeeked(ok);
      case Error(detail) => OnError(detail);
      case Timeout => OnTimeout();
    }
  }

  /** At most one `loadedmetadata` event in the sequence. */
  predicate LoadsOnce(events: seq<Event>) {
    forall i, j :: 0 <= i < j < |events| ==> !(events[i].LoadedMetadata? && events[j].LoadedMetadata?)
  }

  /**
   * Feed `events` to a fresh sampler and report the promise's state and the
   * `revoked` flag. A resolved promise holds exactly `numFrames` frames, the
   * `k`-th drawn at `k * duration / numFrames`, and a resolved promise always
   * comes with a revoked URL.
   */
  method Extract(numFrames: nat, events: seq<Event>) returns (status: Status, revoked: bool)
    requires numFrames > 0
    requires LoadsOnce(events)
    ensures status.Resolved? ==>
      && revoked
      && |status.frames| == numFrames
      && exists i :: 0 <= i < |events| && events[i].LoadedMetadata? &&
           forall k :: 0 <= k < numFrames ==>
             status.frames[k].time == k as real * (events[i].duration / numFrames as real)
    ensures status.Rejected? && status.error.VideoError? ==> revoked
    ensures status.Rejected? && status.error == TimedOut ==> revoked
  {
    var s := new Sampler(numFrames);
    var i := 0;
    ghost var loadAt: int := -1;
    while i < |events|
      invariant 0 <= i <= |events|
      invariant s.Valid() && s.numFrames == numFrames
      invariant -1 <= loadAt < i
      invariant s.metadataLoaded <==> loadAt >= 0
      invariant s.metadataLoaded ==>
        events[loadAt].LoadedMetadata? && s.frameInterval == events[loadAt].duration / numFrames as real
    {
      if events[i].LoadedMetadata? {
        loadAt := i;
      }
      s.Dispatch(events[i]);
      i := i + 1;
    }
    status, revoked := s.status, s.revoked;
    if status.Resolved? {
      forall k | 0 <= k < numFrames {
        OffsetIsProduct(k, s.frameInterval);
      }
    }
  }

  /**
   * The timeout does not end an extraction that has captured a frame: after
   * one frame and the timeout the promise is still pending and the URL
   * unrevoked, and only a further `seeked` or `error` event can settle it.
   */
  method StallAfterOneFrame(numFrames: nat, duration: real) returns (status: Status, revoked: bool)
    requires numFrames > 1
    ensures status == Pending && !revoked
  {
    var s := new Sampler(numFrames);
    s.OnLoadedMetadata(duration);
    s.OnSeeked(true);
    s.OnTimeout();
    status, revoked := s.status, s.revoked;
  }

  /** An error event after the stall above still revokes the URL and rejects the promise. */
  method ErrorAfterStall(numFrames: nat, duration: real, detail: string) returns (status: Status, revoked: bool)
    requires numFrames > 1
    ensures status == Rejected(VideoError(detail)) && revoked
  {
    var s := new Sampler(numFrames);
    s.OnLoadedMetadata(duration);
    s.OnSeeked(true);
    s.OnTimeout();
    s.OnError(detail);
    status, revoked := s.status, s.revoked;
  }

  /**
   * A missing 2-D context after a captured frame rejects the promise, and
   * the later timeout no longer revokes the URL: it stays unrevoked.
   */
  method CanvasFailureKeepsUrl(numFrames: nat, duration: real) returns (status: Status, revoked: bool)
    requires numFrames > 1
    ensures status == Rejected(NoCanvasContext) && !revoked
  {
    var s := new Sampler(numFrames);
    s.OnLoadedMetadata(duration);
    s.OnSeeked(true);
    s.OnSeeked(false);
    s.OnTimeout();
    status, revoked := s.status, s.revoked;
  }
}
