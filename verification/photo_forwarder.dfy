/**
 * The photo-batch forwarder of sources/app/DeviceView.tsx: a job body that
 * hands the agent every photo appended since its previous run, tracked by
 * the counter `processed`, over the list held in `processedPhotos.current`.
 */
module PhotoForwarder {
  import opened ByteData

  type Photo = Bytes

  class Forwarder {
    /** processedPhotos.current: the latest photo list the effect published. */
    var current: seq<Photo>
    /** The job's closure counter: how many photos have been forwarded. */
    var processed: nat
    /** The batches handed to agent.addPhoto, in call order. */
    var batches: seq<seq<Photo>>

    /**
     * No photo is forwarded twice and none is skipped: the batches laid end
     * to end are exactly the first `processed` photos of the list.
     */
    ghost predicate Valid()
      reads this
    {
      processed <= |current| && Flatten(batches) == current[..processed]
    }

    /** useRef([]) and `let processed = 0` (lines 46 and 48). */
    constructor ()
      ensures Valid()
      ensures current == [] && processed == 0 && batches == []
    {
      current := [];
      processed := 0;
      batches := [];
    }

    /**
     * The job body (lines 49-55). With nothing new it does nothing; otherwise
     * it forwards exactly current[processed..] and moves processed to the
     * current length before the forward is awaited, so a run starting during
     * that await finds nothing left to forward.
     */
    method Run()
      requires Valid()
      modifies this
      ensures Valid()
      ensures current == old(current)
      ensures old(processed) >= |current| ==> processed == old(processed) && batches == old(batches)
      ensures old(processed) < |current| ==>
        processed == |current| && batches == old(batches) + [current[old(processed)..]]
      ensures processed >= old(processed)
    {
      if |current| > processed {
        var unprocessed := current[processed..];
        ghost var before := processed;
        processed := |current|;
        batches := batches + [unprocessed];
        FlattenConcat(old(batches), [unprocessed]);
        assert Flatten([unprocessed]) == Flatten([unprocessed][..0]) + unprocessed;
        assert current[..processed] == current[..before] + unprocessed;
      }
    }

    /**
     * The effect on a new photo list (lines 58-61): publish it to the ref,
     * then invalidate. The list only ever grows by appends (usePhotos.ts
     * line 36), so the published list extends the previous one.
     */
    method PhotosChanged(photos: seq<Photo>)
      requires Valid() && current <= photos
      modifies this
      ensures Valid()
      ensures current == photos && processed == old(processed) && batches == old(batches)
    {
      assert photos[..processed] == current[..processed];
      current := photos;
    }
  }

  /**
   * A run right after publishing a list forwards everything not yet
   * forwarded: afterwards the batches laid end to end are the whole list.
   */
  method PublishAndRun(f: Forwarder, photos: seq<Photo>)
    requires f.Valid() && f.current <= photos
    modifies f
    ensures f.Valid()
    ensures f.current == photos && f.processed == |photos|
    ensures Flatten(f.batches) == photos
    ensures |f.batches| <= |old(f.batches)| + 1
  {
    f.PhotosChanged(photos);
    f.Run();
    assert photos[..|photos|] == photos;
  }
}
