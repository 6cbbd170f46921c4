/**
 * The photo chunk reassembler of sources/utils/usePhotos.ts: decoding of a
 * photo-data notification into (id, payload), and the two-state machine
 * `onChunk` that glues contiguous chunks 0, 1, 2, ... into one photo and
 * hands it over when the end-of-photo sentinel arrives.
 */
module PhotoReassembly {
  import opened ByteData

  /**
   * The `id` argument of onChunk: null (the end-of-photo sentinel), a number,
   * or NaN, which is what `packet[0] + (packet[1] << 8)` gives for an empty
   * notification. NaN equals nothing, not even 0 or previousChunk + 1.
   */
  datatype ChunkId = Sentinel | Number(n: int) | NotANumber

  /** The value of previousChunk while no photo is being received. */
  const Idle: int := -1

  // ---------------------------------------------------------------------
  // Notification decoding (handleNotifications)
  // ---------------------------------------------------------------------

  /**
   * The bytes of a notification turned into onChunk's arguments. Bytes past
   * the end of the Uint8Array read as undefined: `undefined == 0xff` is false
   * and `undefined << 8` is 0, so a one-byte notification [b] gives id b with
   * an empty payload, and an empty one gives NaN.
   */
  function DecodeNotification(packet: Bytes): (ChunkId, Bytes)
  {
    if |packet| >= 2 && packet[0] == 0xff && packet[1] == 0xff then
      (Sentinel, [])
    else if |packet| == 0 then
      (NotANumber, [])
    else if |packet| == 1 then
      (Number(packet[0]), [])
    else
      var low: int, high: int := packet[0], packet[1];
      (Number(low + 0x100 * high), packet[2..])
  }

  /** The notification a well-behaved device sends for chunk `id`: its id in two little-endian bytes, then the payload. */
  function EncodeChunk(id: nat, payload: Bytes): Bytes
    requires id < 0xffff
  {
    [id % 0x100, id / 0x100] + payload
  }

  /**
   * A notification is the sentinel exactly when its first two bytes are
   * 0xff 0xff; the sentinel carries an empty payload whatever follows; every
   * id decoded is in [0, 0xfffe], so never 0xffff.
   */
  lemma DecodeClassifies(packet: Bytes)
    ensures DecodeNotification(packet).0 == Sentinel <==> |packet| >= 2 && packet[0] == 0xff && packet[1] == 0xff
    ensures DecodeNotification(packet).0 == Sentinel ==> DecodeNotification(packet).1 == []
    ensures DecodeNotification(packet).0.Number? ==> 0 <= DecodeNotification(packet).0.n <= 0xfffe
    ensures DecodeNotification(packet).0 == NotANumber <==> packet == []
  {
  }

  /** Round trip: an encoded chunk decodes to its id and payload, and 0xff 0xff + anything decodes to the sentinel. */
  lemma DecodeEncode(id: nat, payload: Bytes, trailer: Bytes)
    requires id < 0xffff
    ensures DecodeNotification(EncodeChunk(id, payload)) == (Number(id), payload)
    ensures DecodeNotification([0xff, 0xff] + trailer) == (Sentinel, [])
  {
    var a := EncodeChunk(id, payload);
    assert a[2..] == payload;
  }

  // ---------------------------------------------------------------------
  // The transition table of onChunk, as a function
  // ---------------------------------------------------------------------

  /** The closure state of onChunk: previousChunk (Idle or the last accepted id) and buffer. */
  datatype Receiver = Receiver(previousChunk: int, buffer: Bytes)

  /** The state after one chunk, and the photo handed over by it, if any. */
  datatype StepResult = StepResult(next: Receiver, photo: Option<Bytes>)

  /**
   * One transition, case by case: idle accepts only id 0, which starts a
   * photo with exactly its payload; receiving appends the payload of id
   * previousChunk + 1, hands the buffer over on the sentinel and drops to
   * idle on anything else. Dropping to idle keeps the stale buffer; it is
   * replaced when the next id 0 arrives.
   */
  function Step(r: Receiver, id: ChunkId, data: Bytes): StepResult
  {
    if r.previousChunk == Idle then
      if id == Number(0) then StepResult(Receiver(0, data), None)
      else StepResult(r, None)
    else if id == Sentinel then
      StepResult(Receiver(Idle, r.buffer), Some(r.buffer))
    else if id == Number(r.previousChunk + 1) then
      StepResult(Receiver(r.previousChunk + 1, r.buffer + data), None)
    else
      StepResult(Receiver(Idle, r.buffer), None)
  }

  /** A chunk as delivered to onChunk. */
  datatype Chunk = Chunk(id: ChunkId, data: Bytes)

  /** A whole stream of chunks: the final state and the photos handed over, in order. */
  function Run(r: Receiver, chunks: seq<Chunk>): (Receiver, seq<Bytes>)
  {
    if chunks == [] then (r, [])
    else
      var before := Run(r, chunks[..|chunks| - 1]);
      var last := chunks[|chunks| - 1];
      var s := Step(before.0, last.id, last.data);
      (s.next, before.1 + (if s.photo.Some? then [s.photo.value] else []))
  }

  /** The chunks a device sends for one photo: ids 0 .. n-1 with the payloads, in order. */
  function Chunks(payloads: seq<Bytes>): (cs: seq<Chunk>)
    ensures |cs| == |payloads|
    ensures forall i :: 0 <= i < |cs| ==> cs[i] == Chunk(Number(i), payloads[i])
  {
    seq(|payloads|, i requires 0 <= i < |payloads| => Chunk(Number(i), payloads[i]))
  }

  /** Idle ignores the sentinel and every id other than 0, NaN included. */
  lemma IdleIgnores(buffer: Bytes, id: ChunkId, data: Bytes)
    requires id != Number(0)
    ensures Step(Receiver(Idle, buffer), id, data) == StepResult(Receiver(Idle, buffer), None)
  {
  }

  /** Idle plus id 0 starts receiving with previousChunk 0 and the buffer equal to exactly that payload. */
  lemma IdleStarts(buffer: Bytes, data: Bytes)
    ensures Step(Receiver(Idle, buffer), Number(0), data) == StepResult(Receiver(0, data), None)
  {
  }

  /**
   * Receiving: the next id appends its payload; any other id (a gap, a
   * repeat, a fresh 0, NaN) drops to idle without appending or handing
   * anything over; the sentinel hands the buffer over once and drops to idle.
   */
  lemma ReceivingSteps(prev: nat, buffer: Bytes, id: ChunkId, data: Bytes)
    ensures id == Number(prev + 1) ==>
      Step(Receiver(prev, buffer), id, data) == StepResult(Receiver(prev + 1, buffer + data), None)
    ensures id != Number(prev + 1) && id != Sentinel ==>
      Step(Receiver(prev, buffer), id, data) == StepResult(Receiver(Idle, buffer), None)
    ensures id == Sentinel ==>
      Step(Receiver(prev, buffer), id, data) == StepResult(Receiver(Idle, buffer), Some(buffer))
  {
  }

  /**
   * While receiving, the buffer is the in-order concatenation of the current
   * photo's payloads: after chunks 0 .. k-1 from idle the receiver holds
   * previousChunk = k - 1 and has handed nothing over.
   */
  lemma {:induction false} ReceivingPrefix(r: Receiver, payloads: seq<Bytes>)
    requires r.previousChunk == Idle && |payloads| >= 1
    ensures Run(r, Chunks(payloads)) == (Receiver(|payloads| - 1, Flatten(payloads)), [])
  {
    var k := |payloads|;
    var cs, front := Chunks(payloads), payloads[..k - 1];
    assert cs[k - 1] == Chunk(Number(k - 1), payloads[k - 1]);
    assert cs[..k - 1] == Chunks(front);
    if k == 1 {
      assert front == [];
      assert Run(r, cs[..k - 1]) == (r, []);
      assert Step(r, Number(0), payloads[0]).next == Receiver(0, payloads[0]);
      assert Run(r, cs).0 == Receiver(0, payloads[0]);
      assert Run(r, cs).1 == [];
      assert Flatten(payloads) == payloads[0];
    } else {
      ReceivingPrefix(r, front);
    }
  }

  /** Chunks 0 .. n-1 followed by the sentinel: exactly one photo, the in-order concatenation of the payloads. */
  lemma {:induction false} CompleteTransfer(r: Receiver, payloads: seq<Bytes>)
    requires r.previousChunk == Idle && |payloads| >= 1
    ensures Run(r, Chunks(payloads) + [Chunk(Sentinel, [])]) == (Receiver(Idle, Flatten(payloads)), [Flatten(payloads)])
  {
    var cs := Chunks(payloads) + [Chunk(Sentinel, [])];
    assert cs[..|cs| - 1] == Chunks(payloads);
    ReceivingPrefix(r, payloads);
    var full := Receiver(|payloads| - 1, Flatten(payloads));
    assert Step(full, Sentinel, []) == StepResult(Receiver(Idle, Flatten(payloads)), Some(Flatten(payloads)));
    assert cs[|cs| - 1] == Chunk(Sentinel, []);
    assert Run(r, cs[..|cs| - 1]) == (full, []);
    assert Run(r, cs).0 == Receiver(Idle, Flatten(payloads));
    assert Run(r, cs).1 == [Flatten(payloads)];
  }

  /**
   * A gap: after chunks 0 .. k-1, any id other than k drops to idle and
   * hands nothing over, and a sentinel after it hands nothing over either.
   */
  lemma {:induction false} GapLosesPhoto(r: Receiver, payloads: seq<Bytes>, bad: int, data: Bytes)
    requires r.previousChunk == Idle && |payloads| >= 1 && bad != |payloads|
    ensures var cs := Chunks(payloads) + [Chunk(Number(bad), data)];
      Run(r, cs).0.previousChunk == Idle && Run(r, cs).1 == []
    ensures var cs := Chunks(payloads) + [Chunk(Number(bad), data), Chunk(Sentinel, [])];
      Run(r, cs).0.previousChunk == Idle && Run(r, cs).1 == []
  {
    var cs := Chunks(payloads) + [Chunk(Number(bad), data)];
    assert cs[..|cs| - 1] == Chunks(payloads);
    ReceivingPrefix(r, payloads);
    var cs' := cs + [Chunk(Sentinel, [])];
    assert cs' == Chunks(payloads) + [Chunk(Number(bad), data), Chunk(Sentinel, [])];
    assert cs'[..|cs'| - 1] == cs;
  }

  // ---------------------------------------------------------------------
  // The closure state and the handlers, as an object
  // ---------------------------------------------------------------------

  /** One photo-data subscription: onChunk's closure variables and the `photos` state they feed. */
  class PhotoReceiver {
    var previousChunk: int
    var buffer: Bytes
    /** The `photos` React state: completed (rotated) photos, oldest first. */
    var photos: seq<Bytes>
    /** The isPaused value the notification handler was created with. */
    var isPaused: bool
    /** The payloads accepted for the photo being received. */
    ghost var parts: seq<Bytes>

    ghost predicate Valid()
      reads this
    {
      && previousChunk >= Idle
      && (previousChunk != Idle ==> |parts| == previousChunk + 1 && buffer == Flatten(parts))
    }

    function State(): Receiver
      reads this
    {
      Receiver(previousChunk, buffer)
    }

    /** The state of a fresh subscription (usePhotos.ts lines 13 and 19-20). */
    constructor (paused: bool)
      ensures Valid()
      ensures previousChunk == Idle && buffer == [] && photos == [] && isPaused == paused
    {
      previousChunk := Idle;
      buffer := [];
      photos := [];
      isPaused := paused;
      parts := [];
    }

    /**
     * The effect re-running because isPaused (or the device) changed: the
     * closure variables start over, the photos state is kept.
     */
    method Resubscribe(paused: bool)
      modifies this
      ensures Valid()
      ensures previousChunk == Idle && buffer == [] && isPaused == paused
      ensures photos == old(photos)
    {
      previousChunk := Idle;
      buffer := [];
      isPaused := paused;
      parts := [];
    }

    /**
     * onChunk. The handed-over buffer goes through `rotate` (rotateImage) and
     * is appended to photos; earlier photos are untouched.
     */
    method OnChunk(id: ChunkId, data: Bytes, rotate: Bytes -> Bytes)
      requires Valid()
      modifies this
      ensures Valid()
      ensures State() == Step(old(State()), id, data).next
      ensures var p := Step(old(State()), id, data).photo;
        photos == old(photos) + (if p.Some? then [rotate(p.value)] else [])
      ensures isPaused == old(isPaused)
      ensures old(previousChunk) == Idle && id == Number(0) ==> parts == [data]
      ensures old(previousChunk) != Idle && id == Number(old(previousChunk) + 1) ==> parts == old(parts) + [data]
    {
      if previousChunk == Idle {
        if id == Sentinel {
          return;
        }
        if id == Number(0) {
          previousChunk := 0;
          buffer := [];
          parts := [];
        } else {
          return;
        }
      } else {
        if id == Sentinel {
          photos := photos + [rotate(buffer)];
          previousChunk := Idle;
          return;
        } else {
          if id != Number(previousChunk + 1) {
            previousChunk := Idle;
            return;
          }
          previousChunk := id.n;
        }
      }
      buffer := buffer + data;
      parts := parts + [data];
    }

    /** handleNotifications: nothing reaches onChunk while paused. */
    method HandleNotification(notification: Bytes, rotate: Bytes -> Bytes)
      requires Valid()
      modifies this
      ensures Valid()
      ensures isPaused ==> State() == old(State()) && photos == old(photos)
      ensures !isPaused ==>
        var (id, data) := DecodeNotification(notification);
        var s := Step(old(State()), id, data);
        State() == s.next && photos == old(photos) + (if s.photo.Some? then [rotate(s.photo.value)] else [])
      ensures isPaused == old(isPaused)
    {
      if !isPaused {
        var (id, data) := DecodeNotification(notification);
        OnChunk(id, data, rotate);
      }
    }
  }
}
