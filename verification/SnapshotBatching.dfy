/** Splitting an inventory into frames bounded in objects and in bytes. */
module SnapshotBatching {
  import opened Wrappers

  /** `encoded` is the length of the object's JSON, if it can be encoded. */
  datatype Object = Object(id: nat, encoded: Option<nat>)

  const FRAME_BYTES := 1048576
  const ENVELOPE := 512
  const PAYLOAD := FRAME_BYTES - ENVELOPE
  const MOST := 500

  datatype Outcome = Sent | Invalid | StreamFailed

  datatype Batch = Batch(frames: seq<seq<Object>>, outcome: Outcome)

  predicate Sendable(o: Object) {
    o.encoded.Some? && o.encoded.value <= PAYLOAD
  }

  predicate Full(o: Object, count: int, size: int)
    requires Sendable(o)
  {
    count == MOST || size + o.encoded.value + 1 > PAYLOAD
  }

  /** The frames from object `i` on, while those from `start` wait with `size` bytes. */
  function BatchFrom(objects: seq<Object>, start: nat, i: nat, size: nat): Batch
    requires start <= i <= |objects|
    decreases |objects| - i
  {
    if i == |objects| then Batch(if start < i then [objects[start..]] else [], Sent)
    else if !Sendable(objects[i]) then Batch([], Invalid)
    else
      var n := objects[i].encoded.value;
      if Full(objects[i], i - start, size) then
        var rest := BatchFrom(objects, i, i + 1, n + 1);
        rest.(frames := [objects[start..i]] + rest.frames)
      else
        BatchFrom(objects, start, i + 1, size + n + 1)
  }

  function Batches(objects: seq<Object>): Batch {
    BatchFrom(objects, 0, 0, 0)
  }

  class Stream {
    var frames: seq<seq<Object>>
    var room: nat

    constructor (room: nat)
      ensures frames == [] && this.room == room
    {
      frames, this.room := [], room;
    }

    /** Takes a frame, or fails once the peer has gone. */
    method Send(frame: seq<Object>) returns (ok: bool)
      modifies this
      ensures ok == (old(room) > 0)
      ensures ok ==> frames == old(frames) + [frame] && room == old(room) - 1
      ensures !ok ==> frames == old(frames) && room == old(room)
    {
      ok := room > 0;
      if ok {
        frames, room := frames + [frame], room - 1;
      }
    }
  }

  /** What a stream with room for so many frames gets of a batch. */
  function Delivered(b: Batch, room: nat): Batch {
    if |b.frames| <= room then b else Batch(b.frames[..room], StreamFailed)
  }

  lemma DeliveredNext(frame: seq<Object>, rest: Batch, room: nat)
    requires room > 0
    ensures Delivered(rest.(frames := [frame] + rest.frames), room)
            == (var d := Delivered(rest, room - 1); d.(frames := [frame] + d.frames))
  {
    var b := rest.(frames := [frame] + rest.frames);
    if |b.frames| > room {
      assert b.frames[..room] == [frame] + rest.frames[..room - 1];
    }
  }

  method SendSnapshotObjects(stream: Stream, objects: seq<Object>) returns (outcome: Outcome)
    modifies stream
    ensures
      var d := Delivered(Batches(objects), old(stream.room));
      stream.frames == old(stream.frames) + d.frames && outcome == d.outcome
  {
    var start, size := 0, 0;
    for i := 0 to |objects|
      invariant 0 <= start <= i && size >= 0
      invariant
        var all := Delivered(Batches(objects), old(stream.room));
        var left := Delivered(BatchFrom(objects, start, i, size), stream.room);
        old(stream.frames) + all.frames == stream.frames + left.frames && all.outcome == left.outcome
    {
      if !Sendable(objects[i]) {
        return Invalid;
      }
      var n := objects[i].encoded.value;
      if i - start == MOST || size + n + 1 > PAYLOAD {
        ghost var rest := BatchFrom(objects, i, i + 1, n + 1);
        if stream.room > 0 {
          DeliveredNext(objects[start..i], rest, stream.room);
        }
        var ok := stream.Send(objects[start..i]);
        if !ok {
          return StreamFailed;
        }
        start, size := i, 0;
      }
      size := size + n + 1;
    }
    if start < |objects| {
      var ok := stream.Send(objects[start..]);
      return if ok then Sent else StreamFailed;
    }
    outcome := Sent;
  }

  // ---- What the frames are ----

  function Flatten(frames: seq<seq<Object>>): seq<Object> {
    if frames == [] then [] else frames[0] + Flatten(frames[1..])
  }

  /** A frame's bytes: its envelope, its objects, and a comma between two. */
  function Length(frame: seq<Object>): nat
    requires forall o :: o in frame ==> o.encoded.Some?
  {
    if frame == [] then 0
    else Length(frame[..|frame| - 1]) + frame[|frame| - 1].encoded.value + if |frame| > 1 then 1 else 0
  }

  ghost predicate Bounded(frame: seq<Object>) {
    && |frame| <= MOST
    && (forall o :: o in frame ==> o.encoded.Some?)
    && Length(frame) <= PAYLOAD
  }

  /** The objects that wait since `start` and the bytes counted for them. */
  ghost predicate Waiting(objects: seq<Object>, start: nat, i: nat, size: nat)
    requires start <= i <= |objects|
  {
    && Bounded(objects[start..i])
    && (start == i ==> size == 0)
    && (start < i ==> size == Length(objects[start..i]) + 1)
  }

  lemma WaitOneMore(objects: seq<Object>, start: nat, i: nat, size: nat)
    requires start <= i < |objects| && Waiting(objects, start, i, size) && Sendable(objects[i])
    requires start == i || !Full(objects[i], i - start, size)
    ensures Waiting(objects, start, i + 1, size + objects[i].encoded.value + 1)
  {
    var frame := objects[start..i + 1];
    assert frame[..|frame| - 1] == objects[start..i];
    assert forall o :: o in frame ==> o in objects[start..i] || o == objects[i];
  }

  /** Every frame is bounded; success happens exactly when every object can be
      sent, and then the frames are the inventory, in order and complete. */
  lemma {:induction false} BatchesConserve(objects: seq<Object>, start: nat, i: nat, size: nat)
    requires start <= i <= |objects| && Waiting(objects, start, i, size)
    ensures
      var b := BatchFrom(objects, start, i, size);
      && !b.outcome.StreamFailed?
      && (b.outcome.Sent? <==> forall j :: i <= j < |objects| ==> Sendable(objects[j]))
      && (b.outcome.Sent? ==> Flatten(b.frames) == objects[start..])
      && Flatten(b.frames) <= objects[start..]
      && (forall f :: f in b.frames ==> Bounded(f))
    decreases |objects| - i
  {
    var b := BatchFrom(objects, start, i, size);
    if i == |objects| {
      if start < i {
        assert Flatten(b.frames) == objects[start..] + Flatten([]);
        assert objects[start..i] == objects[start..];
      }
    } else if Sendable(objects[i]) {
      if Full(objects[i], i - start, size) {
        var rest := BatchFrom(objects, i, i + 1, objects[i].encoded.value + 1);
        assert objects[i..i] == [];
        WaitOneMore(objects, i, i, 0);
        BatchesConserve(objects, i, i + 1, objects[i].encoded.value + 1);
        assert b.frames[1..] == rest.frames;
        assert objects[start..] == objects[start..i] + objects[i..];
      } else {
        WaitOneMore(objects, start, i, size);
        BatchesConserve(objects, start, i + 1, size + objects[i].encoded.value + 1);
      }
    }
  }

  /** After the first object no frame is empty. */
  lemma {:induction false} LaterFramesAreFull(objects: seq<Object>, start: nat, i: nat, size: nat)
    requires start < i <= |objects|
    ensures forall f :: f in BatchFrom(objects, start, i, size).frames ==> f != []
    decreases |objects| - i
  {
    if i < |objects| && Sendable(objects[i]) {
      if Full(objects[i], i - start, size) {
        LaterFramesAreFull(objects, i, i + 1, objects[i].encoded.value + 1);
      } else {
        LaterFramesAreFull(objects, start, i + 1, size + objects[i].encoded.value + 1);
      }
    }
  }

  /** The whole promise: complete and in order exactly when every object fits,
      each frame within 500 objects and, with an envelope of at most 512 bytes,
      within a mebibyte. */
  lemma SnapshotIsConserved(objects: seq<Object>, envelope: nat)
    requires envelope <= ENVELOPE
    ensures
      var b := Batches(objects);
      && (b.outcome.Sent? <==> forall o :: o in objects ==> Sendable(o))
      && (b.outcome.Sent? ==> Flatten(b.frames) == objects)
      && (!b.outcome.Sent? ==> b.outcome.Invalid? && Flatten(b.frames) <= objects)
      && (forall f :: f in b.frames ==> Bounded(f) && envelope + Length(f) <= FRAME_BYTES)
  {
    assert objects[0..0] == [] && objects[0..] == objects;
    BatchesConserve(objects, 0, 0, 0);
  }

  /** A frame without objects is sent exactly when the first object takes the
      whole payload to the byte. */
  lemma EmptyFrameIff(objects: seq<Object>)
    ensures [] in Batches(objects).frames <==> objects != [] && objects[0].encoded == Some(PAYLOAD)
  {
    if objects != [] && Sendable(objects[0]) {
      var n := objects[0].encoded.value;
      LaterFramesAreFull(objects, 0, 1, n + 1);
      assert objects[0..0] == [];
      if n == PAYLOAD {
        assert Batches(objects).frames[0] == [];
      } else {
        assert Batches(objects) == BatchFrom(objects, 0, 1, n + 1);
      }
    }
  }
}
