/** The circular buffers of the kernel and the servers, for characters and integers. */
module RingBuffers {

  datatype BufferState = NotEmpty | Empty | Full

  /** What the positions and the state stand for. */
  ghost function Unwrap<T>(storage: seq<T>, state: BufferState, read: int, write: int): (s: seq<T>)
    requires 0 <= read < |storage| && 0 <= write < |storage|
  {
    if state.Empty? then []
    else if read < write then storage[read..write]
    else storage[read..] + storage[..write]
  }

  lemma NextPosition(i: int, n: int)
    requires 0 <= i < n
    ensures (i + 1) % n == if i + 1 == n then 0 else i + 1
  {
    if i + 1 < n {
      assert (i + 1) / n == 0;
    }
  }

  /** The state that goes with the positions. */
  ghost predicate Consistent(state: BufferState, read: int, write: int) {
    state.NotEmpty? <==> write != read
  }

  lemma PushUnwraps<T>(storage: seq<T>, state: BufferState, read: int, write: int, x: T)
    requires 0 <= read < |storage| && 0 <= write < |storage| && Consistent(state, read, write) && !state.Full?
    ensures var w := if write + 1 == |storage| then 0 else write + 1;
      Unwrap(storage[write := x], if w == read then Full else NotEmpty, read, w) ==
      Unwrap(storage, state, read, write) + [x]
  {
  }

  lemma PopUnwraps<T>(storage: seq<T>, state: BufferState, read: int, write: int)
    requires 0 <= read < |storage| && 0 <= write < |storage| && Consistent(state, read, write) && !state.Empty?
    ensures var r := if read + 1 == |storage| then 0 else read + 1;
      [storage[read]] + Unwrap(storage, if r == write then Empty else NotEmpty, r, write) ==
      Unwrap(storage, state, read, write)
  {
  }

  lemma PopLastUnwraps<T>(storage: seq<T>, state: BufferState, read: int, write: int)
    requires 0 <= read < |storage| && 0 <= write < |storage| && Consistent(state, read, write) && !state.Empty?
    ensures var w := if write == 0 then |storage| - 1 else write - 1;
      Unwrap(storage, if read == w then Empty else NotEmpty, read, w) + [storage[w]] ==
      Unwrap(storage, state, read, write)
  {
  }

  class RingBuffer<T(0)> {
    var state: BufferState
    const size: int
    const storage: array<T>
    var writePosition: int
    var readPosition: int

    ghost predicate Valid()
      reads this, storage
    {
      && 1 <= size == storage.Length
      && 0 <= writePosition < size
      && 0 <= readPosition < size
      && Consistent(state, readPosition, writePosition)
    }

    ghost function Contents(): (s: seq<T>)
      requires Valid()
      reads this, storage
    {
      Unwrap(storage[..], state, readPosition, writePosition)
    }

    constructor (storageArray: array<T>)
      requires storageArray.Length >= 1
      ensures Valid() && storage == storageArray && size == storageArray.Length
      ensures Contents() == []
    {
      storage := storageArray;
      size := storageArray.Length;
      state := Empty;
      writePosition := 0;
      readPosition := 0;
    }

    method Clear()
      requires Valid()
      modifies this
      ensures Valid()
      ensures Contents() == []
    {
      state := Empty;
      writePosition := 0;
      readPosition := 0;
    }

    /** Pushing fails exactly when the buffer is full. */
    method Push(x: T) returns (code: int)
      requires Valid()
      modifies this, storage
      ensures Valid()
      ensures code == if |old(Contents())| == size then -1 else 0
      ensures Contents() == if code == 0 then old(Contents()) + [x] else old(Contents())
    {
      if state.Full? {
        return -1;
      }
      NextPosition(writePosition, size);
      PushUnwraps(storage[..], state, readPosition, writePosition, x);
      storage[writePosition] := x;
      writePosition := (writePosition + 1) % size;
      if writePosition == readPosition {
        state := Full;
      } else {
        state := NotEmpty;
      }
      return 0;
    }

    method Pop() returns (x: T)
      requires Valid() && Contents() != []
      modifies this
      ensures Valid()
      ensures [x] + Contents() == old(Contents())
    {
      NextPosition(readPosition, size);
      PopUnwraps(storage[..], state, readPosition, writePosition);
      x := storage[readPosition];
      readPosition := (readPosition + 1) % size;
      if readPosition == writePosition {
        state := Empty;
      } else {
        state := NotEmpty;
      }
    }

    method Peek() returns (x: T)
      requires Valid() && Contents() != []
      ensures x == Contents()[0]
    {
      x := storage[readPosition];
    }

    /** Takes back the newest element. */
    method PopLast() returns (x: T)
      requires Valid() && Contents() != []
      modifies this
      ensures Valid()
      ensures Contents() + [x] == old(Contents())
    {
      PopLastUnwraps(storage[..], state, readPosition, writePosition);
      writePosition := writePosition - 1;
      if writePosition == -1 {
        writePosition := size - 1;
      }
      x := storage[writePosition];
      if readPosition == writePosition {
        state := Empty;
      } else {
        state := NotEmpty;
      }
    }

    method Size() returns (n: int)
      requires Valid()
      ensures n == |Contents()| <= size
    {
      if state.Empty? {
        return 0;
      }
      if state.Full? {
        return size;
      }
      if writePosition > readPosition {
        return writePosition - readPosition;
      } else {
        return size - (readPosition - writePosition);
      }
    }
  }
}
