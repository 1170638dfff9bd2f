/**
 * The session history buffer: a list of chunks that must always hold exactly
 * the newest characters that fit its capacity (src/server/circular-buffer.ts).
 */
module CircularBuffers {
  import opened Common

  function Join(chunks: seq<string>): string {
    if chunks == [] then "" else chunks[0] + Join(chunks[1..])
  }

  lemma {:induction false} JoinSnoc(chunks: seq<string>, last: string)
    ensures Join(chunks + [last]) == Join(chunks) + last
  {
    if chunks == [] {
      assert chunks + [last] == [last];
    } else {
      assert (chunks + [last])[1..] == chunks[1..] + [last];
      JoinSnoc(chunks[1..], last);
    }
  }

  ghost predicate NoEmptyChunk(chunks: seq<string>) {
    forall i :: 0 <= i < |chunks| ==> chunks[i] != ""
  }

  lemma {:induction false} ChunksBoundedByLength(chunks: seq<string>)
    requires NoEmptyChunk(chunks)
    ensures |chunks| <= |Join(chunks)|
  {
    if chunks != [] {
      ChunksBoundedByLength(chunks[1..]);
    }
  }

  lemma TrimFront(chunks: seq<string>, n: nat)
    requires chunks != [] && n <= |chunks[0]|
    ensures Join(chunks[0 := chunks[0][n..]]) == Join(chunks)[n..]
  {}

  /** What a JavaScript caller may pass for the optional numeric `limit`. */
  datatype Limit = Undefined | NotFinite | Finite(value: real)

  /** `String.prototype.slice(-n)`: note that `slice(-0)` starts at the front. */
  function SliceFromEnd(s: string, n: nat): string {
    if n == 0 then s else LastN(s, n)
  }

  function Tail(content: string, limit: Limit): string {
    match limit
    case Undefined => content
    case NotFinite => content
    case Finite(v) =>
      if v >= |content| as real then content
      else if v <= 0.0 then ""
      else SliceFromEnd(content, v.Floor)
  }

  /** Every integer limit, which is all the server lets through, means LastN. */
  lemma TailOfIntegerLimit(content: string, limit: int)
    ensures Tail(content, Finite(limit as real)) == LastN(content, if limit < 0 then 0 else limit)
  {}

  /**
   * Every limit: none, or one that is not finite, means all; one that is positive and below
   * one means all as well; any other means its floor, and never less than nothing.
   */
  lemma TailOfEveryLimit(content: string, v: real)
    ensures Tail(content, Undefined) == Tail(content, NotFinite) == content
    ensures Tail(content, Finite(v)) ==
            if 0.0 < v < 1.0 then content else LastN(content, if v < 0.0 then 0 else v.Floor)
  {}

  ghost predicate WithinLimit(r: string, v: real) {
    |r| as real <= if v < 0.0 then 0.0 else v
  }

  /**
   * "Never more than requested" fails for exactly the fractional limits below
   * one: they floor to zero, and a slice from minus zero is the whole content.
   */
  lemma TailRespectsLimitIff(content: string, v: real)
    ensures WithinLimit(Tail(content, Finite(v)), v) <==> !(0.0 < v < 1.0 && content != "")
  {}

  class CircularBuffer {
    const maxSize: nat
    var buffer: seq<string>
    var currentSize: nat

    ghost predicate Valid()
      reads this
    {
      NoEmptyChunk(buffer) && currentSize == |Join(buffer)| <= maxSize
    }

    ghost function Contents(): string
      reads this
    {
      Join(buffer)
    }

    constructor (maxSize: nat)
      ensures Valid() && Contents() == "" && this.maxSize == maxSize
    {
      this.maxSize := maxSize;
      buffer, currentSize := [], 0;
    }

    method Append(data: string)
      requires Valid()
      modifies this
      ensures Valid() && Contents() == LastN(old(Contents()) + data, maxSize)
    {
      if data == "" {
        assert Contents() + data == Contents();
        return;
      }
      ghost var total := Contents() + data;
      JoinSnoc(buffer, data);
      buffer := buffer + [data];
      currentSize := currentSize + |data|;
      var overflow := currentSize - maxSize;
      while overflow > 0
        invariant NoEmptyChunk(buffer)
        invariant currentSize == |Join(buffer)| <= |total|
        invariant overflow == currentSize - maxSize && (overflow < 0 ==> currentSize == |total|)
        invariant Join(buffer) == total[|total| - currentSize..]
      {
        // An overflowing buffer is never empty, so the source's guard against
        // a missing first chunk is unreachable.
        var oldest := buffer[0];
        assert Join(buffer)[|oldest|..] == Join(buffer[1..]);
        if |oldest| <= overflow {
          buffer := buffer[1..];
          currentSize := currentSize - |oldest|;
          overflow := overflow - |oldest|;
        } else {
          TrimFront(buffer, overflow);
          buffer := buffer[0 := oldest[overflow..]];
          currentSize := currentSize - overflow;
          overflow := 0;
        }
      }
    }

    method ToString(limit: Limit) returns (r: string)
      requires Valid()
      ensures r == Tail(Contents(), limit)
    {
      r := JoinAll(buffer);
      if limit.Finite? {
        if limit.value >= |r| as real {
          return;
        }
        if limit.value <= 0.0 {
          return "";
        }
        r := SliceFromEnd(r, limit.value.Floor);
      }
    }

    method Clear()
      modifies this
      ensures Valid() && Contents() == ""
    {
      buffer, currentSize := [], 0;
    }

    method Size() returns (size: nat)
      requires Valid()
      ensures size == |Contents()| <= maxSize
    {
      size := currentSize;
    }

    method ChunkCount() returns (count: nat)
      requires Valid()
      ensures count <= |Contents()| <= maxSize
    {
      ChunksBoundedByLength(buffer);
      count := |buffer|;
    }
  }

  /** `chunks.join('')`. */
  method JoinAll(chunks: seq<string>) returns (r: string)
    ensures r == Join(chunks)
  {
    r := "";
    for i := 0 to |chunks|
      invariant r == Join(chunks[..i])
    {
      JoinSnoc(chunks[..i], chunks[i]);
      assert chunks[..i + 1] == chunks[..i] + [chunks[i]];
      r := r + chunks[i];
    }
    assert chunks[..|chunks|] == chunks;
  }

  /** The contents after appending `chunks` one by one to a fresh buffer. */
  function AppendAll(chunks: seq<string>, capacity: nat): string {
    if chunks == [] then ""
    else LastN(AppendAll(chunks[..|chunks| - 1], capacity) + chunks[|chunks| - 1], capacity)
  }

  /** Over any run of appends the buffer holds exactly the suffix that fits. */
  lemma {:induction false} AppendAllIsSuffix(chunks: seq<string>, capacity: nat)
    ensures AppendAll(chunks, capacity) == LastN(Join(chunks), capacity)
  {
    if chunks != [] {
      var init, last := chunks[..|chunks| - 1], chunks[|chunks| - 1];
      assert chunks == init + [last];
      AppendAllIsSuffix(init, capacity);
      JoinSnoc(init, last);
      LastNAbsorbs(Join(init), last, capacity);
    }
  }
}
