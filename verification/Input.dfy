/** Incremental reassembly of frames in a bounded buffer: the `input` part of the
    server's client slots and of both clients. */
module Input {
  import opened Header
  import opened Framing
  import opened Kernel

  datatype Phase = AwaitHeader | AwaitPayload

  /** What the bytes just read complete. */
  datatype Progress = Partial | Complete(frame: Frame) | TooBig

  /** The reader is between frames or inside one: the counters ask for exactly
      what is missing of the header, or of the frame the header announces. */
  ghost predicate Asks(phase: Phase, prefix: seq<byte>, left: nat) {
    && left > 0
    && match phase
       case AwaitHeader => |prefix| + left == HEADER_SIZE
       case AwaitPayload => |prefix| >= HEADER_SIZE && |prefix| + left == HEADER_SIZE + GetSize(prefix)
  }

  class Input {
    ghost const slot: nat
    const data: array<byte>
    const base: nat
    const cap: nat
    var phase: Phase
    var size: nat
    var left: nat

    constructor (ghost slot: nat, data: array<byte>, base: nat, cap: nat)
      ensures this.slot == slot && this.data == data && this.base == base && this.cap == cap
    {
      this.slot, this.data, this.base, this.cap := slot, data, base, cap;
    }

    /** The slice [base, base + cap) of the buffer, large enough for a header. */
    ghost predicate InBuffer() {
      HEADER_SIZE <= cap && base + cap <= data.Length
    }

    /** The bytes of the frame received so far. */
    ghost function Prefix(): seq<byte>
      requires InBuffer() && size <= cap
      reads this`size, data
    {
      data[base..base + size]
    }

    /** Ready for a read, which asks for at least one byte and stays in the slice. */
    ghost predicate Awaiting()
      reads this, data
    {
      InBuffer() && size + left <= cap && Asks(phase, Prefix(), left)
    }

    /** Between reads, `rest` is what the buffer holds of an unfinished frame; `tooBig`
        says that it is the header of a frame too large for the buffer, and then a
        further read would not stay in the slice. */
    ghost predicate Keeps(rest: seq<byte>, tooBig: bool)
      reads this, data
    {
      && InBuffer() && size <= cap && Prefix() == rest && Parse(rest, cap) == Parsed([], rest, tooBig)
      && if tooBig then size + left > cap else Awaiting()
    }

    lemma AwaitingIsUnparsed()
      requires Awaiting()
      ensures Parse(Prefix(), cap) == Parsed([], Prefix(), false)
    {
    }

    method Reset()
      requires InBuffer()
      modifies this
      ensures Awaiting() && Prefix() == []
    {
      phase := AwaitHeader;
      size := 0;
      left := HEADER_SIZE;
    }

    /** The bookkeeping after a read of n bytes into the buffer behind the prefix. */
    method Advance(n: nat)
      returns (p: Progress)
      requires InBuffer() && size + left <= cap && 0 < n <= left
      requires Asks(phase, Prefix(), left)
      modifies this
      ensures size == old(size) + n <= cap
      ensures p.Partial? ==> Awaiting()
      ensures p.Complete? ==> Parse(Prefix(), cap) == Parsed([p.frame], [], false)
      ensures p.TooBig? ==> Parse(Prefix(), cap) == Parsed([], Prefix(), true) && size + left > cap
    {
      hide Parse;
      ghost var before := Prefix();
      size := size + n;
      left := left - n;
      ghost var after := Prefix();
      assert after[..|before|] == before;
      if left > 0 {
        assert phase == AwaitPayload ==> GetSize(after) == GetSize(before);
        return Partial;
      }
      if phase == AwaitHeader {
        left := GetSize(data[base..base + HEADER_SIZE]);
        assert after == data[base..base + HEADER_SIZE];
        if left + HEADER_SIZE > cap {
          ParseTooBig(after, cap);
          return TooBig;
        }
        phase := AwaitPayload;
      }
      if left > 0 {
        return Partial;
      }
      assert phase == AwaitPayload && |before| >= HEADER_SIZE ==> GetSize(after) == GetSize(before);
      ParseWhole(after, cap);
      p := Complete(Frame(data[base], data[base + HEADER_SIZE..base + size]));
    }

    /** One round of the read loop up to the point where a frame is complete. */
    method Receive(k: Kernel, fd: int) returns (r: Io, p: Progress, ghost chunk: seq<byte>)
      requires Awaiting()
      modifies this, data, k`st, k`arriving
      ensures forall i :: 0 <= i < data.Length && !(base <= i < base + cap) ==> data[i] == old(data[i])
      ensures !r.Count? ==>
          k.st == old(k.st) && k.arriving == old(k.arriving) && Awaiting() && Prefix() == old(Prefix())
      ensures r.Again? ==> k.arriving == 0
      ensures fd !in old(k.st.open) ==> r.Failed?
      ensures k.calm && fd in old(k.st.open) ==> !r.Failed?
      ensures r.Count? ==> k.st == old(k.st).Received(fd, chunk) && k.arriving == old(k.arriving) - |chunk|
      ensures r.Count? ==> chunk != [] && size <= cap && Prefix() == old(Prefix()) + chunk
      ensures r.Count? && p.Partial? ==> Awaiting()
      ensures r.Count? && p.Complete? ==> Parse(Prefix(), cap) == Parsed([p.frame], [], false)
      ensures r.Count? && p.TooBig? ==> Parse(Prefix(), cap) == Parsed([], Prefix(), true) && size + left > cap
    {
      hide Parse;
      ghost var before := data[..];
      p := Partial;
      r, chunk := k.Read(fd, data, base + size, left);
      if r.Count? {
        assert data[..base + size] == before[..base + size];
        assert data[base + size..base + size + r.n] == chunk;
        p := Advance(r.n);
      }
    }
  }
}
