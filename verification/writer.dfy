/** The buffered output file: bytes are collected in a 4096-byte buffer,
    line feeds become carriage returns on the way in, and a full buffer is
    handed to the file system in one write request. */
module OutputWriter {
  import opened Bytes

  const BUFFER_SIZE: nat := 4096

  class Writer {
    /** The write buffer and how much of it holds pending bytes. */
    const buffer: array<byte>
    var offset: nat
    /** Count of bytes handed to WriteChar since the start. */
    var pos: nat
    /** What the file holds so far, and the request count of each write
        request that put it there. */
    var sink: seq<byte>
    var requests: seq<nat>
    /** Every byte handed to WriteChar, before the line-ending rewrite. */
    ghost var written: seq<byte>

    /** The file followed by the pending buffer is the rewritten stream of
        everything written, and every request so far wrote a full buffer. */
    ghost predicate Valid()
      reads this, buffer
    {
      && buffer.Length == BUFFER_SIZE
      && offset <= BUFFER_SIZE
      && pos == |written|
      && sink + buffer[..offset] == Normalize(written)
      && (forall i :: 0 <= i < |requests| ==> requests[i] == BUFFER_SIZE)
      && |sink| == BUFFER_SIZE * |requests|
    }

    constructor ()
      ensures Valid() && fresh(buffer)
      ensures written == [] && sink == [] && requests == [] && offset == 0
    {
      buffer := new byte[BUFFER_SIZE];
      offset := 0;
      pos := 0;
      sink := [];
      requests := [];
      written := [];
    }

    /** One write request of the pending bytes; the buffer is then empty. */
    method FlushBuffer()
      requires buffer.Length == BUFFER_SIZE && offset <= BUFFER_SIZE
      modifies this
      ensures sink == old(sink) + old(buffer[..offset])
      ensures requests == old(requests) + [old(offset)]
      ensures offset == 0
      ensures pos == old(pos) && written == old(written)
    {
      requests := requests + [offset];
      sink := sink + buffer[..offset];
      offset := 0;
    }

    /** Appends one byte, flushing first when the buffer is full. */
    method WriteChar(ch: byte)
      requires Valid()
      modifies this, buffer
      ensures Valid()
      ensures written == old(written) + [ch]
      ensures pos == old(pos) + 1
      ensures old(offset) == BUFFER_SIZE ==> requests == old(requests) + [BUFFER_SIZE] && offset == 1
      ensures old(offset) < BUFFER_SIZE ==> requests == old(requests) && offset == old(offset) + 1
    {
      if offset == BUFFER_SIZE {
        FlushBuffer();
      }
      var c := ch;
      if c == LF {
        c := CR;
      }
      ghost var before := sink + buffer[..offset];
      buffer[offset] := c;
      offset := offset + 1;
      pos := pos + 1;
      written := written + [ch];
      assert buffer[..offset] == buffer[..offset - 1] + [c];
      assert sink + buffer[..offset] == before + [NormalizeByte(ch)];
      NormalizeAppend(old(written), [ch]);
    }

    /** Appends the bytes of s one by one. */
    method WriteString(s: seq<byte>)
      requires Valid()
      modifies this, buffer
      ensures Valid()
      ensures written == old(written) + s
      ensures pos == old(pos) + |s|
    {
      var i := 0;
      while i < |s|
        invariant 0 <= i <= |s|
        invariant Valid()
        invariant written == old(written) + s[..i]
        invariant pos == old(pos) + i
      {
        WriteChar(s[i]);
        assert s[..i + 1] == s[..i] + [s[i]];
        i := i + 1;
      }
      assert s[..i] == s;
    }

    /** The output position: how many bytes have been written, counted
        before the line-ending rewrite. */
    function OutputPos(): (p: nat)
      requires Valid()
      reads this, buffer
      ensures p == |written|
    {
      pos
    }

    /** Flushes what is pending (if anything) so that the file holds the
        whole rewritten stream; only the last request may be short. */
    method Close()
      requires Valid()
      modifies this
      ensures sink == Normalize(written) && LF !in sink
      ensures offset == 0 && written == old(written) && pos == old(pos)
      ensures old(offset) > 0 ==> requests == old(requests) + [old(offset)]
      ensures old(offset) == 0 ==> requests == old(requests)
      ensures forall i :: 0 <= i < |requests| ==> 0 < requests[i] <= BUFFER_SIZE
      ensures forall i :: 0 <= i < |requests| - 1 ==> requests[i] == BUFFER_SIZE
    {
      if offset > 0 {
        FlushBuffer();
      }
      assert sink == sink + buffer[..offset];
      NormalizeFixesLineFeedFree(written);
    }
  }
}
