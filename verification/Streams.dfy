/** Streamed content checks (verify_content.go): reading to the end of a verifying reader is
    the whole-buffer check, however the source cuts its bytes. */
module Streams {
  type Bytes = seq<bv8>

  datatype Failure = Fine | Eof | Integrity | Broken

  /** What a stored multihash names: the digest and the size of the bytes it stands for. */
  datatype Expected = Expected(digest: nat, size: nat)

  /** VerifyContent: the bytes have the size and the digest asked for. */
  predicate Accepts(hash: Bytes -> nat, want: Expected, data: Bytes) {
    |data| == want.size && hash(data) == want.digest
  }

  /** A source hands out its bytes in whatever pieces it likes and may break at any point. It
      makes progress: asked for bytes it returns some, or says why not. */
  class Source {
    const data: Bytes
    var pos: nat

    ghost predicate Valid()
      reads this
    {
      pos <= |data|
    }

    constructor (data: Bytes)
      ensures Valid() && this.data == data && pos == 0
    {
      this.data, pos := data, 0;
    }

    method Read(max: nat) returns (chunk: Bytes, err: Failure)
      requires Valid()
      modifies this
      ensures Valid() && old(pos) <= pos <= old(pos) + max && chunk == data[old(pos)..pos]
      ensures err == Fine || err == Eof || err == Broken
      ensures err == Eof ==> pos == |data|
      ensures max > 0 && chunk == [] ==> err != Fine
    {
      var n: nat :| n <= max && pos + n <= |data|;
      chunk := data[pos..pos + n];
      pos := pos + n;
      var breaks: bool, early: bool := *, *;
      if breaks {
        err := Broken;
      } else if pos == |data| && (early || (n == 0 && max > 0)) {
        err := Eof;
      } else if n == 0 && max > 0 {
        err := Broken;
      } else {
        err := Fine;
      }
    }
  }

  class VerifyingReader {
    const src: Source
    const hash: Bytes -> nat
    const want: Expected
    var hashed: Bytes
    var read: nat
    var done: bool

    ghost predicate Valid()
      reads this, src
    {
      && src.Valid() && read == |hashed| <= want.size
      && (!done ==> hashed == src.data[..src.pos] && (read == want.size ==> want.size == 0))
    }

    constructor (src: Source, hash: Bytes -> nat, want: Expected)
      requires src.Valid() && src.pos == 0
      ensures Valid() && !done && read == 0
      ensures this.src == src && this.hash == hash && this.want == want
    {
      this.src, this.hash, this.want := src, hash, want;
      hashed, read, done := [], 0, false;
    }

    /** Read. The final block is held back until the probe past it and the digest have passed. */
    method Read(max: nat) returns (chunk: Bytes, err: Failure)
      requires Valid()
      modifies this, src
      ensures Valid() && (err != Fine && err != Broken ==> done)
      ensures old(done) || want.size == 0 ==> chunk == [] && err == Eof
      ensures !old(done) && want.size > 0 && err == Eof ==>
        Accepts(hash, want, src.data) && chunk == src.data[old(read)..]
      ensures !old(done) && want.size > 0 && err == Integrity ==> !Accepts(hash, want, src.data)
      ensures !old(done) && want.size > 0 && err != Eof ==>
        |chunk| <= max && old(read) + |chunk| < want.size && old(read) + |chunk| <= |src.data| &&
        chunk == src.data[old(read)..old(read) + |chunk|]
      ensures !old(done) && want.size > 0 && err == Fine ==>
        !done && read == old(read) + |chunk| && (max > 0 ==> chunk != [])
    {
      if done {
        return [], Eof;
      }
      var remaining := want.size - read;
      if remaining == 0 {
        done := true;
        return [], Eof;
      }
      chunk, err := src.Read(if max > remaining then remaining else max);
      assert src.data[..old(src.pos)] + chunk == src.data[..src.pos];
      hashed := hashed + chunk;
      read := read + |chunk|;
      if read == want.size {
        chunk, err := Finish(chunk);
        return;
      }
      if err == Eof {
        done := true;
        assert src.data[..src.pos] == src.data;
        return chunk, Integrity;
      }
    }

    /** The expected number of bytes is in: probe for one more, then compare digests. */
    method Finish(last: Bytes) returns (chunk: Bytes, err: Failure)
      requires src.Valid() && read == |hashed| == want.size && hashed == src.data[..src.pos]
      modifies this`done, src
      ensures src.Valid() && done && err != Fine
      ensures err == Eof ==> chunk == last && Accepts(hash, want, src.data)
      ensures err != Eof ==> chunk == []
      ensures err == Integrity ==> !Accepts(hash, want, src.data)
    {
      var probe, probeErr := src.Read(1);
      done := true;
      if |probe| > 0 {
        return [], Integrity;
      }
      if probeErr != Eof {
        return [], probeErr;
      }
      assert src.data[..src.pos] == src.data;
      if hash(hashed) != want.digest {
        return [], Integrity;
      }
      return last, Eof;
    }
  }

  /** Reading to the end, with buffers of any sizes: unless the source breaks, the read ends
      cleanly exactly when the whole bytes are accepted, and then they are what was delivered.
      On any failure fewer than the expected bytes have been delivered, and those are true. */
  method ReadAll(vr: VerifyingReader) returns (delivered: Bytes, err: Failure)
    requires vr.Valid() && !vr.done && vr.read == 0 && vr.want.size > 0
    modifies vr, vr.src
    ensures err != Fine
    ensures err == Eof ==> Accepts(vr.hash, vr.want, vr.src.data) && delivered == vr.src.data
    ensures err == Integrity ==> !Accepts(vr.hash, vr.want, vr.src.data)
    ensures err != Eof ==> delivered <= vr.src.data && |delivered| < vr.want.size
    ensures err != Broken ==> (err == Eof <==> Accepts(vr.hash, vr.want, vr.src.data))
  {
    delivered, err := [], Fine;
    while err == Fine
      invariant vr.Valid() && (err == Fine ==> !vr.done && |delivered| == vr.read)
      invariant err != Eof ==> delivered <= vr.src.data && |delivered| < vr.want.size
      invariant err == Eof ==> Accepts(vr.hash, vr.want, vr.src.data) && delivered == vr.src.data
      invariant err == Integrity ==> !Accepts(vr.hash, vr.want, vr.src.data)
      decreases err == Fine, vr.want.size - vr.read
    {
      var max: nat :| max > 0;
      var chunk;
      ghost var was := delivered;
      chunk, err := vr.Read(max);
      delivered := delivered + chunk;
      assert was == vr.src.data[..|was|];
    }
  }

  /** With nothing expected the stream ends at once, unread and unhashed: it agrees with the
      whole check only where there is nothing to read and that has the digest asked for. */
  method ReadNothing(vr: VerifyingReader) returns (err: Failure)
    requires vr.Valid() && !vr.done && vr.want.size == 0
    modifies vr, vr.src
    ensures err == Eof
    ensures Accepts(vr.hash, vr.want, vr.src.data) <==> vr.src.data == [] && vr.hash([]) == vr.want.digest
  {
    var max: nat :| true;
    var chunk;
    chunk, err := vr.Read(max);
  }
}
