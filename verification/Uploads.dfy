/** Reading an upload of unknown length within a byte limit (app/services/uploads.py). */
module Uploads {
  import opened Wrappers

  type Byte = bv8

  /** A request body. Each read returns between one byte and as many as asked for, as the
      sender pleases, and nothing only at the end. */
  class Body {
    var rest: seq<Byte>
    var pulled: nat
    const pleases: (nat, nat) -> nat

    constructor (content: seq<Byte>, pleases: (nat, nat) -> nat)
      ensures rest == content && pulled == 0
    {
      rest, pulled := content, 0;
      this.pleases := pleases;
    }

    method Read(n: nat) returns (chunk: seq<Byte>)
      requires n > 0
      modifies this
      ensures old(rest) == chunk + rest && |chunk| <= n
      ensures chunk == [] <==> old(rest) == []
      ensures pulled == old(pulled) + |chunk|
    {
      var most := if |rest| < n then |rest| else n;
      if most == 0 {
        return [];
      }
      var size := 1 + pleases(pulled, n) % most;
      chunk, rest, pulled := rest[..size], rest[size..], pulled + size;
    }
  }

  /** A hash computed piece by piece. */
  datatype Hashing<!H> = Hashing(start: H, update: (H, seq<Byte>) -> H, digest: H -> string)

  /** The one law of streaming: pieces add up to their concatenation. */
  ghost predicate Streams<H(!new)>(h: Hashing<H>) {
    && (forall a, b :: Adds(h, a, b))
    && h.update(h.start, []) == h.start
  }

  ghost predicate Adds<H>(h: Hashing<H>, a: seq<Byte>, b: seq<Byte>) {
    h.update(h.update(h.start, a), b) == h.update(h.start, a + b)
  }

  function HashOf<H>(h: Hashing<H>, content: seq<Byte>): string {
    h.digest(h.update(h.start, content))
  }

  datatype TooLarge = FileTooLarge(limit: nat)

  /** `read_upload_bounded`: the whole content with its hash when it is within the limit,
      and a refusal otherwise, after pulling at most one byte more than the limit. */
  method ReadUploadBounded<H(!new)>(body: Body, maxBytes: nat, chunkSize: nat, h: Hashing<H>)
      returns (r: Result<(seq<Byte>, string), TooLarge>)
    requires chunkSize > 0 && Streams(h)
    modifies body
    ensures |old(body.rest)| <= maxBytes ==> r == Ok((old(body.rest), HashOf(h, old(body.rest)))) && body.rest == []
    ensures |old(body.rest)| > maxBytes ==>
            r == Err(FileTooLarge(maxBytes)) && body.pulled == old(body.pulled) + maxBytes + 1
    ensures body.pulled <= old(body.pulled) + maxBytes + 1
  {
    var hasher, total, spool := h.start, 0, [];
    while true
      invariant total == |spool| <= maxBytes && spool + body.rest == old(body.rest)
      invariant hasher == h.update(h.start, spool)
      invariant body.pulled == old(body.pulled) + total
      decreases |body.rest|
    {
      var remaining := maxBytes - total;
      var chunk := body.Read(if chunkSize < remaining + 1 then chunkSize else remaining + 1);
      if chunk == [] {
        assert spool == old(body.rest);
        return Ok((spool, h.digest(hasher)));
      }
      if total + |chunk| > maxBytes {
        return Err(FileTooLarge(maxBytes));
      }
      total := total + |chunk|;
      assert Adds(h, spool, chunk);
      hasher := h.update(hasher, chunk);
      spool := spool + chunk;
    }
  }
}
