/**
  Bounded copies of a stream that arrives in pieces: `read_content` and the reader it shares with
  `_write_content`.
 */
module Streams {
  import opened Utf8

  type Bytes = seq<Byte>

  /** What a body comes as. Reading a stream may raise after the chunks that did arrive. */
  datatype Content = Buffer(bytes: Bytes) | Stream(chunks: seq<Bytes>, broken: bool)

  /** How copying a body comes out. */
  datatype Copy = Copied(bytes: Bytes) | TooLarge | Broken

  // ----- what a copy amounts to -----

  function Chunks(content: Content): seq<Bytes> {
    if content.Buffer? then [content.bytes] else content.chunks
  }

  predicate Breaks(content: Content) {
    content.Stream? && content.broken
  }

  function Concat(chunks: seq<Bytes>): Bytes {
    if chunks == [] then [] else chunks[0] + Concat(chunks[1..])
  }

  /** The loops stop at a chunk without bytes in it. */
  function Body(chunks: seq<Bytes>): Bytes {
    if chunks == [] || chunks[0] == [] then [] else chunks[0] + Body(chunks[1..])
  }

  predicate EndsWell(chunks: seq<Bytes>, broken: bool) {
    if chunks == [] then !broken else chunks[0] == [] || EndsWell(chunks[1..], broken)
  }

  function Capped(content: Content, max: nat): Copy {
    var body := Body(Chunks(content));
    if |body| > max then TooLarge else if EndsWell(Chunks(content), Breaks(content)) then Copied(body) else Broken
  }

  ghost predicate NonEmpty(chunks: seq<Bytes>) {
    forall i :: 0 <= i < |chunks| ==> chunks[i] != []
  }

  lemma {:induction false} BodyIsConcat(chunks: seq<Bytes>, broken: bool)
    requires NonEmpty(chunks)
    ensures Body(chunks) == Concat(chunks)
    ensures EndsWell(chunks, broken) <==> !broken
  {
    if chunks != [] {
      BodyIsConcat(chunks[1..], broken);
    }
  }

  /** However a stream is cut, its copy is the same, and the same as that of a buffer holding it all. */
  lemma ChunksDoNotMatter(chunks: seq<Bytes>, chunks': seq<Bytes>, broken: bool, max: nat)
    requires NonEmpty(chunks) && NonEmpty(chunks') && Concat(chunks) == Concat(chunks')
    ensures Capped(Stream(chunks, broken), max) == Capped(Stream(chunks', broken), max)
    ensures !broken ==> Capped(Stream(chunks, broken), max) == Capped(Buffer(Concat(chunks)), max)
  {
    BodyIsConcat(chunks, broken);
    BodyIsConcat(chunks', broken);
    var whole := [Concat(chunks)];
    assert whole[1..] == [];
    assert Body([]) == [] && EndsWell([], false);
    assert Concat(chunks) != [] ==> Body(whole) == Concat(chunks) + [];
  }

  /** How a copy comes out: too large exactly over the cap, else broken if the stream is, else all of it. */
  lemma CappedExactly(content: Content, max: nat)
    requires NonEmpty(Chunks(content)) || content.Buffer?
    ensures var all := if content.Buffer? then content.bytes else Concat(content.chunks);
      var broken := content.Stream? && content.broken;
      Capped(content, max) == if |all| > max then TooLarge else if broken then Broken else Copied(all)
  {
    if content.Stream? {
      BodyIsConcat(content.chunks, content.broken);
    } else if content.bytes != [] {
      BodyIsConcat([content.bytes], false);
      assert [content.bytes][1..] == [];
      assert Concat([content.bytes]) == content.bytes + Concat([]);
    }
  }

  // ----- the copying loop -----

  class Reader {
    const broken: bool
    var rest: seq<Bytes>

    /** `_prepare_reader`: a buffer is a stream of one chunk. */
    constructor (content: Content)
      ensures rest == Chunks(content) && broken == Breaks(content)
    {
      rest, broken := Chunks(content), Breaks(content);
    }

    predicate AtEof()
      reads this
    {
      rest == [] && !broken
    }

    method Read() returns (chunk: Bytes, raised: bool)
      requires !AtEof()
      modifies this`rest
      ensures raised <==> old(rest) == []
      ensures if raised then rest == [] else chunk == old(rest)[0] && rest == old(rest)[1..]
    {
      raised := rest == [];
      chunk := [];
      if !raised {
        chunk, rest := rest[0], rest[1..];
      }
    }
  }

  method ReadContent(content: Content, max: nat) returns (r: Copy)
    ensures r == Capped(content, max)
  {
    var reader := new Reader(content);
    var written: Bytes := [];
    while !reader.AtEof()
      invariant |written| <= max
      invariant written + Body(reader.rest) == Body(Chunks(content))
      invariant EndsWell(reader.rest, reader.broken) == EndsWell(Chunks(content), Breaks(content))
      decreases |reader.rest|
    {
      ghost var rest := reader.rest;
      var chunk, raised := reader.Read();
      if raised {
        return Broken;
      }
      if chunk == [] {
        break;
      }
      assert written + Body(rest) == written + chunk + Body(reader.rest);
      if |written| + |chunk| > max {
        return TooLarge;
      }
      written := written + chunk;
    }
    r := Copied(written);
  }
}
