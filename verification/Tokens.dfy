/** Opaque session tokens. */
module Tokens {
  import opened Basics
  import opened Binary
  import Domain

  const RANDOM_SIZE := 32

  /** The operating system's random source, and what it has delivered so far. */
  class RandomSource {
    ghost var delivered: seq<Bytes>

    constructor ()
      ensures delivered == []
    {
      delivered := [];
    }

    /** Fills the buffer, or fails. */
    method Read(b: array<Byte>) returns (ok: bool)
      modifies this, b
      ensures delivered == old(delivered) + if ok then [b[..]] else []
    {
      var i := 0;
      while i < b.Length
        invariant delivered == old(delivered)
      {
        var x: Byte :| true;
        b[i] := x;
        i := i + 1;
      }
      ok := *;
      delivered := delivered + if ok then [b[..]] else [];
    }
  }

  /** The token is the text of the last bytes delivered, and they were delivered since `before`. */
  predicate Drawn(before: seq<Bytes>, after: seq<Bytes>, token: string) {
    before < after && Decode64(Url, token) == Some(after[|after| - 1])
  }

  class OpaqueGenerator {
    const source: RandomSource

    constructor (source: RandomSource)
      ensures this.source == source
    {
      this.source := source;
    }

    /** The thirty-two bytes the source delivers, in unpadded base64url: 43 characters, inside the length bounds
        of a token.  There is no token exactly when the source delivers nothing. */
    method NewToken() returns (r: Option<string>, ghost random: Bytes)
      modifies source
      ensures source.delivered == old(source.delivered) + if r.Some? then [random] else []
      ensures r.Some? ==> |random| == 32 && Decode64(Url, r.value) == Some(random)
      ensures r.Some? ==> |r.value| == 43 && Domain.TokenValid(r.value)
    {
      var b := new Byte[RANDOM_SIZE](_ => 0);
      var ok := source.Read(b);
      random := b[..];
      if !ok {
        return None, random;
      }
      var token := Encode64(Url, b[..]);
      EncodedText(Url, b[..]);
      Base64RoundTrip(Url, b[..]);
      if !Domain.TokenValid(token) {
        return None, random;
      }
      return Some(token), random;
    }
  }
}
