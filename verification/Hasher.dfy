/** The password hasher: `Hash` fills a salt buffer in place, `Verify` takes a PHC string apart. */
module Hasher {
  import opened Basics
  import Binary
  import Domain
  import Invariant
  import Phc
  import Protocol
  import Service
  import Text
  import Tokens

  class PasswordHasher {
    /** What the hasher computes for the use cases. */
    const c: Protocol.Config
    const kdf: Phc.Kdf
    const params: Phc.Params
    const source: Tokens.RandomSource
    /** The passwords the key derivation function ran on, one after the other. */
    var derived: seq<Bytes>

    constructor (e: Service.Env, source: Tokens.RandomSource)
      ensures Valid() && c == Service.ConfigOf(e) && kdf == e.kdf && params == e.params && derived == []
      ensures this.source == source
    {
      c, kdf, params, derived := Service.ConfigOf(e), e.kdf, e.params, [];
      this.source := source;
    }

    /** The configuration's hashing is printing and parsing around this key derivation function. */
    ghost predicate Valid() {
      && (forall salt, raw {:trigger c.hash(salt, raw)} :: c.hash(salt, raw) == Phc.Hash(kdf, params, salt, raw))
      && (forall hash, raw {:trigger c.verify(hash, raw)} :: c.verify(hash, raw) == Phc.Verify(kdf, hash, raw))
    }

    method DeriveKey(raw: Bytes, salt: Bytes, time: nat, memory: nat, parallelism: nat, keyLen: nat)
      returns (key: Bytes)
      modifies this
      ensures key == kdf(raw, salt, time, memory, parallelism, keyLen) && derived == old(derived) + [raw]
    {
      key := kdf(raw, salt, time, memory, parallelism, keyLen);
      derived := derived + [raw];
    }

    /** A hash under a salt of the configured length that the source delivers for it, unless the password is too
        long or the source fails; the salt is handed out for the record of the step. */
    method Hash(raw: Bytes) returns (r: Option<string>, salt: Bytes)
      requires Valid()
      modifies this, source
      ensures source.delivered == old(source.delivered) + if r.Some? then [salt] else []
      ensures |salt| == params.saltLen
      ensures r.Some? ==> r == c.hash(salt, raw)
      ensures |raw| > Domain.PASSWORD_MAX_LEN ==> r.None?
      ensures derived == old(derived) + if r.Some? then [raw] else []
    {
      var buffer := new Byte[params.saltLen](_ => 0);
      salt := buffer[..];
      if |raw| > Domain.PASSWORD_MAX_LEN {
        return None, salt;
      }
      var ok := source.Read(buffer);
      salt := buffer[..];
      if !ok {
        return None, salt;
      }
      var key := DeriveKey(raw, buffer[..], params.time, params.memoryKiB, params.parallelism, params.keyLen);
      r := Some(Phc.Format(Phc.Parsed(params.memoryKiB, params.time, params.parallelism, buffer[..], key)));
    }

    /** Whether the password matches the hash; an error exactly for a malformed hash. */
    method Compare(hash: string, raw: Bytes) returns (r: Option<bool>)
      modifies this
      ensures r == Phc.Verify(kdf, hash, raw)
      ensures derived == old(derived) + if |raw| <= Domain.PASSWORD_MAX_LEN && Phc.Parse(hash).Some? then [raw] else []
    {
      if |raw| > Domain.PASSWORD_MAX_LEN {
        return Some(false);
      }
      var parts := Text.Split(hash, '$');
      if |parts| != 6 || parts[1] != "argon2id" {
        return None;
      }
      var version := Phc.ScanVersion(parts[2]);
      if version.None? || version.value != Phc.VERSION {
        return None;
      }
      var costs := Phc.ScanParams(parts[3]);
      if costs.None? {
        return None;
      }
      var salt := Binary.Decode64(Binary.Standard, parts[4]);
      if salt.None? {
        return None;
      }
      var want := Binary.Decode64(Binary.Standard, parts[5]);
      if want.None? {
        return None;
      }
      var (memory, time, parallelism) := costs.value;
      var got := DeriveKey(raw, salt.value, time, memory, parallelism, |want.value| % Phc.UINT32);
      return Some(got == want.value);
    }

    /** Runs the key derivation function exactly once on a well-formed hash, and not at all when the password
        is too long or the hash is malformed. */
    method Verify(hash: string, raw: Bytes) returns (r: Option<bool>)
      requires Valid()
      modifies this
      ensures r == c.verify(hash, raw)
      ensures derived == old(derived) +
        if |raw| <= Domain.PASSWORD_MAX_LEN && Invariant.Parses(c, hash) then [raw] else []
    {
      r := Compare(hash, raw);
      assert c.verify(hash, raw) == Phc.Verify(kdf, hash, raw);
      assert c.verify(hash, []).Some? <==> Phc.Parse(hash).Some?;
    }
  }
}
