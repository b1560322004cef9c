/**
 * The persisted build cache (`cache.py`): a record from each build target to
 * the digest of the source it was last compiled from, kept in `cache.json`.
 */
module Cache {

  import opened Optional

  newtype Byte = x: int | 0 <= x < 256

  /** The four binaries the harness builds; `compile_file` indexes the cache by these. */
  datatype Target = Check | Gen | Main | Slow

  /** The key a target has in `cache.json` and the file name of its binary. */
  function Key(t: Target): (k: string)
    ensures k in {"check", "gen", "main", "slow"}
  {
    match t
    case Check => "check"
    case Gen => "gen"
    case Main => "main"
    case Slow => "slow"
  }

  lemma KeyInjective(t: Target, u: Target)
    ensures Key(t) == Key(u) ==> t == u
  {
  }

  type Record = map<Target, string>

  /** The record `get_cache` writes when there is no cache file yet. */
  function DefaultRecord(): Record {
    map[Check := "", Gen := "", Main := "", Slow := ""]
  }

  lemma DefaultRecordShape()
    ensures DefaultRecord().Keys == {Check, Gen, Main, Slow}
    ensures forall t :: t in DefaultRecord() && DefaultRecord()[t] == ""
  {
    forall t ensures t in DefaultRecord() && DefaultRecord()[t] == "" {
      match t
      case Check =>
      case Gen =>
      case Main =>
      case Slow =>
    }
  }

  /** A lower-case hexadecimal digit, `0`-`9` or `a`-`f`. */
  predicate IsHexChar(c: char) {
    ('0' <= c <= '9') || ('a' <= c <= 'f')
  }

  /** What `hashlib.sha256(...).hexdigest()` returns: 64 lower-case hex digits. */
  predicate IsHexDigest(s: string) {
    |s| == 64 && forall i :: 0 <= i < |s| ==> IsHexChar(s[i])
  }

  type Digest = s: string | IsHexDigest(s)
    witness seq(64, i => '0')

  /**
   * `hash_file`: a file's digest depends on its bytes and nothing else. The
   * hash itself is a parameter of the operations that use it, so every
   * property proved here holds for SHA-256 and for any other such function.
   */
  type Hasher = seq<Byte> -> Digest

  /** No digest equals the empty default entry, so a fresh entry always misses. */
  lemma DigestMissesDefault(d: Digest, t: Target)
    ensures t in DefaultRecord() && DefaultRecord()[t] != d
  {
  }

  /** `cache.json`: absent (`None`) until the first `get_cache`. */
  class CacheFile {
    var contents: Option<Record>
    /** How many times the file has been written. */
    ghost var writes: nat

    constructor (initial: Option<Record>)
      ensures contents == initial && writes == 0
    {
      contents := initial;
      writes := 0;
    }

    /** `get_cache`: create the file with the default record if missing, then read it. */
    method Get() returns (r: Record)
      modifies this
      ensures old(contents).None? ==> contents == Some(DefaultRecord()) && writes == old(writes) + 1
      ensures old(contents).Some? ==> contents == old(contents) && writes == old(writes)
      ensures contents == Some(r)
    {
      if contents.None? {
        contents := Some(DefaultRecord());
        writes := writes + 1;
      }
      r := contents.value;
    }

    /** `set_cache`: overwrite the file with `c`. */
    method Set(c: Record)
      modifies this
      ensures contents == Some(c) && writes == old(writes) + 1
    {
      contents := Some(c);
      writes := writes + 1;
    }
  }

  /** What is stored is what is loaded next. */
  method StoreThenLoad(f: CacheFile, c: Record) returns (r: Record)
    modifies f
    ensures r == c && f.contents == Some(c)
    ensures f.writes == old(f.writes) + 1
  {
    f.Set(c);
    r := f.Get();
  }

}
