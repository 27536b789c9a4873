/**
 From a question and a date to the text of a hexagram. The hash, the
 rendering of the date and the random generator are foreign code; they are
 parameters here, so every fact below holds whatever they compute.
 */
module Casting {
  import opened Lines
  import Thrower
  import Encoding

  /** A calendar date with no time of day. */
  datatype Date = Date(year: int, month: nat, day: nat)

  /** The query a hexagram is cast for: the prompt as its UTF-8 bytes, and
      the date it is cast as of. */
  datatype Params = Params(prompt: seq<u8>, asof: Date)

  /** A 32-byte SHA-256 digest, the seed of the generator. */
  type Digest = d: seq<u8> | |d| == 32
    witness [0, 0, 0, 0, 0, 0, 0, 0, 0, 0, 0, 0, 0, 0, 0, 0,
             0, 0, 0, 0, 0, 0, 0, 0, 0, 0, 0, 0, 0, 0, 0, 0]

  /** The foreign collaborators of casting: SHA-256 of a byte string, the
      text a date is displayed as (its bytes), and the generator seeded with
      a digest, given as the unending sequence of its fair coin draws. */
  datatype Primitives = Primitives(
    sha256: seq<u8> -> Digest,
    showDate: Date -> seq<u8>,
    generator: Digest -> (nat -> bool))

  /** The bytes fed to the hash, in order: the prompt, then the date's text. */
  function HashInput(prims: Primitives, p: Params): (bytes: seq<u8>)
    ensures |bytes| == |p.prompt| + |prims.showDate(p.asof)|
    ensures bytes[..|p.prompt|] == p.prompt
    ensures bytes[|p.prompt|..] == prims.showDate(p.asof)
  {
    p.prompt + prims.showDate(p.asof)
  }

  /** A SHA-256 hasher part-way through its input: the bytes fed so far. */
  datatype Hasher = Hasher(fed: seq<u8>)

  /** A hasher that has been fed nothing. */
  function NewHasher(): Hasher
  {
    Hasher([])
  }

  /** Feeds more bytes to a hasher. */
  function Update(h: Hasher, bytes: seq<u8>): Hasher
  {
    Hasher(h.fed + bytes)
  }

  /** The digest of everything a hasher was fed. */
  function Finalize(prims: Primitives, h: Hasher): Digest
  {
    prims.sha256(h.fed)
  }

  /** The seed of a cast: a fresh hasher fed the prompt and then the date's
      text, finalized. Feeding the two in turn is hashing the hash input in
      one go. */
  function Seed(prims: Primitives, p: Params): (d: Digest)
    ensures d == prims.sha256(HashInput(prims, p))
  {
    var h := Update(Update(NewHasher(), p.prompt), prims.showDate(p.asof));
    assert h.fed == [] + p.prompt + prims.showDate(p.asof) == HashInput(prims, p);
    Finalize(prims, h)
  }

  /** A thrower: its generator, and how many draws have been taken from it. */
  datatype ThrowerState = ThrowerState(rng: nat -> bool, drawn: nat)

  /** A fresh thrower for the query: the generator seeded with the SHA-256
      digest of the query's hash input, with nothing drawn from it yet. */
  function NewThrower(prims: Primitives, p: Params): (t: ThrowerState)
    ensures t.drawn == 0
    ensures t.rng == prims.generator(prims.sha256(HashInput(prims, p)))
  {
    ThrowerState(prims.generator(Seed(prims, p)), 0)
  }

  /** The next `n` draws of a thrower. */
  function Draws(t: ThrowerState, n: nat): (s: seq<bool>)
    ensures |s| == n
    ensures forall i :: 0 <= i < n ==> s[i] == t.rng(t.drawn + i)
  {
    seq(n, i requires 0 <= i => t.rng(t.drawn + i))
  }

  /** The hexagram cast for a query: six lines from a fresh thrower, line
      `i` being the one whose number is the total of coins 3i, 3i+1, 3i+2. */
  function Cast(prims: Primitives, p: Params): (h: Hexagram)
    ensures forall i :: 0 <= i < 6 ==>
      Code(h[i]) as int == Thrower.Coin(NewThrower(prims, p).rng(3 * i)) as int
        + Thrower.Coin(NewThrower(prims, p).rng(3 * i + 1)) as int
        + Thrower.Coin(NewThrower(prims, p).rng(3 * i + 2)) as int
  {
    var draws := Draws(NewThrower(prims, p), 18);
    Thrower.Throws(draws, 6).0
  }

  /** The text shown for a query: the hexagram's six glyphs, one per line. */
  function CastText(prims: Primitives, p: Params): (text: string)
    ensures |text| == 71
    ensures Encoding.Parse(text) == Some(Cast(prims, p))
  {
    Encoding.ParseFormat(Cast(prims, p));
    Encoding.Format(Cast(prims, p))
  }

  /** Two queries whose hash inputs are equal get the same hexagram and the
      same text: the cast depends on the query through those bytes alone, so
      in particular equal queries always agree. */
  lemma Deterministic(prims: Primitives, p1: Params, p2: Params)
    requires HashInput(prims, p1) == HashInput(prims, p2)
    ensures Cast(prims, p1) == Cast(prims, p2)
    ensures CastText(prims, p1) == CastText(prims, p2)
  {
  }

  /** Two queries with the same text differ in neither hexagram: the text
      shown for a query identifies the hexagram cast for it. */
  lemma TextIdentifiesCast(prims: Primitives, p1: Params, p2: Params)
    ensures CastText(prims, p1) == CastText(prims, p2) <==> Cast(prims, p1) == Cast(prims, p2)
  {
    Encoding.FormatInjective(Cast(prims, p1), Cast(prims, p2));
  }

  /** The prompt and the date's text are fed back to back with no separator,
      so a prompt that ends with a prefix of another date's text can give the
      same seed as a different query: moving `t` from the front of one date's
      text to the end of the prompt leaves the hash input unchanged. */
  lemma ConcatenatedFeed(prims: Primitives, prompt: seq<u8>, t: seq<u8>, d1: Date, d2: Date)
    requires prims.showDate(d2) == t + prims.showDate(d1)
    ensures HashInput(prims, Params(prompt + t, d1)) == HashInput(prims, Params(prompt, d2))
    ensures Cast(prims, Params(prompt + t, d1)) == Cast(prims, Params(prompt, d2))
  {
    assert (prompt + t) + prims.showDate(d1) == prompt + (t + prims.showDate(d1));
  }
}
