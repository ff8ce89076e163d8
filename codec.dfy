/** The primitive field codec of the RSF wire format: the 4-byte unsigned
    length field, strings, fixed-width strings and booleans, each with its
    encoder and its position-aware decoder over an in-memory byte stream.
    Decoders take the stream and an absolute offset and return the decoded
    value together with the offset just past it. */
module Codec {

  /** One byte of the stream. */
  newtype byte = x: int | 0 <= x < 256

  /** Every length and count field is a 4-byte unsigned integer. */
  const U32_BOUND: nat := 0x1_0000_0000

  /** The failures a read can report. `EOF` is a read that found no byte at
      all; `UnexpectedEOF` a read that found some but not all of the bytes it
      needed; `SeekError` an offset outside the stream; `NegativeCount` a
      discard of a negative number of bytes. */
  datatype Error = EOF | UnexpectedEOF | SeekError | NegativeCount

  datatype Result<T> = Ok(value: T) | Err(error: Error)

  /** A decoded value and the absolute offset of the first byte after it. */
  datatype Decoded<T> = Decoded(value: T, next: nat)

  /** 256 to the power `k`: the number of values `k` bytes can hold. */
  function Pow256(k: nat): (p: nat)
    ensures p >= 1
  {
    if k == 0 then 1 else 0x100 * Pow256(k - 1)
  }

  /** The `k` low-order bytes of `n`, most significant first. */
  function BigEndian(n: nat, k: nat): (b: seq<byte>)
    ensures |b| == k
  {
    if k == 0 then [] else BigEndian(n / 0x100, k - 1) + [(n % 0x100) as byte]
  }

  /** The number whose big-endian bytes are `b`. */
  function FromBigEndian(b: seq<byte>): (n: nat)
    ensures n < Pow256(|b|)
  {
    if b == [] then 0 else FromBigEndian(b[..|b| - 1]) * 0x100 + b[|b| - 1] as int
  }

  /** Every length and count field: 4 bytes, big-endian. */
  function EncU32(n: nat): (b: seq<byte>)
    requires n < U32_BOUND
    ensures |b| == 4
  {
    BigEndian(n, 4)
  }

  function DecU32(b: seq<byte>): (n: nat)
    requires |b| == 4
    ensures n < U32_BOUND
  {
    assert Pow256(4) == U32_BOUND;
    FromBigEndian(b)
  }

  /** Division by 256 with a known quotient and remainder. */
  lemma {:induction false} DivBy(n: int, q: int, r: int)
    requires 0 <= r < 0x100 && n == q * 0x100 + r
    ensures n / 0x100 == q && n % 0x100 == r
  {
  }

  /** Decoding the `k` bytes of a number below 256^k gives the number back. */
  lemma {:induction false} BigEndianRoundTrip(n: nat, k: nat)
    requires n < Pow256(k)
    ensures FromBigEndian(BigEndian(n, k)) == n
  {
    if k > 0 {
      var q, r := n / 0x100, n % 0x100;
      var b := BigEndian(n, k);
      assert b == BigEndian(q, k - 1) + [r as byte];
      assert b[..k - 1] == BigEndian(q, k - 1) && b[k - 1] as int == r;
      QuotientBelow(n, Pow256(k - 1));
      BigEndianRoundTrip(q, k - 1);
      assert n == q * 0x100 + r;
    }
  }

  /** A number below 256 * p has a quotient by 256 below p. */
  lemma {:induction false} QuotientBelow(n: nat, p: nat)
    requires n < 0x100 * p
    ensures n / 0x100 < p
  {
  }

  /** Encoding a decoded byte sequence gives the same bytes back. */
  lemma {:induction false} BigEndianCanonical(b: seq<byte>)
    ensures BigEndian(FromBigEndian(b), |b|) == b
  {
    if b != [] {
      var front, last := b[..|b| - 1], b[|b| - 1];
      DivBy(FromBigEndian(b), FromBigEndian(front), last as int);
      BigEndianCanonical(front);
      assert b == front + [last];
    }
  }

  lemma {:induction false} U32RoundTrip(n: nat)
    requires n < U32_BOUND
    ensures DecU32(EncU32(n)) == n
  {
    assert Pow256(4) == U32_BOUND;
    BigEndianRoundTrip(n, 4);
  }

  lemma {:induction false} U32Canonical(b: seq<byte>)
    requires |b| == 4
    ensures EncU32(DecU32(b)) == b
  {
    BigEndianCanonical(b);
  }

  /** A string field: a 4-byte length that does not count itself, then the bytes. */
  function EncString(s: seq<byte>): (b: seq<byte>)
    requires |s| < U32_BOUND
    ensures |b| == 4 + |s|
  {
    EncU32(|s|) + s
  }

  /** A boolean field: one byte, 1 for true and 0 for false. */
  function EncBool(v: bool): (b: seq<byte>)
    ensures |b| == 1
  {
    [if v then 1 else 0]
  }

  /** Reading `n` bytes at offset `at`, with the outcomes of Go's io.ReadFull:
      all of them, nothing left at all (EOF), or only some (UnexpectedEOF). */
  function Take(d: seq<byte>, at: nat, n: nat): (r: Result<seq<byte>>)
    ensures r.Ok? <==> at + n <= |d|
    ensures r.Ok? ==> |r.value| == n && r.value == d[at..at + n]
    ensures r.Err? ==> (r.error == EOF <==> |d| <= at) && (r.error == EOF || r.error == UnexpectedEOF)
  {
    if at + n <= |d| then Ok(d[at..at + n])
    else if |d| <= at then Err(EOF)
    else Err(UnexpectedEOF)
  }

  /** A 4-byte length or count field at offset `at`. */
  function DecSize(d: seq<byte>, at: nat): (r: Result<Decoded<nat>>)
    ensures r.Ok? <==> at + 4 <= |d|
    ensures r.Ok? ==> r.value.next == at + 4 && r.value.value == DecU32(d[at..at + 4])
    ensures r.Err? ==> (r.error == EOF <==> |d| <= at) && (r.error == EOF || r.error == UnexpectedEOF)
  {
    match Take(d, at, 4)
    case Err(e) => Err(e)
    case Ok(b) =>
      Ok(Decoded(DecU32(b), at + 4))
  }

  /** A string field at offset `at`: its length, then that many bytes. A stream
      that ends inside the bytes gives the error of the short read. */
  function DecString(d: seq<byte>, at: nat): (r: Result<Decoded<seq<byte>>>)
    ensures r.Ok? ==> r.value.next == at + 4 + |r.value.value| <= |d|
                      && |r.value.value| == DecU32(d[at..at + 4])
                      && r.value.value == d[at + 4..r.value.next]
    ensures at + 4 <= |d| ==> (r.Ok? <==> at + 4 + DecU32(d[at..at + 4]) <= |d|)
    ensures at + 4 > |d| ==> r.Err? && (r.error == EOF <==> |d| <= at)
    ensures r.Err? ==> r.error == EOF || r.error == UnexpectedEOF
  {
    match DecSize(d, at)
    case Err(e) => Err(e)
    case Ok(Decoded(n, p)) =>
      match Take(d, p, n)
      case Err(e) => Err(e)
      case Ok(s) =>
        Ok(Decoded(s, p + n))
  }

  /** A fixed-width string field of `w` bytes; it has no length prefix. */
  function DecFixed(d: seq<byte>, at: nat, w: nat): (r: Result<Decoded<seq<byte>>>)
    ensures r.Ok? <==> at + w <= |d|
    ensures r.Ok? ==> |r.value.value| == w && r.value.next == at + w
                      && d[at..r.value.next] == r.value.value
    ensures r.Err? ==> (r.error == EOF <==> |d| <= at) && (r.error == EOF || r.error == UnexpectedEOF)
  {
    match Take(d, at, w)
    case Err(e) => Err(e)
    case Ok(s) => Ok(Decoded(s, at + w))
  }

  /** A boolean field: one byte, any byte other than 0 reads as true. */
  function DecBool(d: seq<byte>, at: nat): (r: Result<Decoded<bool>>)
    ensures r.Ok? <==> at < |d|
    ensures r.Ok? ==> r.value.next == at + 1 && (r.value.value <==> d[at] != 0)
    ensures r.Err? ==> r.error == EOF
  {
    match Take(d, at, 1)
    case Err(e) => Err(e)
    case Ok(b) => Ok(Decoded(b[0] != 0, at + 1))
  }

  /** Skipping `n` bytes without reading them, as bufio's Discard does: a stream
      with fewer than `n` bytes left is an EOF. */
  function Skip(d: seq<byte>, at: nat, n: nat): (r: Result<nat>)
    ensures r.Ok? <==> at + n <= |d|
    ensures r.Ok? ==> r.value == at + n
    ensures r.Err? ==> r.error == EOF
  {
    if at + n <= |d| then Ok(at + n) else Err(EOF)
  }

  /** A size field that decodes is the encoding of the value it decodes to. */
  lemma {:induction false} SizeCanonical(d: seq<byte>, at: nat)
    requires DecSize(d, at).Ok?
    ensures DecSize(d, at).value.value < U32_BOUND
    ensures d[at..at + 4] == EncU32(DecSize(d, at).value.value)
  {
    U32Canonical(d[at..at + 4]);
  }

  /** A string field that decodes is the encoding of the string it decodes to,
      and nothing more: the bytes from `at` to the offset after it. */
  lemma {:induction false} StringCanonical(d: seq<byte>, at: nat)
    requires DecString(d, at).Ok?
    ensures |DecString(d, at).value.value| < U32_BOUND
    ensures d[at..DecString(d, at).value.next] == EncString(DecString(d, at).value.value)
  {
    var s, next := DecString(d, at).value.value, DecString(d, at).value.next;
    U32Canonical(d[at..at + 4]);
    assert d[at..next] == d[at..at + 4] + d[at + 4..next];
  }

  /** `m` sits between `p` and `q` in `p + m + q`. */
  lemma {:induction false} Middle(p: seq<byte>, m: seq<byte>, q: seq<byte>)
    ensures (p + m + q)[|p|..|p| + |m|] == m
  {
  }

  /** The encoding of `n` at offset `at` decodes to `n`. */
  lemma {:induction false} SizeAt(d: seq<byte>, at: nat, n: nat)
    requires n < U32_BOUND && at + 4 <= |d| && d[at..at + 4] == EncU32(n)
    ensures DecSize(d, at) == Ok(Decoded(n, at + 4))
  {
    U32RoundTrip(n);
  }

  /** The encoding of `s` at offset `at` decodes to `s`. */
  lemma {:induction false} StringAt(d: seq<byte>, at: nat, s: seq<byte>)
    requires |s| < U32_BOUND && at + 4 + |s| <= |d| && d[at..at + 4 + |s|] == EncString(s)
    ensures DecString(d, at) == Ok(Decoded(s, at + 4 + |s|))
  {
    var e := EncString(s);
    assert d[at..at + 4] == e[..4] == EncU32(|s|);
    SizeAt(d, at, |s|);
    assert d[at + 4..at + 4 + |s|] == e[4..] == s;
  }

  lemma {:induction false} FixedAt(d: seq<byte>, at: nat, s: seq<byte>)
    requires at + |s| <= |d| && d[at..at + |s|] == s
    ensures DecFixed(d, at, |s|) == Ok(Decoded(s, at + |s|))
  {
  }

  lemma {:induction false} BoolAt(d: seq<byte>, at: nat, v: bool)
    requires at < |d| && d[at] == EncBool(v)[0]
    ensures DecBool(d, at) == Ok(Decoded(v, at + 1))
  {
  }

  /** Round trip: a size field decodes, wherever it sits, to what was encoded. */
  lemma {:induction false} SizeRoundTrip(p: seq<byte>, n: nat, q: seq<byte>)
    requires n < U32_BOUND
    ensures DecSize(p + EncU32(n) + q, |p|) == Ok(Decoded(n, |p| + 4))
  {
    Middle(p, EncU32(n), q);
    SizeAt(p + EncU32(n) + q, |p|, n);
  }

  lemma {:induction false} StringRoundTrip(p: seq<byte>, s: seq<byte>, q: seq<byte>)
    requires |s| < U32_BOUND
    ensures DecString(p + EncString(s) + q, |p|) == Ok(Decoded(s, |p| + 4 + |s|))
  {
    Middle(p, EncString(s), q);
    StringAt(p + EncString(s) + q, |p|, s);
  }

  lemma {:induction false} FixedRoundTrip(p: seq<byte>, s: seq<byte>, q: seq<byte>)
    ensures DecFixed(p + s + q, |p|, |s|) == Ok(Decoded(s, |p| + |s|))
  {
    Middle(p, s, q);
    FixedAt(p + s + q, |p|, s);
  }

  lemma {:induction false} BoolRoundTrip(p: seq<byte>, v: bool, q: seq<byte>)
    ensures DecBool(p + EncBool(v) + q, |p|) == Ok(Decoded(v, |p| + 1))
  {
    assert (p + EncBool(v) + q)[|p|] == EncBool(v)[0];
  }
}
