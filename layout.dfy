/** Block layout of the RSF wire format. Container blocks (the schema block,
    a data block, an array) carry a self-inclusive 4-byte length; an array
    holds its element count, one index entry per element (the fixed-width
    index key and the element's exclusive payload length) and then the
    element payloads, in element order. */
module Layout {
  import opened Codec

  /** A container block: its length counts its own 4 bytes and the content. */
  function EncContainer(content: seq<byte>): (b: seq<byte>)
    requires 4 + |content| < U32_BOUND
    ensures |b| == 4 + |content|
  {
    EncU32(4 + |content|) + content
  }

  /** One array element as it is laid out: its index key (a fixed-width
      string) and its payload (the element's non-skip fields, encoded). */
  datatype Element = Element(key: seq<byte>, payload: seq<byte>)

  /** What the index section says of one element. */
  datatype IndexEntry = IndexEntry(key: seq<byte>, size: nat)

  /** Every key has the width `w` and every payload length fits its field. */
  predicate Keyed(w: nat, els: seq<Element>)
    decreases |els|
  {
    els == [] || (|els[0].key| == w && |els[0].payload| < U32_BOUND && Keyed(w, els[1..]))
  }

  /** The index section: one (key, exclusive length) entry per element. */
  function EncIndex(w: nat, els: seq<Element>): seq<byte>
    requires Keyed(w, els)
  {
    if els == [] then []
    else els[0].key + EncU32(|els[0].payload|) + EncIndex(w, els[1..])
  }

  /** The element payloads, concatenated in element order. */
  function Payloads(els: seq<Element>): seq<byte>
  {
    if els == [] then [] else els[0].payload + Payloads(els[1..])
  }

  /** The index entries that describe `els`. */
  function Entries(els: seq<Element>): (es: seq<IndexEntry>)
    ensures |es| == |els|
  {
    if els == [] then [] else [IndexEntry(els[0].key, |els[0].payload|)] + Entries(els[1..])
  }

  /** The sum of the sizes recorded in the first `j` index entries. */
  function Before(es: seq<IndexEntry>, j: nat): nat
    requires j <= |es|
  {
    if j == 0 then 0 else Before(es, j - 1) + es[j - 1].size
  }

  predicate ArrayFits(w: nat, els: seq<Element>)
  {
    Keyed(w, els) && |els| < U32_BOUND && 8 + |EncIndex(w, els)| + |Payloads(els)| < U32_BOUND
  }

  /** The content of an array block: the count, the index, the payloads. */
  function ArrayContent(w: nat, els: seq<Element>): (c: seq<byte>)
    requires ArrayFits(w, els)
    ensures |c| == 4 + |EncIndex(w, els)| + |Payloads(els)|
  {
    EncU32(|els|) + EncIndex(w, els) + Payloads(els)
  }

  /** An array block of elements keyed by `w`-byte index keys. */
  function EncArray(w: nat, els: seq<Element>): (b: seq<byte>)
    requires ArrayFits(w, els)
    ensures |b| == 8 + |EncIndex(w, els)| + |Payloads(els)|
  {
    EncContainer(ArrayContent(w, els))
  }

  /** One index entry at offset `at`: a `w`-byte key, then a size field. */
  function DecEntry(d: seq<byte>, at: nat, w: nat): (r: Result<Decoded<IndexEntry>>)
    ensures r.Ok? <==> at + w + 4 <= |d|
    ensures r.Ok? ==> r.value.next == at + w + 4 && r.value.value.key == d[at..at + w]
  {
    match DecFixed(d, at, w)
    case Err(e) => Err(e)
    case Ok(Decoded(key, p)) =>
      match DecSize(d, p)
      case Err(e) => Err(e)
      case Ok(Decoded(n, p')) => Ok(Decoded(IndexEntry(key, n), p'))
  }

  /** Reading `k` index entries of key width `w` from offset `at`. */
  function DecIndex(d: seq<byte>, at: nat, w: nat, k: nat): (r: Result<Decoded<seq<IndexEntry>>>)
    ensures r.Ok? ==> |r.value.value| == k && at <= r.value.next && (k > 0 ==> r.value.next <= |d|)
    ensures r.Ok? ==> r.value.next == at + k * (w + 4)
    decreases k
  {
    if k == 0 then Ok(Decoded([], at))
    else
      match DecEntry(d, at, w)
      case Err(e) => Err(e)
      case Ok(Decoded(entry, p)) =>
        match DecIndex(d, p, w, k - 1)
        case Err(e) => Err(e)
        case Ok(Decoded(rest, p')) => Ok(Decoded([entry] + rest, p'))
  }

  /** A piece known to sit at offset `at` gives every slice of it. */
  lemma {:induction false} Sub(d: seq<byte>, at: nat, m: seq<byte>, i: nat, j: nat)
    requires at + |m| <= |d| && d[at..at + |m|] == m && i <= j <= |m|
    ensures d[at + i..at + j] == m[i..j]
  {
    forall k | 0 <= k < j - i
      ensures d[at + i..at + j][k] == m[i..j][k]
    {
      assert d[at + i..at + j][k] == d[at..at + |m|][i + k];
    }
  }

  /** The two halves of a piece known to sit at offset `at`. */
  lemma {:induction false} Halves(d: seq<byte>, at: nat, a: seq<byte>, b: seq<byte>)
    requires at + |a + b| <= |d| && d[at..at + |a + b|] == a + b
    ensures d[at..at + |a|] == a
    ensures d[at + |a|..at + |a| + |b|] == b
  {
    Sub(d, at, a + b, 0, |a|);
    assert (a + b)[0..|a|] == a;
    Sub(d, at, a + b, |a|, |a + b|);
    assert (a + b)[|a|..|a + b|] == b;
  }

  /** The three parts of a piece known to sit at offset `at`. */
  lemma {:induction false} Parts(d: seq<byte>, at: nat, a: seq<byte>, b: seq<byte>, c: seq<byte>)
    requires at + |a + b + c| <= |d| && d[at..at + |a + b + c|] == a + b + c
    ensures d[at..at + |a|] == a
    ensures d[at + |a|..at + |a| + |b|] == b
    ensures d[at + |a| + |b|..at + |a| + |b| + |c|] == c
  {
    Halves(d, at, a + b, c);
    Halves(d, at, a, b);
  }

  /** A container at offset `at`: its length field reads its whole length,
      and its content follows the field. */
  lemma {:induction false} ContainerAt(d: seq<byte>, at: nat, c: seq<byte>)
    requires 4 + |c| < U32_BOUND
    requires at + 4 + |c| <= |d| && d[at..at + 4 + |c|] == EncContainer(c)
    ensures DecSize(d, at) == Ok(Decoded(4 + |c|, at + 4))
    ensures Skip(d, at + 4, 4 + |c| - 4) == Ok(at + 4 + |c|)
    ensures d[at + 4..at + 4 + |c|] == c
  {
    Halves(d, at, EncU32(4 + |c|), c);
    SizeAt(d, at, 4 + |c|);
  }

  /** Self-inclusive length: reading the length L of a container at offset
      |p| and discarding L - 4 further bytes lands on the first byte after it. */
  lemma {:induction false} ContainerSkip(p: seq<byte>, c: seq<byte>, q: seq<byte>)
    requires 4 + |c| < U32_BOUND
    ensures DecSize(p + EncContainer(c) + q, |p|) == Ok(Decoded(|EncContainer(c)|, |p| + 4))
    ensures Skip(p + EncContainer(c) + q, |p| + 4, |EncContainer(c)| - 4)
            == Ok(|p| + |EncContainer(c)|)
  {
    Middle(p, EncContainer(c), q);
    ContainerAt(p + EncContainer(c) + q, |p|, c);
  }

  /** An entry whose key and size sit at offset `at` reads back. */
  lemma {:induction false} EntryAt(d: seq<byte>, at: nat, key: seq<byte>, n: nat)
    requires n < U32_BOUND && at + |key| + 4 <= |d|
    requires d[at..at + |key|] == key && d[at + |key|..at + |key| + 4] == EncU32(n)
    ensures DecEntry(d, at, |key|) == Ok(Decoded(IndexEntry(key, n), at + |key| + 4))
  {
    FixedAt(d, at, key);
    SizeAt(d, at + |key|, n);
  }

  /** A decoded entry is its key field followed by its size field. */
  lemma {:induction false} EntryParts(d: seq<byte>, at: nat, w: nat, e: IndexEntry, next: nat)
    requires DecEntry(d, at, w) == Ok(Decoded(e, next))
    ensures DecFixed(d, at, w) == Ok(Decoded(e.key, at + w))
    ensures next == at + w + 4 && DecSize(d, at + w) == Ok(Decoded(e.size, next))
  {
  }

  /** One step of DecIndex: an entry followed by k more. */
  lemma {:induction false} IndexStep(d: seq<byte>, at: nat, w: nat, k: nat, entry: IndexEntry,
                  rest: seq<IndexEntry>, end: nat)
    requires DecEntry(d, at, w) == Ok(Decoded(entry, at + w + 4))
    requires DecIndex(d, at + w + 4, w, k) == Ok(Decoded(rest, end))
    ensures DecIndex(d, at, w, k + 1) == Ok(Decoded([entry] + rest, end))
  {
  }

  /** The first of k + 1 decoded entries, and the k that follow it. */
  lemma {:induction false} IndexFirst(d: seq<byte>, at: nat, w: nat, k: nat, es: seq<IndexEntry>, end: nat)
    requires DecIndex(d, at, w, k + 1) == Ok(Decoded(es, end))
    ensures DecEntry(d, at, w).Ok? && es != [] && es[0] == DecEntry(d, at, w).value.value
    ensures DecIndex(d, DecEntry(d, at, w).value.next, w, k) == Ok(Decoded(es[1..], end))
  {
    var p := DecEntry(d, at, w).value.next;
    var rest := DecIndex(d, p, w, k).value.value;
    assert es == [es[0]] + rest;
  }

  /** Every entry of `es` sits in `d` from offset `at` on, one after another:
      its `w`-byte key, then its size field. */
  predicate Placed(d: seq<byte>, at: nat, w: nat, es: seq<IndexEntry>)
    decreases |es|
  {
    es == [] ||
    (|es[0].key| == w && es[0].size < U32_BOUND && at + w + 4 <= |d|
     && d[at..at + w] == es[0].key && d[at + w..at + w + 4] == EncU32(es[0].size)
     && Placed(d, at + w + 4, w, es[1..]))
  }

  /** Entries placed from `at` read back, in order, w + 4 bytes each. */
  lemma {:induction false} PlacedAt(d: seq<byte>, at: nat, w: nat, es: seq<IndexEntry>)
    requires Placed(d, at, w, es)
    ensures DecIndex(d, at, w, |es|) == Ok(Decoded(es, at + |es| * (w + 4)))
    decreases |es|
  {
    if es != [] {
      var e, tl := es[0], es[1..];
      EntryAt(d, at, e.key, e.size);
      PlacedAt(d, at + w + 4, w, tl);
      assert at + w + 4 + |tl| * (w + 4) == at + |es| * (w + 4);
      IndexStep(d, at, w, |tl|, e, tl, at + |es| * (w + 4));
      assert [e] + tl == es;
    }
  }

  /** The index section of `els` at offset `at` places their entries. */
  lemma {:induction false} IndexPlaced(d: seq<byte>, at: nat, w: nat, els: seq<Element>)
    requires Keyed(w, els)
    requires at + |EncIndex(w, els)| <= |d| && d[at..at + |EncIndex(w, els)|] == EncIndex(w, els)
    ensures Placed(d, at, w, Entries(els))
    decreases |els|
  {
    if els != [] {
      var e, tl := els[0], els[1..];
      var key, size := e.key, EncU32(|e.payload|);
      var rest := EncIndex(w, tl);
      assert Keyed(w, tl) && |key| == w;
      assert EncIndex(w, els) == key + size + rest;
      Parts(d, at, key, size, rest);
      IndexPlaced(d, at + w + 4, w, tl);
      var es := Entries(els);
      assert es == [IndexEntry(key, |e.payload|)] + Entries(tl);
      assert es[0] == IndexEntry(key, |e.payload|) && es[1..] == Entries(tl);
    }
  }

  /** The index section of `els` at offset `at` reads back as their entries. */
  lemma {:induction false} IndexAt(d: seq<byte>, at: nat, w: nat, els: seq<Element>)
    requires Keyed(w, els)
    requires at + |EncIndex(w, els)| <= |d| && d[at..at + |EncIndex(w, els)|] == EncIndex(w, els)
    ensures DecIndex(d, at, w, |els|) == Ok(Decoded(Entries(els), at + |EncIndex(w, els)|))
  {
    IndexPlaced(d, at, w, els);
    PlacedAt(d, at, w, Entries(els));
    IndexLength(w, els);
  }

  /** Each index entry takes w + 4 bytes. */
  lemma {:induction false} IndexLength(w: nat, els: seq<Element>)
    requires Keyed(w, els)
    ensures |EncIndex(w, els)| == |els| * (w + 4)
    decreases |els|
  {
    if els != [] {
      IndexLength(w, els[1..]);
      assert |els| * (w + 4) == (w + 4) + (|els| - 1) * (w + 4);
    }
  }

  /** Reading the index section back gives one entry per element, in order,
      with the element's key and its exclusive payload length, and ends
      |els| * (w + 4) bytes further on. */
  lemma {:induction false} IndexRoundTrip(p: seq<byte>, w: nat, els: seq<Element>, q: seq<byte>)
    requires Keyed(w, els)
    ensures DecIndex(p + EncIndex(w, els) + q, |p|, w, |els|)
            == Ok(Decoded(Entries(els), |p| + |els| * (w + 4)))
  {
    Middle(p, EncIndex(w, els), q);
    IndexAt(p + EncIndex(w, els) + q, |p|, w, els);
    IndexLength(w, els);
  }

  /** Entry i of the index describes element i. */
  lemma {:induction false} EntryOf(els: seq<Element>, i: nat)
    requires i < |els|
    ensures Entries(els)[i] == IndexEntry(els[i].key, |els[i].payload|)
    decreases i
  {
    if i > 0 {
      EntryOf(els[1..], i - 1);
    }
  }

  lemma {:induction false} PayloadsAppend(a: seq<Element>, b: seq<Element>)
    ensures Payloads(a + b) == Payloads(a) + Payloads(b)
    decreases |a|
  {
    if a == [] {
      assert a + b == b;
    } else {
      assert (a + b)[0] == a[0] && (a + b)[1..] == a[1..] + b;
      PayloadsAppend(a[1..], b);
    }
  }

  /** Exclusive element lengths: the first j payloads take exactly the sum of
      the first j recorded sizes. */
  lemma {:induction false} BeforePayloads(els: seq<Element>, j: nat)
    requires j <= |els|
    ensures Before(Entries(els), j) == |Payloads(els[..j])|
    decreases j
  {
    if j > 0 {
      var e := els[j - 1];
      BeforePayloads(els, j - 1);
      assert els[..j] == els[..j - 1] + [e];
      PayloadsAppend(els[..j - 1], [e]);
      assert [e][1..] == [];
      EntryOf(els, j - 1);
    }
  }

  /** The sizes in the index add up to the payloads' total length. */
  lemma {:induction false} SizesTotal(els: seq<Element>)
    ensures Before(Entries(els), |els|) == |Payloads(els)|
  {
    BeforePayloads(els, |els|);
    assert els[..|els|] == els;
  }

  /** Element j's payload starts after the first j recorded sizes. */
  lemma {:induction false} ElementAt(els: seq<Element>, j: nat)
    requires j < |els|
    ensures Before(Entries(els), j) + |els[j].payload| <= |Payloads(els)|
    ensures Payloads(els)[Before(Entries(els), j)..Before(Entries(els), j) + |els[j].payload|]
            == els[j].payload
  {
    var e, rest := els[j], els[j + 1..];
    assert els == els[..j] + ([e] + rest);
    PayloadsAppend(els[..j], [e] + rest);
    assert ([e] + rest)[0] == e && ([e] + rest)[1..] == rest;
    BeforePayloads(els, j);
    var front, here := Payloads(els[..j]), e.payload;
    assert Payloads(els) == front + (here + Payloads(rest));
    assert (front + (here + Payloads(rest)))[|front|..|front| + |here|] == here;
  }

  /** The array block's length is the size field, the count field, k index
      entries of w + 4 bytes and the recorded sizes. */
  lemma {:induction false} ArrayLength(w: nat, els: seq<Element>)
    requires ArrayFits(w, els)
    ensures |EncArray(w, els)| == 8 + |els| * (w + 4) + Before(Entries(els), |els|)
  {
    SizesTotal(els);
    IndexLength(w, els);
  }

  /** An array's content at offset `at` reads back: its count, then its index. */
  lemma {:induction false} ContentAt(d: seq<byte>, at: nat, w: nat, els: seq<Element>)
    requires ArrayFits(w, els)
    requires at + |ArrayContent(w, els)| <= |d| && d[at..at + |ArrayContent(w, els)|] == ArrayContent(w, els)
    ensures DecSize(d, at) == Ok(Decoded(|els|, at + 4))
    ensures DecIndex(d, at + 4, w, |els|) == Ok(Decoded(Entries(els), at + 4 + |EncIndex(w, els)|))
  {
    var cnt, idx, pay := EncU32(|els|), EncIndex(w, els), Payloads(els);
    Parts(d, at, cnt, idx, pay);
    SizeAt(d, at, |els|);
    IndexAt(d, at + 4, w, els);
  }

  /** An array at offset `at` reads back: its length, its count, its index. */
  lemma {:induction false} ArrayAt(d: seq<byte>, at: nat, w: nat, els: seq<Element>)
    requires ArrayFits(w, els)
    requires at + |EncArray(w, els)| <= |d| && d[at..at + |EncArray(w, els)|] == EncArray(w, els)
    ensures DecSize(d, at) == Ok(Decoded(|EncArray(w, els)|, at + 4))
    ensures DecSize(d, at + 4) == Ok(Decoded(|els|, at + 8))
    ensures DecIndex(d, at + 8, w, |els|) == Ok(Decoded(Entries(els), at + 8 + |EncIndex(w, els)|))
  {
    var c := ArrayContent(w, els);
    assert EncArray(w, els) == EncContainer(c);
    ContainerAt(d, at, c);
    ContentAt(d, at + 4, w, els);
    assert at + 4 + 4 == at + 8;
  }

  /** The payloads of an array at offset `at` follow its index section and
      end where the array ends. */
  lemma {:induction false} PayloadsAt(d: seq<byte>, at: nat, w: nat, els: seq<Element>)
    requires ArrayFits(w, els)
    requires at + |EncArray(w, els)| <= |d| && d[at..at + |EncArray(w, els)|] == EncArray(w, els)
    ensures at + 8 + |EncIndex(w, els)| + |Payloads(els)| == at + |EncArray(w, els)|
    ensures d[at + 8 + |EncIndex(w, els)|..at + 8 + |EncIndex(w, els)| + |Payloads(els)|]
            == Payloads(els)
  {
    var c := ArrayContent(w, els);
    assert EncArray(w, els) == EncContainer(c);
    Halves(d, at, EncU32(4 + |c|), c);
    Parts(d, at + 4, EncU32(|els|), EncIndex(w, els), Payloads(els));
  }

  /** Reading an array block back, wherever it sits. */
  lemma {:induction false} ArrayRoundTrip(p: seq<byte>, w: nat, els: seq<Element>, q: seq<byte>)
    requires ArrayFits(w, els)
    ensures DecSize(p + EncArray(w, els) + q, |p|) == Ok(Decoded(|EncArray(w, els)|, |p| + 4))
    ensures DecSize(p + EncArray(w, els) + q, |p| + 4) == Ok(Decoded(|els|, |p| + 8))
    ensures DecIndex(p + EncArray(w, els) + q, |p| + 8, w, |els|)
            == Ok(Decoded(Entries(els), |p| + 8 + |els| * (w + 4)))
  {
    Middle(p, EncArray(w, els), q);
    ArrayAt(p + EncArray(w, els) + q, |p|, w, els);
    IndexLength(w, els);
  }

  /** The offset of element j's payload in an array block at offset `at`:
      past the length and count fields, the index and the first j payloads.
      Element 0's offset is the end of the index section. */
  function ElementOffset(at: nat, w: nat, els: seq<Element>, j: nat): nat
    requires Keyed(w, els) && j <= |els|
  {
    at + 8 + |EncIndex(w, els)| + Before(Entries(els), j)
  }

  /** Jump to element j of an array at offset `at`: from the end of its index
      section, discarding the sum of the first j recorded sizes lands on
      element j's payload. */
  lemma {:induction false} JumpAt(d: seq<byte>, at: nat, w: nat, els: seq<Element>, j: nat)
    requires ArrayFits(w, els) && j < |els|
    requires at + |EncArray(w, els)| <= |d| && d[at..at + |EncArray(w, els)|] == EncArray(w, els)
    ensures Skip(d, ElementOffset(at, w, els, 0), Before(Entries(els), j))
            == Ok(ElementOffset(at, w, els, j))
    ensures ElementOffset(at, w, els, j) + |els[j].payload| <= |d|
    ensures d[ElementOffset(at, w, els, j)..ElementOffset(at, w, els, j) + |els[j].payload|]
            == els[j].payload
  {
    var start := at + 8 + |EncIndex(w, els)|;
    var before := Before(Entries(els), j);
    PayloadsAt(d, at, w, els);
    ElementAt(els, j);
    Sub(d, start, Payloads(els), before, before + |els[j].payload|);
  }

  lemma {:induction false} JumpToElement(p: seq<byte>, w: nat, els: seq<Element>, q: seq<byte>, j: nat)
    requires ArrayFits(w, els) && j < |els|
    ensures Skip(p + EncArray(w, els) + q, ElementOffset(|p|, w, els, 0), Before(Entries(els), j))
            == Ok(ElementOffset(|p|, w, els, j))
    ensures ElementOffset(|p|, w, els, 0) == |p| + 8 + |els| * (w + 4)
    ensures ElementOffset(|p|, w, els, j) + |els[j].payload| <= |p + EncArray(w, els) + q|
    ensures (p + EncArray(w, els) + q)[ElementOffset(|p|, w, els, j)..
                                       ElementOffset(|p|, w, els, j) + |els[j].payload|]
            == els[j].payload
  {
    Middle(p, EncArray(w, els), q);
    JumpAt(p + EncArray(w, els) + q, |p|, w, els, j);
    IndexLength(w, els);
  }
}
