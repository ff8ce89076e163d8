/** The stream read by the reader's test: a schema block of 93 opaque bytes,
    then the data block of a record
      { company: "posit", ready: true,
        list: [ {date "2020-10-01", name "From 2020", verified false},
                {date "2021-03-21", name "From 2021", verified true},
                {date "2022-12-15", name "this is from 2022", verified true} ]
              indexed by the 10-byte date (which the payloads skip),
        age, rating }
    where age and rating together take 18 opaque bytes. The lemmas place each
    field of any record of that shape at its offset; TestRead drives a Reader
    over the test's own record as the test does and returns what it read. */
module Scenario {
  import opened Codec
  import opened Layout
  import opened Reader

  /** The test's strings as the ASCII bytes a Go string holds. */
  const Posit: seq<byte> := [0x70, 0x6f, 0x73, 0x69, 0x74]  // "posit"
  const Date2020: seq<byte> := [0x32, 0x30, 0x32, 0x30, 0x2d, 0x31, 0x30, 0x2d, 0x30, 0x31]  // "2020-10-01"
  const Date2021: seq<byte> := [0x32, 0x30, 0x32, 0x31, 0x2d, 0x30, 0x33, 0x2d, 0x32, 0x31]  // "2021-03-21"
  const Date2022: seq<byte> := [0x32, 0x30, 0x32, 0x32, 0x2d, 0x31, 0x32, 0x2d, 0x31, 0x35]  // "2022-12-15"
  const Name2020: seq<byte> := [0x46, 0x72, 0x6f, 0x6d, 0x20, 0x32, 0x30, 0x32, 0x30]  // "From 2020"
  const Name2021: seq<byte> := [0x46, 0x72, 0x6f, 0x6d, 0x20, 0x32, 0x30, 0x32, 0x31]  // "From 2021"
  const Name2022: seq<byte> :=  // "this is from 2022"
    [0x74, 0x68, 0x69, 0x73, 0x20, 0x69, 0x73, 0x20, 0x66, 0x72, 0x6f, 0x6d, 0x20, 0x32, 0x30, 0x32, 0x32]

  /** One element of the test's array: its date is the index key, which the
      element's payload skips. */
  datatype Snap = Snap(date: seq<byte>, name: seq<byte>, verified: bool)

  /** The test's record as the layout sees it; age and rating are the
      opaque `tail` bytes. */
  datatype Record = Record(company: seq<byte>, ready: bool, list: seq<Snap>, tail: seq<byte>)

  /** The field sizes of the test's record: a 5-byte company, three elements
      with 10-byte dates and names of 9, 9 and 17 bytes, 18 tail bytes. */
  predicate Shaped(r: Record)
  {
    |r.company| == 5 && |r.tail| == 18 && |r.list| == 3
    && |r.list[0].date| == 10 && |r.list[1].date| == 10 && |r.list[2].date| == 10
    && |r.list[0].name| == 9 && |r.list[1].name| == 9 && |r.list[2].name| == 17
  }

  /** An element's payload: its non-skip fields, name then verified. */
  function Payload(s: Snap): (b: seq<byte>)
    requires |s.name| < U32_BOUND
    ensures |b| == 5 + |s.name|
  {
    EncString(s.name) + EncBool(s.verified)
  }

  /** The array's elements: each keyed by its date, with its payload. */
  function Elements(r: Record): (els: seq<Element>)
    requires Shaped(r)
    ensures |els| == 3 && ArrayFits(10, els)
  {
    var els := [Element(r.list[0].date, Payload(r.list[0])),
                Element(r.list[1].date, Payload(r.list[1])),
                Element(r.list[2].date, Payload(r.list[2]))];
    assert els[1..][1..][1..] == [];
    assert Keyed(10, els[1..][1..]) && Keyed(10, els[1..]);
    assert |Payloads(els[1..][1..])| == 22 && |Payloads(els[1..])| == 36;
    IndexLength(10, els);
    els
  }

  /** The array's index records the payload lengths 14, 14 and 22; its index
      takes 42 bytes and its payloads 50. */
  lemma {:induction false} ElementsFit(r: Record)
    requires Shaped(r)
    ensures ArrayFits(10, Elements(r))
    ensures |EncIndex(10, Elements(r))| == 42 && |Payloads(Elements(r))| == 50
    ensures Entries(Elements(r)) == [IndexEntry(r.list[0].date, 14), IndexEntry(r.list[1].date, 14),
                                     IndexEntry(r.list[2].date, 22)]
  {
    var els := Elements(r);
    var t1 := els[1..];
    var t2 := t1[1..];
    var t3 := t2[1..];
    assert t3 == [];
    assert |Payloads(t2)| == 22 && |Payloads(t1)| == 36 && |Payloads(els)| == 50;
    IndexLength(10, els);
    assert Entries(t2) == [IndexEntry(r.list[2].date, 22)];
    assert Entries(t1) == [IndexEntry(r.list[1].date, 14)] + Entries(t2);
  }

  /** The data block's content: company, ready, the array, the tail. */
  function Content(r: Record): (c: seq<byte>)
    requires Shaped(r)
    ensures |c| == 128
  {
    ElementsFit(r);
    EncString(r.company) + EncBool(r.ready) + EncArray(10, Elements(r)) + r.tail
  }

  /** The whole stream: the schema block, then the data block. */
  function Stream(schema: seq<byte>, r: Record): (d: seq<byte>)
    requires |schema| == 93 && Shaped(r)
    ensures |d| == 229
  {
    EncContainer(schema) + EncContainer(Content(r))
  }

  /** Block sizes: schema block 97, data block 132, array 100, whole stream
      229; the array's length is its two fields, three 14-byte index entries
      and the recorded sizes 14 + 14 + 22. */
  lemma {:induction false} Sizes(schema: seq<byte>, r: Record)
    requires |schema| == 93 && Shaped(r)
    ensures |EncContainer(schema)| == 97
    ensures |EncContainer(Content(r))| == 132
    ensures ArrayFits(10, Elements(r)) && |EncArray(10, Elements(r))| == 100
    ensures |EncArray(10, Elements(r))| == 4 + 4 + 3 * (10 + 4) + (14 + 14 + 22)
  {
    ElementsFit(r);
    ArrayLength(10, Elements(r));
  }

  /** Five pieces laid end to end, each at the offset the ones before it end. */
  lemma {:induction false} Split5(d: seq<byte>, a: seq<byte>, b: seq<byte>, c: seq<byte>,
                                  e: seq<byte>, f: seq<byte>)
    requires d == a + b + c + e + f
    ensures d[|a|..|a| + |b|] == b
    ensures d[|a| + |b|..|a| + |b| + |c|] == c
    ensures d[|a| + |b| + |c|..|a| + |b| + |c| + |e|] == e
  {
  }

  lemma {:induction false} Regroup(a: seq<byte>, h: seq<byte>, b: seq<byte>, c: seq<byte>,
                                   e: seq<byte>, f: seq<byte>)
    ensures a + (h + (b + c + e + f)) == a + h + b + c + e + f
  {
  }

  /** The stream field by field: the schema block, the data block's length,
      company, ready, the array, the tail. */
  lemma {:induction false} StreamLayout(schema: seq<byte>, r: Record)
    requires |schema| == 93 && Shaped(r)
    ensures Stream(schema, r) == (EncContainer(schema) + EncU32(132)) + EncString(r.company)
                                 + EncBool(r.ready) + EncArray(10, Elements(r)) + r.tail
  {
    var s, b, arr := EncString(r.company), EncBool(r.ready), EncArray(10, Elements(r));
    assert Content(r) == s + b + arr + r.tail;
    assert EncContainer(Content(r)) == EncU32(132) + Content(r);
    Regroup(EncContainer(schema), EncU32(132), s, b, arr, r.tail);
  }

  /** The two container headers: 97 at 0, then, after discarding 97 - 4
      bytes, 132 at 97. */
  lemma {:induction false} Blocks(schema: seq<byte>, r: Record)
    requires |schema| == 93 && Shaped(r)
    ensures DecSize(Stream(schema, r), 0) == Ok(Decoded(97, 4))
    ensures Skip(Stream(schema, r), 4, 97 - 4) == Ok(97)
    ensures DecSize(Stream(schema, r), 97) == Ok(Decoded(132, 101))
  {
    var d := Stream(schema, r);
    Halves(d, 0, EncContainer(schema), EncContainer(Content(r)));
    ContainerAt(d, 0, schema);
    ContainerAt(d, 97, Content(r));
  }

  /** The record's leading fields and the array header. */
  lemma {:induction false} Leading(schema: seq<byte>, r: Record)
    requires |schema| == 93 && Shaped(r)
    ensures DecString(Stream(schema, r), 101) == Ok(Decoded(r.company, 110))
    ensures DecBool(Stream(schema, r), 110) == Ok(Decoded(r.ready, 111))
    ensures DecSize(Stream(schema, r), 111) == Ok(Decoded(100, 115))
    ensures DecSize(Stream(schema, r), 115) == Ok(Decoded(3, 119))
  {
    var d := Stream(schema, r);
    Sizes(schema, r);
    StreamLayout(schema, r);
    Split5(d, EncContainer(schema) + EncU32(132), EncString(r.company), EncBool(r.ready),
           EncArray(10, Elements(r)), r.tail);
    StringAt(d, 101, r.company);
    BoolAt(d, 110, r.ready);
    ArrayAt(d, 111, 10, Elements(r));
  }

  /** The index section, read back from 119: each date and its element's
      exclusive length, ending at 161 = 119 + 3 * 14. */
  lemma {:induction false} Index(schema: seq<byte>, r: Record)
    requires |schema| == 93 && Shaped(r)
    ensures DecIndex(Stream(schema, r), 119, 10, 3)
            == Ok(Decoded([IndexEntry(r.list[0].date, 14), IndexEntry(r.list[1].date, 14),
                           IndexEntry(r.list[2].date, 22)], 119 + 3 * 14))
  {
    var d := Stream(schema, r);
    Sizes(schema, r);
    ElementsFit(r);
    StreamLayout(schema, r);
    Split5(d, EncContainer(schema) + EncU32(132), EncString(r.company), EncBool(r.ready),
           EncArray(10, Elements(r)), r.tail);
    ArrayAt(d, 111, 10, Elements(r));
  }

  /** The same index section read field by field, as the test reads it. */
  lemma {:induction false} IndexFields(schema: seq<byte>, r: Record)
    requires |schema| == 93 && Shaped(r)
    ensures DecFixed(Stream(schema, r), 119, 10) == Ok(Decoded(r.list[0].date, 129))
    ensures DecSize(Stream(schema, r), 129) == Ok(Decoded(14, 133))
    ensures DecFixed(Stream(schema, r), 133, 10) == Ok(Decoded(r.list[1].date, 143))
    ensures DecSize(Stream(schema, r), 143) == Ok(Decoded(14, 147))
    ensures DecFixed(Stream(schema, r), 147, 10) == Ok(Decoded(r.list[2].date, 157))
    ensures DecSize(Stream(schema, r), 157) == Ok(Decoded(22, 161))
  {
    var d := Stream(schema, r);
    var es := [IndexEntry(r.list[0].date, 14), IndexEntry(r.list[1].date, 14),
               IndexEntry(r.list[2].date, 22)];
    Index(schema, r);
    IndexFirst(d, 119, 10, 2, es, 161);
    EntryParts(d, 119, 10, es[0], 133);
    IndexFirst(d, 133, 10, 1, es[1..], 161);
    EntryParts(d, 133, 10, es[1], 147);
    IndexFirst(d, 147, 10, 0, es[2..], 161);
    EntryParts(d, 147, 10, es[2], 161);
  }

  /** Jumping over the first two payloads (14 + 14 bytes) from the end of the
      index at 161 lands on the third element's payload at 189, which takes
      the 22 bytes up to 211. */
  lemma {:induction false} Jump(schema: seq<byte>, r: Record)
    requires |schema| == 93 && Shaped(r)
    ensures Skip(Stream(schema, r), 161, 14 + 14) == Ok(189)
    ensures Stream(schema, r)[189..211] == Payload(r.list[2])
  {
    var d := Stream(schema, r);
    var els := Elements(r);
    Sizes(schema, r);
    ElementsFit(r);
    StreamLayout(schema, r);
    Split5(d, EncContainer(schema) + EncU32(132), EncString(r.company), EncBool(r.ready),
           EncArray(10, els), r.tail);
    assert Before(Entries(els), 1) == 14;
    assert Before(Entries(els), 2) == 14 + 14;
    JumpAt(d, 111, 10, els, 2);
  }

  /** The third element's name and verified flag read back from 189, ending
      at 211; the 18 opaque bytes then end the stream, where a size read is
      EOF. */
  lemma {:induction false} Third(schema: seq<byte>, r: Record)
    requires |schema| == 93 && Shaped(r)
    ensures DecString(Stream(schema, r), 189) == Ok(Decoded(r.list[2].name, 210))
    ensures DecBool(Stream(schema, r), 210) == Ok(Decoded(r.list[2].verified, 211))
    ensures Skip(Stream(schema, r), 211, 18) == Ok(229)
    ensures DecSize(Stream(schema, r), 229) == Err(EOF)
  {
    var d := Stream(schema, r);
    Jump(schema, r);
    Halves(d, 189, EncString(r.list[2].name), EncBool(r.list[2].verified));
    StringAt(d, 189, r.list[2].name);
    BoolAt(d, 210, r.list[2].verified);
  }

  /** The record the test writes, with age and rating as `tail`. */
  function TestRecord(tail: seq<byte>): (r: Record)
    requires |tail| == 18
    ensures Shaped(r)
  {
    Record(Posit, true,
           [Snap(Date2020, Name2020, false), Snap(Date2021, Name2021, true),
            Snap(Date2022, Name2022, true)],
           tail)
  }

  /** What the test's reading pass finds in a stream `d` holding `rec`: each
      field it reads at the offset it reads it, with the offset after it. */
  predicate TestLayout(d: seq<byte>, rec: Record)
  {
    Shaped(rec) && |d| == 229
    && DecSize(d, 0) == Ok(Decoded(97, 4)) && Skip(d, 4, 97 - 4) == Ok(97)
    && DecSize(d, 97) == Ok(Decoded(132, 101))
    && DecString(d, 101) == Ok(Decoded(rec.company, 110))
    && DecBool(d, 110) == Ok(Decoded(rec.ready, 111))
    && DecSize(d, 111) == Ok(Decoded(100, 115)) && DecSize(d, 115) == Ok(Decoded(3, 119))
    && DecFixed(d, 119, 10) == Ok(Decoded(rec.list[0].date, 129))
    && DecSize(d, 129) == Ok(Decoded(14, 133))
    && DecFixed(d, 133, 10) == Ok(Decoded(rec.list[1].date, 143))
    && DecSize(d, 143) == Ok(Decoded(14, 147))
    && DecFixed(d, 147, 10) == Ok(Decoded(rec.list[2].date, 157))
    && DecSize(d, 157) == Ok(Decoded(22, 161))
    && Skip(d, 161, 14 + 14) == Ok(189)
    && DecString(d, 189) == Ok(Decoded(rec.list[2].name, 210))
    && DecBool(d, 210) == Ok(Decoded(rec.list[2].verified, 211))
    && Skip(d, 211, 18) == Ok(229) && DecSize(d, 229) == Err(EOF)
  }

  /** The stream of any record of the test's shape has the layout the test
      reads. */
  lemma {:induction false} StreamLayoutRead(schema: seq<byte>, rec: Record)
    requires |schema| == 93 && Shaped(rec)
    ensures TestLayout(Stream(schema, rec), rec)
  {
    Blocks(schema, rec);
    Leading(schema, rec);
    IndexFields(schema, rec);
    Jump(schema, rec);
    Third(schema, rec);
  }

  /** The reader and the source of the test's stream, in step at `at`. */
  predicate Reading(rec: Record, r: Reader, buf: Source, at: nat)
    reads r, buf
  {
    TestLayout(buf.data, rec) && buf.cursor == at && r.pos == at
  }

  /** From the start of the stream: the schema block's length and the skip
      over its content, the data block's length, company, ready, and the
      array's length and count. */
  method ReadLeading(rec: Record, r: Reader, buf: Source)
    returns (indexSz: Result<nat>, recordSz: Result<nat>, company: Result<seq<byte>>,
             ready: Result<bool>, arraySz: Result<nat>, arrayLen: Result<nat>,
             skipSchema: Outcome, positions: seq<nat>)
    requires Reading(rec, r, buf, 0)
    modifies r, buf
    ensures Reading(rec, r, buf, 119)
    ensures indexSz == Ok(97) && skipSchema == Done && recordSz == Ok(132)
    ensures company == Ok(rec.company) && ready == Ok(rec.ready)
    ensures arraySz == Ok(100) && arrayLen == Ok(3)
    ensures positions == [4, 101, 110, 111, 115, 119]
  {
    indexSz := r.ReadSizeField(buf);
    var p0 := r.Pos();
    skipSchema := r.Discard(indexSz.value - 4, buf);
    recordSz := r.ReadSizeField(buf);
    var p1 := r.Pos();
    company := r.ReadStringField(buf);
    var p2 := r.Pos();
    ready := r.ReadBoolField(buf);
    var p3 := r.Pos();
    arraySz := r.ReadSizeField(buf);
    var p4 := r.Pos();
    arrayLen := r.ReadSizeField(buf);
    positions := [p0, p1, p2, p3, p4, r.Pos()];
  }

  /** The array's index section: three (date, exclusive length) entries. */
  method ReadIndexSection(rec: Record, r: Reader, buf: Source)
    returns (dates: seq<Result<seq<byte>>>, elSizes: seq<Result<nat>>)
    requires Reading(rec, r, buf, 119)
    modifies r, buf
    ensures Reading(rec, r, buf, 161)
    ensures dates == [Ok(rec.list[0].date), Ok(rec.list[1].date), Ok(rec.list[2].date)]
    ensures elSizes == [Ok(14), Ok(14), Ok(22)]
  {
    var date := r.ReadFixedStringField(10, buf);
    var elSz := r.ReadSizeField(buf);
    dates, elSizes := [date], [elSz];
    date := r.ReadFixedStringField(10, buf);
    elSz := r.ReadSizeField(buf);
    dates, elSizes := dates + [date], elSizes + [elSz];
    date := r.ReadFixedStringField(10, buf);
    elSz := r.ReadSizeField(buf);
    dates, elSizes := dates + [date], elSizes + [elSz];
  }

  /** The jump over the first two payloads to the third element, its name
      and verified flag, then the end of the stream. */
  method ReadThird(rec: Record, r: Reader, buf: Source)
    returns (skipPayloads: Outcome, name: Result<seq<byte>>, verified: Result<bool>,
             skipTail: Outcome, atEnd: Result<nat>, positions: seq<nat>)
    requires Reading(rec, r, buf, 161)
    modifies r, buf
    ensures skipPayloads == Done && skipTail == Done
    ensures name == Ok(rec.list[2].name) && verified == Ok(rec.list[2].verified)
    ensures atEnd == Err(EOF)
    ensures positions == [189, 210, 211]
  {
    skipPayloads := r.Discard(14 + 14, buf);
    var p0 := r.Pos();
    name := r.ReadStringField(buf);
    var p1 := r.Pos();
    verified := r.ReadBoolField(buf);
    positions := [p0, p1, r.Pos()];
    // Stands in for the age and rating reads: their 18 bytes are opaque.
    skipTail := r.Discard(18, buf);
    atEnd := r.ReadSizeField(buf);
  }

  /** The test's reading pass over a stream with the test's layout.
      `positions` lists Pos() after each step in order; after the
      end-of-stream read the same bytes are opened as a second, seekable
      source, the reader seeks to 189 and reads the third name again. */
  method ReadPass(data: seq<byte>, rec: Record)
    returns (indexSz: Result<nat>, recordSz: Result<nat>, company: Result<seq<byte>>,
             ready: Result<bool>, arraySz: Result<nat>, arrayLen: Result<nat>,
             dates: seq<Result<seq<byte>>>, elSizes: seq<Result<nat>>,
             name: Result<seq<byte>>, verified: Result<bool>, atEnd: Result<nat>,
             nameAgain: Result<seq<byte>>, skipSchema: Outcome, skipPayloads: Outcome,
             skipTail: Outcome, seek: Outcome, positions: seq<nat>)
    requires TestLayout(data, rec)
    ensures indexSz == Ok(97) && recordSz == Ok(132)
    ensures company == Ok(rec.company) && ready == Ok(rec.ready)
    ensures arraySz == Ok(100) && arrayLen == Ok(3)
    ensures skipSchema == Done && skipPayloads == Done && skipTail == Done && seek == Done
    ensures dates == [Ok(rec.list[0].date), Ok(rec.list[1].date), Ok(rec.list[2].date)]
    ensures elSizes == [Ok(14), Ok(14), Ok(22)]
    ensures name == Ok(rec.list[2].name) && verified == Ok(rec.list[2].verified)
    ensures atEnd == Err(EOF)
    ensures nameAgain == name
    ensures positions == [4, 101, 110, 111, 115, 119, 161, 189, 210, 211, 189, 210]
  {
    var buf := new Source(data);
    var r := new Reader();
    var leading, third: seq<nat>;

    indexSz, recordSz, company, ready, arraySz, arrayLen, skipSchema, leading :=
      ReadLeading(rec, r, buf);
    dates, elSizes := ReadIndexSection(rec, r, buf);
    var afterIndex := r.Pos();
    skipPayloads, name, verified, skipTail, atEnd, third := ReadThird(rec, r, buf);

    var tmp := new Source(data);
    seek := r.Seek(189, tmp);
    var afterSeek := r.Pos();
    nameAgain := r.ReadStringField(tmp);
    positions := leading + [afterIndex] + third + [afterSeek, r.Pos()];
  }

  /** The test: the reading pass over the stream written for any record of
      the test's shape (TestRecord is the test's own) finds every size, field
      and position the test asserts. */
  method TestRead(schema: seq<byte>, rec: Record)
    returns (indexSz: Result<nat>, recordSz: Result<nat>, company: Result<seq<byte>>,
             ready: Result<bool>, arraySz: Result<nat>, arrayLen: Result<nat>,
             dates: seq<Result<seq<byte>>>, elSizes: seq<Result<nat>>,
             name: Result<seq<byte>>, verified: Result<bool>, atEnd: Result<nat>,
             nameAgain: Result<seq<byte>>, skipSchema: Outcome, skipPayloads: Outcome,
             skipTail: Outcome, seek: Outcome, positions: seq<nat>)
    requires |schema| == 93 && Shaped(rec)
    ensures indexSz == Ok(97) && recordSz == Ok(132)
    ensures company == Ok(rec.company) && ready == Ok(rec.ready)
    ensures arraySz == Ok(100) && arrayLen == Ok(3)
    ensures skipSchema == Done && skipPayloads == Done && skipTail == Done && seek == Done
    ensures dates == [Ok(rec.list[0].date), Ok(rec.list[1].date), Ok(rec.list[2].date)]
    ensures elSizes == [Ok(14), Ok(14), Ok(22)]
    ensures name == Ok(rec.list[2].name) && verified == Ok(rec.list[2].verified)
    ensures atEnd == Err(EOF)
    ensures nameAgain == name
    ensures positions == [4, 101, 110, 111, 115, 119, 161, 189, 210, 211, 189, 210]
  {
    StreamLayoutRead(schema, rec);
    indexSz, recordSz, company, ready, arraySz, arrayLen, dates, elSizes, name, verified,
      atEnd, nameAgain, skipSchema, skipPayloads, skipTail, seek, positions :=
      ReadPass(Stream(schema, rec), rec);
  }

  /** The test over its own record: the values it reads are the literals the
      test writes and asserts. */
  method TestReadLiterals(schema: seq<byte>, tail: seq<byte>)
    returns (company: Result<seq<byte>>, ready: Result<bool>, dates: seq<Result<seq<byte>>>,
             name: Result<seq<byte>>, verified: Result<bool>, nameAgain: Result<seq<byte>>,
             positions: seq<nat>)
    requires |schema| == 93 && |tail| == 18
    ensures company == Ok(Posit) && ready == Ok(true)
    ensures dates == [Ok(Date2020), Ok(Date2021), Ok(Date2022)]
    ensures name == Ok(Name2022) && verified == Ok(true) && nameAgain == Ok(Name2022)
    ensures positions == [4, 101, 110, 111, 115, 119, 161, 189, 210, 211, 189, 210]
  {
    var rec := TestRecord(tail);
    var indexSz, recordSz, arraySz, arrayLen, elSizes, atEnd, skipSchema, skipPayloads, skipTail, seek;
    indexSz, recordSz, company, ready, arraySz, arrayLen, dates, elSizes, name, verified,
      atEnd, nameAgain, skipSchema, skipPayloads, skipTail, seek, positions := TestRead(schema, rec);
  }
}
