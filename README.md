# RSF position-tracking decoder

A model of `rsfReader`, the position-tracking decoder of the RSF (repository
snapshot format). It also models the wire layout that `reader_test.go` reads with it.

A reader holds one absolute byte position and reads from a byte source
handed to each call. Its field readers each consume a fixed number of bytes
and advance the position by exactly that number:

- a size field is 4 bytes, an unsigned length or count;
- a string field is a size field `n` followed by `n` bytes;
- a fixed-width string field of width `w` is `w` bytes with no prefix;
- a boolean field is 1 byte.

`Discard(n)` skips `n` bytes. `Seek(off)` moves the source and the position
to an absolute offset.

Two different length disciplines appear in the stream:

- **Container blocks** (the schema block, a data block, an array) carry a
  self-inclusive length. Reading the length `L` at `p` and discarding `L - 4`
  bytes lands on `p + L`.
- **Array index entries** carry an exclusive payload length. From the end of
  the index, discarding the sum of the first `j` recorded lengths lands on
  element `j`'s payload.

Modules:

- `Codec` holds the primitive fields. Each has an encoder and a decoder over
  an in-memory stream at an absolute offset.
- `Layout` holds container blocks, the array index and the array's element
  payloads, with round-trip and offset lemmas.
- `Reader` holds the classes `Source` and `Reader`. `Source` is a seekable
  in-memory byte source with a cursor. `Reader` has the mutable `pos` and the
  field-reading methods. Each method is specified by the matching `Codec`
  decoder at the source's old cursor, and advances `pos` by exactly the bytes
  the source consumed. The module also has `ReadFields`, a pure account of a
  sequence of field reads, and `ResumeAt`, which states that reading from a
  position reached earlier continues a sequential pass.
- `Scenario` rebuilds the test's stream from `reader_test.go:28-80` for any
  record of the test's shape, as follows:
  - the 93 schema bytes are opaque;
  - age and rating are an opaque 18-byte tail;
  - `TestRecord` is the test's own record.

  It proves where every field sits. `TestRead` drives a `Reader` through
  the test's calls and guarantees every size, field, position and nil error
  the test asserts, except the age and rating values.

Choices where `reader_test.go` leaves the wire format open:

- **Byte order:** size fields are big-endian. The test fixes only that they
  are 4 bytes wide.
- **Booleans:** a boolean is written as 1 or 0. Any non-zero byte reads as true.
- **Read errors:** the test fixes only that a size read at an exhausted
  stream fails with `EOF` (`reader_test.go:194-196`). The model's reads
  follow Go's `io.ReadFull`: `EOF` when no byte is left, `UnexpectedEOF` on
  a partial read.
- **Discards:** a discard follows `bufio.Reader.Discard`, the source the test
  discards from (`reader_test.go:83, 94`). A negative count fails with
  `NegativeCount` and consumes nothing. A count larger than what remains
  consumes the rest of the stream and fails with `EOF`. The position follows
  the bytes consumed.
- **The name `"this is from 2022"`** is 17 bytes. The test's arithmetic gives
  `4 + 17`, 189 to 210 (`reader_test.go:172-175`). Its element's recorded
  payload length is 22 = 4 + 17 + 1 (`reader_test.go:155`).

## Model

| member | source | states |
|---|---|---|
| Codec.BigEndian | reader_test.go:86-91 | The k low-order bytes of a number, most significant first: k bytes long. This is the chosen byte order |
| Codec.FromBigEndian | reader_test.go:86-91 | The number that big-endian bytes stand for, below 256 to the number of bytes |
| Codec.EncU32 | reader_test.go:86-91 | A size field is exactly 4 bytes |
| Codec.DecU32 | reader_test.go:86-91 | A 4-byte field decodes to a value below 2^32 |
| Codec.BigEndianRoundTrip | reader_test.go:86-91 | Decoding the k big-endian bytes of any n < 256^k gives n back |
| Codec.BigEndianCanonical | reader_test.go:86-91 | Re-encoding the value decoded from any byte string gives the same bytes (the 4-byte encoding is a bijection) |
| Codec.U32RoundTrip | reader_test.go:86-91 | Every value below 2^32 survives encode then decode |
| Codec.U32Canonical | reader_test.go:86-91 | Every 4 bytes survive decode then encode |
| Codec.EncString | reader_test.go:104-109 | A string field takes 4 + its length bytes |
| Codec.EncBool | reader_test.go:111-116 | A boolean field is exactly 1 byte |
| Codec.Take | reader_test.go:194-196 | Reading n bytes succeeds iff n bytes remain, yielding exactly the next n bytes. When it fails, the error is EOF iff no byte is left, and otherwise UnexpectedEOF |
| Codec.DecSize | reader_test.go:86-91 | A size read succeeds iff 4 bytes remain, ends 4 bytes on and yields the decoded 4 bytes. It fails with EOF exactly when the stream is exhausted |
| Codec.DecString | reader_test.go:104-109 | A string read succeeds iff the length field and that many bytes remain. It ends at at + 4 + n and yields exactly the n bytes after the length. Without a whole length field, the error is EOF iff nothing is left |
| Codec.DecFixed | reader_test.go:132-136 | A fixed-width read succeeds iff w bytes remain, with no prefix, and yields exactly those w bytes |
| Codec.DecBool | reader_test.go:111-116 | A boolean read succeeds iff a byte remains, ends 1 byte on, and is true iff the byte is non-zero. Its only error is EOF |
| Codec.Skip | reader_test.go:93-95 | Discarding n bytes succeeds iff n bytes remain, landing n bytes on. Otherwise the error is EOF |
| Codec.SizeCanonical | reader_test.go:86-91 | A size field that decodes is exactly the encoding of its value |
| Codec.StringCanonical | reader_test.go:104-109 | The bytes a string read consumes are exactly the encoding of the string it returns |
| Codec.SizeAt | reader_test.go:97-102 | An encoded size at any offset reads back as that size, 4 bytes on |
| Codec.StringAt | reader_test.go:104-109 | An encoded string at any offset reads back as that string, 4 + length bytes on |
| Codec.FixedAt | reader_test.go:132-136 | w bytes at any offset read back as a fixed-width field of width w |
| Codec.BoolAt | reader_test.go:111-116 | An encoded boolean at any offset reads back as that boolean, 1 byte on |
| Codec.SizeRoundTrip | reader_test.go:118-123 | Round trip: a size field between any prefix and suffix decodes to the encoded value |
| Codec.StringRoundTrip | reader_test.go:168-175 | Round trip: a string field between any prefix and suffix decodes to the string and ends 4 + length further on |
| Codec.FixedRoundTrip | reader_test.go:150-152 | Round trip for fixed-width fields, wherever they sit |
| Codec.BoolRoundTrip | reader_test.go:177-182 | Round trip for boolean fields, wherever they sit |
| Reader.ReadField | reader_test.go:86-116 | Any single field read that succeeds moves forward and stays inside the stream |
| Reader.ReadFields | reader_test.go:82-196 | A sequential pass that succeeds yields one value per field and never moves backwards |
| Reader.ResumeAt | reader_test.go:205-218 | Reading fs and then, from the position reached, gs gives the values and final position of reading fs + gs in one pass. It succeeds exactly when the single pass does |
| Reader.Source.constructor | reader_test.go:83 | A new source over a stream starts at offset 0 |
| Reader.Source.Read | reader_test.go:87-88 | Reads exactly n bytes with io.ReadFull's outcomes. It advances the cursor by n on success and not at all on failure |
| Reader.Source.Discard | reader_test.go:94-95 | Skips n bytes when n remain. A negative count reports NegativeCount and leaves the cursor. A short stream is consumed to its end and reports EOF |
| Reader.Source.Seek | reader_test.go:199-206 | Moves the cursor to any offset from 0 to the stream's length. A negative offset or one past the end reports SeekError and leaves the cursor |
| Reader.Reader.constructor | reader_test.go:22-24 | A new reader is the zero value: position 0 |
| Reader.Reader.Pos | reader_test.go:90-91 | Pos reports the tracked position |
| Reader.Reader.ReadSizeField | reader_test.go:86-91 | Returns DecSize at the source's offset, consumes 4 bytes on success and none on failure, and advances pos by what it consumed |
| Reader.Reader.ReadStringField | reader_test.go:104-109 | Returns DecString at the source's offset and advances pos and the source by 4 + n on success. When the body is short, the length field stays consumed |
| Reader.Reader.ReadFixedStringField | reader_test.go:132-136 | Returns DecFixed at the source's offset and advances pos and the source by exactly w on success |
| Reader.Reader.ReadBoolField | reader_test.go:111-116 | Returns DecBool at the source's offset and advances pos and the source by exactly 1 on success |
| Reader.Reader.Discard | reader_test.go:93-95 | Skips n bytes when they remain, advancing pos and the source by n. A negative count reports NegativeCount and moves nothing. A short stream is consumed to its end and reports EOF. Either way pos moves exactly as far as the source |
| Reader.Reader.Seek | reader_test.go:205-209 | A seek to an offset from 0 to the stream's length sets pos to exactly off and leaves reader and source in step. A negative or past-the-end offset reports SeekError and changes neither |
| Reader.SeekAndReread | reader_test.go:205-218 | For any stream and any offset in it, seeking a fresh source to the position a sequential pass reached succeeds, and reading a string field again gives the pass's value and final position |
| Layout.EncContainer | reader_test.go:97-102 | A container block is its content plus the 4-byte length field |
| Layout.EncIndex | reader_test.go:132-160 | The index section: each element's w-byte key followed by its exclusive payload length, in element order. IndexLength and IndexAt give its length and its reading |
| Layout.Payloads | reader_test.go:162-182 | The element payloads, concatenated in element order. ElementAt and SizesTotal place each payload |
| Layout.Before | reader_test.go:162-166 | The sum of the first j recorded lengths (the test's 14 + 14). BeforePayloads ties it to the payloads' length |
| Layout.DecEntry | reader_test.go:133-139 | Reading one entry succeeds iff w + 4 bytes remain. It yields the w key bytes and ends w + 4 bytes on |
| Layout.DecIndex | reader_test.go:132-160 | Reading k entries that succeeds yields k entries and ends exactly k * (w + 4) bytes on, inside the stream when k > 0 |
| Layout.Placed | reader_test.go:132-155 | The entries sit one after another from an offset: each w-byte key, then its size field |
| Layout.PlacedAt | reader_test.go:132-160 | Entries placed from at read back, in order, ending at at + k * (w + 4) |
| Layout.IndexPlaced | reader_test.go:132-160 | An encoded index section at any offset places the elements' entries |
| Layout.ElementOffset | reader_test.go:162-166 | The offset of element j's payload: past the two fields, the index and the first j recorded lengths. JumpAt proves that the payload sits there |
| Layout.Entries | reader_test.go:132-160 | The index describes one entry per element |
| Layout.ArrayContent | reader_test.go:118-130 | An array's content is its count field, its index and its payloads |
| Layout.EncArray | reader_test.go:118-130 | An array block is 8 bytes plus its index plus its payloads |
| Layout.ContainerAt | reader_test.go:86-102 | At any offset, a container's length field reads its whole length. Discarding that length minus 4 ends exactly past the container, and the content follows the field |
| Layout.ContainerSkip | reader_test.go:86-102 | Self-inclusive length: reading L at p and discarding L - 4 lands on p + L, the next block |
| Layout.EntryAt | reader_test.go:133-139 | A key followed by an encoded size reads back as that index entry, w + 4 bytes on |
| Layout.EntryParts | reader_test.go:133-139 | A decoded index entry is a fixed-width key read followed by a size read |
| Layout.IndexStep | reader_test.go:141-147 | An entry followed by k entries reads back as k + 1 entries |
| Layout.IndexFirst | reader_test.go:132-155 | Reading k + 1 entries is reading the first entry and then k more from where it ends |
| Layout.IndexAt | reader_test.go:132-160 | An index section at any offset reads back as the elements' entries (key, exclusive payload length), in order, and ends where the section ends |
| Layout.IndexLength | reader_test.go:156-160 | An index of k entries with w-byte keys takes k * (w + 4) bytes |
| Layout.IndexRoundTrip | reader_test.go:132-160 | Round trip of the index, wherever it sits: its entries in order, ending k * (w + 4) bytes on |
| Layout.EntryOf | reader_test.go:137-155 | Entry i records element i's key and exclusive payload length |
| Layout.PayloadsAppend | reader_test.go:162-166 | The payloads of two runs of elements are the two runs' payloads concatenated |
| Layout.BeforePayloads | reader_test.go:162-166 | The first j recorded lengths add up to exactly the length of the first j payloads |
| Layout.SizesTotal | reader_test.go:118-121 | All recorded lengths add up to the total payload length |
| Layout.ElementAt | reader_test.go:168-175 | Element j's payload sits in the payloads at the sum of the first j recorded lengths |
| Layout.ArrayLength | reader_test.go:118-130 | An array's length is 4 (size) + 4 (count) + k * (w + 4) (index) + the recorded lengths |
| Layout.ContentAt | reader_test.go:125-130 | An array's content at any offset reads back as its count and then its index |
| Layout.ArrayAt | reader_test.go:118-160 | An array at any offset reads back as its whole length, its count and its index |
| Layout.PayloadsAt | reader_test.go:162-166 | An array's payloads follow its index and end where the array ends |
| Layout.ArrayRoundTrip | reader_test.go:118-160 | Round trip of an array header and index, wherever the array sits |
| Layout.JumpAt | reader_test.go:162-182 | From the end of an array's index, discarding the sum of the first j recorded lengths lands on element j's payload, which follows |
| Layout.JumpToElement | reader_test.go:162-182 | The same jump for an array between any prefix and suffix. Element 0 starts 8 + k * (w + 4) bytes into the array |
| Scenario.Shaped | reader_test.go:32-74 | The test's record shape: a 5-byte company, three elements with 10-byte dates and names of 9, 9 and 17 bytes, and an 18-byte tail |
| Scenario.TestLayout | reader_test.go:82-196 | Each field the test reads, decoded at the offset where it reads it, with the offset after it |
| Scenario.Payload | reader_test.go:39-41 | An element's payload (name, verified) takes 5 + name length bytes |
| Scenario.Elements | reader_test.go:57-73 | The test's three elements, keyed by their 10-byte dates, fit an array |
| Scenario.ElementsFit | reader_test.go:132-160 | The index records 14, 14 and 22 with the three dates. The index takes 42 bytes and the payloads 50 |
| Scenario.Content | reader_test.go:45-56 | The data block's content is 128 bytes |
| Scenario.Stream | reader_test.go:28-80 | The whole stream is 229 bytes |
| Scenario.Sizes | reader_test.go:97-130 | Schema block 97, data block 132, array 100 = 4 + 4 + 3 * (10 + 4) + (14 + 14 + 22) |
| Scenario.StreamLayout | reader_test.go:28-80 | The stream is the schema block, the data block's length, company, ready, the array and the tail, in order |
| Scenario.Blocks | reader_test.go:86-102 | 97 reads at 0. Discarding 93 lands on 97, where 132 reads |
| Scenario.Leading | reader_test.go:104-130 | Company reads from 101 to 110, ready from 110 to 111, then 100 at 111 and 3 at 115 |
| Scenario.Index | reader_test.go:132-160 | The index read from 119 gives the three dates with 14, 14 and 22 and ends at 161 = 119 + 3 * 14 |
| Scenario.IndexFields | reader_test.go:132-160 | The same index read field by field at 119, 129, 133, 143, 147 and 157 |
| Scenario.Jump | reader_test.go:162-166 | Discarding 14 + 14 from 161 lands on 189, where the third element's 22-byte payload sits |
| Scenario.Third | reader_test.go:168-196 | The third name reads from 189 to 210 and verified from 210 to 211. The 18 tail bytes end the stream at 229, where a size read is EOF |
| Scenario.TestRecord | reader_test.go:45-74 | The test's record has the test's shape |
| Scenario.StreamLayoutRead | reader_test.go:82-196 | The stream of any record of that shape holds every field the test reads at the offset it reads it |
| Scenario.ReadLeading | reader_test.go:86-130 | The reader reads 97, skips the schema with no error, then reads 132, the company, ready, 100 and 3, at positions 4, 101, 110, 111, 115 and 119 |
| Scenario.ReadIndexSection | reader_test.go:132-160 | The reader reads the three dates with 14, 14 and 22 and ends at 161 |
| Scenario.ReadThird | reader_test.go:162-196 | The 28-byte discard succeeds and the reader reads the third name and verified, at positions 189, 210 and 211. The 18-byte discard standing in for age and rating succeeds, and a size read at the end is EOF |
| Scenario.ReadPass | reader_test.go:82-218 | Over any stream with the test's layout, the pass returns every size, field and position the test asserts (all but age and rating), and every discard succeeds. Seeking a second source to 189 succeeds, and rereading gives the same name and position 210 |
| Scenario.TestRead | reader_test.go:82-218 | The test itself, apart from the age and rating values. For any record of the test's shape written after a 93-byte schema, every asserted size, field and position holds. Every discard and the seek succeed, and the final size read is EOF |
| Scenario.TestReadLiterals | reader_test.go:53-74 | Over the test's own record, the reader returns the literals "posit", true, the three dates, "this is from 2022" and verified true, twice for the name |

## Left out

- `ReadInt64Field` and `ReadFloatField` are not modelled, and neither is the
  width of int64 and float64 fields. The test never asserts a position after
  them. Their combined 18 bytes, implied by the 132-byte data block, are an
  opaque tail that the model's pass discards instead of decoding. Float
  decoding is floating point.
- The writer (`NewWriter`, `WriteObject`) and its reflection over struct tags
  are not part of this model. Only the layout the test reads is modelled, as
  encoder functions.
- The schema block's 93 content bytes are opaque.
- `bufio.Reader`, `bytes.Buffer`, `os.CreateTemp`, `io.Copy` and file removal
  are I/O plumbing. A source is an in-memory byte sequence with a cursor.
- The testify suite scaffolding is not modelled.
- Byte order of size fields is not fixed by the test. The model picks
  big-endian.
- Reader.Source.Seek: offsets beyond the end fail with `SeekError`, like
  negative ones. An `os.File` would accept them and fail on the next read.
- Reader.Reader.Seek: inherits the same past-the-end `SeekError` from the
  source it seeks.
- Reader.Source.Read: a short read consumes nothing. A Go reader may consume
  the partial bytes before reporting the error.
- The reader's error for malformed field contents is not modelled. Every
  field the test reads decodes from any bytes.
