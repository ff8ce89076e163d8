/** The position-tracking decoder. A `Reader` holds one absolute byte
    position; each field read is handed the byte source to consume from,
    advances the source and the position by the bytes it consumed, and
    returns the decoded value or the error of the short read. */
module Reader {
  import opened Codec

  /** The result of an operation that returns no value. */
  datatype Outcome = Done | Fail(error: Error)

  /** The value part of a decoder's result. */
  function ValueOf<T>(r: Result<Decoded<T>>): (v: Result<T>)
    ensures v.Ok? <==> r.Ok?
    ensures r.Ok? ==> v.value == r.value.value
    ensures r.Err? ==> v.error == r.error
  {
    match r
    case Ok(Decoded(x, _)) => Ok(x)
    case Err(e) => Err(e)
  }

  /** One field read, as a caller of the decoder issues it. */
  datatype Field = SizeField | StringField | FixedStringField(width: nat) | BoolField | DiscardBytes(n: nat)

  /** What a field read yields; a discard yields nothing. */
  datatype Value = Size(n: nat) | Text(s: seq<byte>) | Flag(b: bool) | Skipped

  /** Reading field `f` at offset `at` of the stream `d`. */
  function ReadField(d: seq<byte>, at: nat, f: Field): (r: Result<Decoded<Value>>)
    ensures r.Ok? ==> at <= r.value.next <= |d|
  {
    match f
    case SizeField =>
      (match DecSize(d, at)
       case Ok(Decoded(n, p)) => Ok(Decoded(Size(n), p))
       case Err(e) => Err(e))
    case StringField =>
      (match DecString(d, at)
       case Ok(Decoded(s, p)) => Ok(Decoded(Text(s), p))
       case Err(e) => Err(e))
    case FixedStringField(w) =>
      (match DecFixed(d, at, w)
       case Ok(Decoded(s, p)) => Ok(Decoded(Text(s), p))
       case Err(e) => Err(e))
    case BoolField =>
      (match DecBool(d, at)
       case Ok(Decoded(b, p)) => Ok(Decoded(Flag(b), p))
       case Err(e) => Err(e))
    case DiscardBytes(n) =>
      (match Skip(d, at, n)
       case Ok(p) => Ok(Decoded(Skipped, p))
       case Err(e) => Err(e))
  }

  /** Reading the fields `fs` one after another from offset `at`; the first
      failure ends the pass. */
  function ReadFields(d: seq<byte>, at: nat, fs: seq<Field>): (r: Result<Decoded<seq<Value>>>)
    ensures r.Ok? ==> |r.value.value| == |fs| && at <= r.value.next
    decreases |fs|
  {
    if fs == [] then Ok(Decoded([], at))
    else
      match ReadField(d, at, fs[0])
      case Err(e) => Err(e)
      case Ok(Decoded(v, p)) =>
        match ReadFields(d, p, fs[1..])
        case Err(e) => Err(e)
        case Ok(Decoded(vs, q)) => Ok(Decoded([v] + vs, q))
  }

  /** Resuming at a position: once the fields `fs` have been read from `at`,
      reading `gs` from the position reached (as a seek to that position
      does) yields the same values and the same final position as reading
      `fs + gs` in one sequential pass, and fails exactly when it fails. */
  lemma {:induction false} ResumeAt(d: seq<byte>, at: nat, fs: seq<Field>, gs: seq<Field>)
    requires ReadFields(d, at, fs).Ok?
    ensures ReadFields(d, at, fs + gs).Ok? <==> ReadFields(d, ReadFields(d, at, fs).value.next, gs).Ok?
    ensures ReadFields(d, at, fs + gs).Ok? ==>
              ReadFields(d, at, fs + gs).value
              == Decoded(ReadFields(d, at, fs).value.value
                         + ReadFields(d, ReadFields(d, at, fs).value.next, gs).value.value,
                         ReadFields(d, ReadFields(d, at, fs).value.next, gs).value.next)
    decreases |fs|
  {
    if fs == [] {
      assert fs + gs == gs;
      if ReadFields(d, at, gs).Ok? {
        assert [] + ReadFields(d, at, gs).value.value == ReadFields(d, at, gs).value.value;
      }
    } else {
      var v, p := ReadField(d, at, fs[0]).value.value, ReadField(d, at, fs[0]).value.next;
      var vs, q := ReadFields(d, p, fs[1..]).value.value, ReadFields(d, p, fs[1..]).value.next;
      assert ReadFields(d, at, fs).value == Decoded([v] + vs, q);
      assert (fs + gs)[0] == fs[0] && (fs + gs)[1..] == fs[1..] + gs;
      ResumeAt(d, p, fs[1..], gs);
      if ReadFields(d, q, gs).Ok? {
        var ws := ReadFields(d, q, gs).value.value;
        assert ReadFields(d, p, fs[1..] + gs).value.value == vs + ws;
        assert [v] + (vs + ws) == [v] + vs + ws;
      }
    }
  }

  /** A seekable byte source over an in-memory stream: the bytes and a cursor. */
  class Source {
    const data: seq<byte>
    var cursor: nat

    ghost predicate Valid()
      reads this
    {
      cursor <= |data|
    }

    constructor (data: seq<byte>)
      ensures Valid() && this.data == data && cursor == 0
    {
      this.data := data;
      cursor := 0;
    }

    /** Reads exactly `n` bytes; a short read consumes nothing. */
    method Read(n: nat) returns (r: Result<seq<byte>>)
      requires Valid()
      modifies this
      ensures Valid()
      ensures r == Take(data, old(cursor), n)
      ensures cursor == if r.Ok? then old(cursor) + n else old(cursor)
    {
      r := Take(data, cursor, n);
      if r.Ok? {
        cursor := cursor + n;
      }
    }

    /** Skips `n` bytes, as bufio's Discard does: a negative count fails
        with NegativeCount and consumes nothing; with fewer than `n` bytes
        left it consumes all that remain and fails with EOF. */
    method Discard(n: int) returns (o: Outcome)
      requires Valid()
      modifies this
      ensures Valid()
      ensures o == if n < 0 then Fail(NegativeCount)
                   else if old(cursor) + n <= |data| then Done else Fail(EOF)
      ensures cursor == if n < 0 then old(cursor)
                        else if o.Done? then old(cursor) + n else |data|
    {
      if n < 0 {
        o := Fail(NegativeCount);
      } else if cursor + n <= |data| {
        cursor := cursor + n;
        o := Done;
      } else {
        cursor := |data|;
        o := Fail(EOF);
      }
    }

    /** Moves the cursor to the absolute offset `off`; an offset before the
        start or past the end of the stream fails and leaves the cursor. */
    method Seek(off: int) returns (o: Outcome)
      requires Valid()
      modifies this
      ensures Valid()
      ensures o == if 0 <= off <= |data| then Done else Fail(SeekError)
      ensures cursor == if o.Done? then off else old(cursor)
    {
      if 0 <= off <= |data| {
        cursor := off;
        o := Done;
      } else {
        o := Fail(SeekError);
      }
    }
  }

  class Reader {
    /** The absolute offset of the next byte to read. */
    var pos: nat

    /** A new reader is the zero value: position 0. */
    constructor ()
      ensures pos == 0
    {
      pos := 0;
    }

    /** The reader's position agrees with the source it reads. */
    ghost predicate Synced(src: Source)
      reads this, src
    {
      pos == src.cursor
    }

    /** Pos reports the tracked position and never fails. */
    function Pos(): (p: nat)
      reads this
      ensures p == pos
    {
      pos
    }

    /** Reads a 4-byte unsigned length field. */
    method ReadSizeField(src: Source) returns (r: Result<nat>)
      requires src.Valid()
      modifies this, src
      ensures src.Valid()
      ensures r == ValueOf(DecSize(src.data, old(src.cursor)))
      ensures src.cursor == if r.Ok? then old(src.cursor) + 4 else old(src.cursor)
      ensures pos - old(pos) == src.cursor - old(src.cursor)
    {
      var b := src.Read(4);
      match b
      case Err(e) =>
        r := Err(e);
      case Ok(bytes) =>
        r := Ok(DecU32(bytes));
        pos := pos + 4;
    }

    /** Reads a string field: a length, then that many bytes. If the bytes
        are short, the length field stays consumed. */
    method ReadStringField(src: Source) returns (r: Result<seq<byte>>)
      requires src.Valid()
      modifies this, src
      ensures src.Valid()
      ensures r == ValueOf(DecString(src.data, old(src.cursor)))
      ensures r.Ok? ==> src.cursor == old(src.cursor) + 4 + |r.value|
      ensures r.Err? ==> src.cursor == if old(src.cursor) + 4 <= |src.data|
                                       then old(src.cursor) + 4 else old(src.cursor)
      ensures pos - old(pos) == src.cursor - old(src.cursor)
    {
      var size := ReadSizeField(src);
      match size
      case Err(e) =>
        r := Err(e);
      case Ok(n) =>
        var b := src.Read(n);
        match b
        case Err(e) =>
          r := Err(e);
        case Ok(bytes) =>
          r := Ok(bytes);
          pos := pos + n;
    }

    /** Reads a fixed-width string field of exactly `w` bytes. */
    method ReadFixedStringField(w: nat, src: Source) returns (r: Result<seq<byte>>)
      requires src.Valid()
      modifies this, src
      ensures src.Valid()
      ensures r == ValueOf(DecFixed(src.data, old(src.cursor), w))
      ensures src.cursor == if r.Ok? then old(src.cursor) + w else old(src.cursor)
      ensures pos - old(pos) == src.cursor - old(src.cursor)
    {
      r := src.Read(w);
      if r.Ok? {
        pos := pos + w;
      }
    }

    /** Reads a one-byte boolean field. */
    method ReadBoolField(src: Source) returns (r: Result<bool>)
      requires src.Valid()
      modifies this, src
      ensures src.Valid()
      ensures r == ValueOf(DecBool(src.data, old(src.cursor)))
      ensures src.cursor == if r.Ok? then old(src.cursor) + 1 else old(src.cursor)
      ensures pos - old(pos) == src.cursor - old(src.cursor)
    {
      var b := src.Read(1);
      match b
      case Err(e) =>
        r := Err(e);
      case Ok(bytes) =>
        r := Ok(bytes[0] != 0);
        pos := pos + 1;
    }

    /** Skips `n` bytes without interpreting them; the position follows the
        source, including the bytes a short discard consumes. */
    method Discard(n: int, src: Source) returns (o: Outcome)
      requires src.Valid()
      modifies this, src
      ensures src.Valid()
      ensures o == if n < 0 then Fail(NegativeCount)
                   else if Skip(src.data, old(src.cursor), n).Ok? then Done else Fail(EOF)
      ensures src.cursor == if n < 0 then old(src.cursor)
                            else if o.Done? then old(src.cursor) + n else |src.data|
      ensures pos - old(pos) == src.cursor - old(src.cursor)
    {
      var before := src.cursor;
      o := src.Discard(n);
      pos := pos + (src.cursor - before);
    }

    /** Moves the source to the absolute offset `off` and sets the position to
        it; after a successful seek the reader and the source agree. */
    method Seek(off: int, src: Source) returns (o: Outcome)
      requires src.Valid()
      modifies this, src
      ensures src.Valid()
      ensures o == if 0 <= off <= |src.data| then Done else Fail(SeekError)
      ensures o.Done? ==> pos == off && Synced(src)
      ensures o.Fail? ==> pos == old(pos) && src.cursor == old(src.cursor)
    {
      o := src.Seek(off);
      if o.Done? {
        pos := off;
      }
    }
  }

  /** Seeking a fresh source to a position reached by a sequential pass and
      reading on from there gives the same value and the same final position
      as the pass: a string field read at `off`, reached by a discard, then
      read again after a seek to the same offset. */
  method SeekAndReread(data: seq<byte>, off: nat)
    returns (value: Result<seq<byte>>, end: nat, seek: Outcome, valueAgain: Result<seq<byte>>,
             endAgain: nat)
    requires off <= |data|
    ensures seek == Done
    ensures value == ValueOf(DecString(data, off))
    ensures valueAgain == value && endAgain == end
    ensures value.Ok? ==> end == off + 4 + |value.value|
  {
    var first := new Source(data);
    var r := new Reader();
    var skipped := r.Discard(off, first);
    var mark := r.Pos();
    value := r.ReadStringField(first);
    end := r.Pos();
    var second := new Source(data);
    seek := r.Seek(mark, second);
    valueAgain := r.ReadStringField(second);
    endAgain := r.Pos();
  }
}
