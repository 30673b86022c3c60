/**
 * The `.mld` pattern-file container and its reader (`read_mld_file`).
 *
 * Layout, all integers unsigned 32-bit little-endian:
 *   offset 0      10 bytes   magic "MOLDE_RAW" followed by a NUL byte
 *   offset 10      4 bytes   format version
 *   offset 14      4 bytes   thumbnail length N
 *   offset 18      N bytes   thumbnail (PNG)
 *   offset 18+N    4 bytes   payload length M
 *   offset 22+N    M bytes   UTF-8 JSON payload
 * The reader works on a stream: every `read(n)` returns at most n bytes from the cursor
 * and advances the cursor by what it returned.
 */
module MldReader {
  import opened Wrappers
  import opened Json

  type Byte = b: int | 0 <= b < 256

  const U32Limit: nat := 0x1_0000_0000

  /** b"MOLDE_RAW\0" */
  const Magic: seq<Byte> := [77, 79, 76, 68, 69, 95, 82, 65, 87, 0]

  /** `struct.unpack('<I', b)` */
  function DecodeU32(b: seq<Byte>): (v: nat)
    requires |b| == 4
    ensures v < U32Limit
  {
    b[0] as int + 256 * (b[1] as int) + 65536 * (b[2] as int) + 16777216 * (b[3] as int)
  }

  /** `struct.pack('<I', v)` */
  function EncodeU32(v: nat): (b: seq<Byte>)
    requires v < U32Limit
    ensures |b| == 4
  {
    [v % 256, (v / 256) % 256, (v / 65536) % 256, v / 16777216]
  }

  /** Decoding inverts encoding... */
  lemma DecodeEncodeU32(v: nat)
    requires v < U32Limit
    ensures DecodeU32(EncodeU32(v)) == v
  {
    var q1 := v / 256;
    var q2 := q1 / 256;
    assert v == v % 256 + 256 * q1;
    assert q1 == q1 % 256 + 256 * q2;
    assert v / 65536 == q2;
    assert q2 == q2 % 256 + 256 * (v / 16777216);
  }

  /** Euclidean division is unique: `v == r + d * q` with `0 <= r < d` fixes `v / d` and `v % d`. */
  lemma DivModUnique(v: int, d: int, q: int, r: int)
    requires d > 0 && 0 <= r < d && v == r + d * q
    ensures v / d == q && v % d == r
  {
    var q', r' := v / d, v % d;
    var k := q - q';
    assert d * q == d * q' + d * k;
    assert r' - r == d * k;
    if k >= 1 {
      MulAtLeast(d, k);
    } else if k <= -1 {
      MulAtLeast(d, -k);
    }
  }

  lemma MulAtLeast(d: int, k: int)
    requires d > 0 && k >= 1
    ensures d * k >= d
  {
    assert d * k == d + d * (k - 1);
    assert d * (k - 1) >= 0;
  }

  /** ...and encoding inverts decoding: the four bytes are exactly the little-endian digits. */
  lemma EncodeDecodeU32(b: seq<Byte>)
    requires |b| == 4
    ensures EncodeU32(DecodeU32(b)) == b
  {
    var v := DecodeU32(b);
    var r2: int := b[2] as int + 256 * (b[3] as int);
    var r1: int := b[1] as int + 256 * r2;
    assert v == b[0] as int + 256 * r1;
    DivModUnique(v, 256, r1, b[0]);
    DivModUnique(r1, 256, r2, b[1]);
    DivModUnique(r2, 256, b[3], b[2]);
    assert v / 65536 == r2 by {
      DivModUnique(v, 65536, r2, b[0] as int + 256 * (b[1] as int));
    }
    assert v / 16777216 == b[3] by {
      DivModUnique(v, 16777216, b[3], b[0] as int + 256 * (b[1] as int) + 65536 * (b[2] as int));
    }
  }

  datatype MldError =
    | InvalidFormat   // ValueError: header is not the magic
    | Incomplete      // ValueError from struct.error: fewer than 4 bytes for a length field
    | InvalidUtf8     // UnicodeDecodeError: not caught by the reader, escapes to the caller

  datatype MldContent = MldContent(version: nat, thumbnail: seq<Byte>, data: Json)

  /** What `f.read(n)` returns with the cursor at `pos`. */
  function ReadAt(s: seq<Byte>, pos: nat, n: nat): (r: seq<Byte>)
    ensures |r| <= n
    ensures pos + n <= |s| ==> r == s[pos..pos + n]
    ensures pos + n > |s| ==> r == (if pos < |s| then s[pos..] else [])
  {
    if pos >= |s| then [] else if pos + n <= |s| then s[pos..pos + n] else s[pos..]
  }

  /** The decode step at the end of the reader: UTF-8 errors escape, JSON errors give `{}`. */
  function DecodePayload(version: nat, thumbnail: seq<Byte>, payload: seq<Byte>,
                         utf8: seq<Byte> -> Option<string>, parse: string -> Option<Json>)
    : Result<MldContent, MldError>
  {
    match utf8(payload)
    case None => Err(InvalidUtf8)
    case Some(text) =>
      match parse(text)
      case None => Ok(MldContent(version, thumbnail, EmptyObject))
      case Some(j) => Ok(MldContent(version, thumbnail, j))
  }

  /** The reader's result as a function of the whole stream contents (read from offset 0). */
  function ParseMld(s: seq<Byte>, utf8: seq<Byte> -> Option<string>, parse: string -> Option<Json>)
    : Result<MldContent, MldError>
  {
    if ReadAt(s, 0, 10) != Magic then Err(InvalidFormat) else ParseBody(s, utf8, parse)
  }

  /** What the reader makes of the bytes after a correct header. */
  function ParseBody(s: seq<Byte>, utf8: seq<Byte> -> Option<string>, parse: string -> Option<Json>)
    : Result<MldContent, MldError>
  {
    if |s| < 18 then Err(Incomplete)
    else
      var version := DecodeU32(s[10..14]);
      var thumb := ReadAt(s, 18, DecodeU32(s[14..18]));
      var p := 18 + |thumb|;
      if |s| < p + 4 then Err(Incomplete)
      else
        var payload := ReadAt(s, p + 4, DecodeU32(s[p..p + 4]));
        DecodePayload(version, thumb, payload, utf8, parse)
  }

  /** Where the reader leaves the cursor: just after the last byte it asked for. */
  function Consumed(s: seq<Byte>): (n: nat)
    ensures n <= |s|
  {
    if ReadAt(s, 0, 10) != Magic then |ReadAt(s, 0, 10)| else ConsumedBody(s)
  }

  /** Where the cursor stops once the header was correct. */
  function ConsumedBody(s: seq<Byte>): (n: nat)
    requires |s| >= 10
    ensures n <= |s|
  {
    if |s| < 18 then |s|
    else
      var p := 18 + |ReadAt(s, 18, DecodeU32(s[14..18]))|;
      if |s| < p + 4 then |s|
      else p + 4 + |ReadAt(s, p + 4, DecodeU32(s[p..p + 4]))|
  }

  /** A file-like object over a byte buffer, with a cursor. */
  class Stream {
    var data: seq<Byte>
    var pos: nat

    constructor (contents: seq<Byte>, start: nat)
      ensures data == contents && pos == start
    {
      data := contents;
      pos := start;
    }

    /** `f.read(n)` */
    method Read(n: nat) returns (chunk: seq<Byte>)
      modifies this
      ensures data == old(data)
      ensures chunk == ReadAt(data, old(pos), n)
      ensures pos == old(pos) + |chunk|
    {
      chunk := ReadAt(data, pos, n);
      pos := pos + |chunk|;
    }

    /** `f.read()` with no size: everything from the cursor on. */
    method ReadAll() returns (chunk: seq<Byte>)
      modifies this
      ensures data == old(data)
      ensures chunk == (if old(pos) < |data| then data[old(pos)..] else [])
      ensures pos == old(pos) + |chunk|
    {
      chunk := if pos < |data| then data[pos..] else [];
      pos := pos + |chunk|;
    }

    /** `f.seek(0)` */
    method Rewind()
      modifies this
      ensures data == old(data) && pos == 0
    {
      pos := 0;
    }
  }

  /**
   * `read_mld_file` on a file-like object: rewind if the cursor is not at 0, then read the
   * header, version, thumbnail and payload in turn. The result is `ParseMld` of the whole
   * buffer wherever the cursor started, and the cursor stops after the last byte read, so
   * nothing past the declared payload is ever read.
   */
  method ReadMldFile(f: Stream, utf8: seq<Byte> -> Option<string>, parse: string -> Option<Json>)
    returns (r: Result<MldContent, MldError>)
    modifies f
    ensures f.data == old(f.data)
    ensures r == ParseMld(f.data, utf8, parse)
    ensures f.pos == Consumed(f.data)
  {
    if f.pos != 0 {
      f.Rewind();
    }
    var header := f.Read(10);
    if header != Magic {
      return Err(InvalidFormat);
    }
    r := ReadBody(f, utf8, parse);
  }

  /** The rest of `read_mld_file` once the header matched: version, thumbnail and payload. */
  method ReadBody(f: Stream, utf8: seq<Byte> -> Option<string>, parse: string -> Option<Json>)
    returns (r: Result<MldContent, MldError>)
    modifies f
    requires f.pos == 10 && |f.data| >= 10
    ensures f.data == old(f.data)
    ensures r == ParseBody(f.data, utf8, parse)
    ensures f.pos == ConsumedBody(f.data)
  {
    ghost var s := f.data;
    ShortRead(s, 10, 4);
    var versionBytes := f.Read(4);
    if |versionBytes| < 4 {
      return Err(Incomplete);
    }
    assert versionBytes == s[10..14];
    var version := DecodeU32(versionBytes);
    ShortRead(s, 14, 4);
    var thumbSizeBytes := f.Read(4);
    if |thumbSizeBytes| < 4 {
      return Err(Incomplete);
    }
    assert thumbSizeBytes == s[14..18];
    var thumbSize := DecodeU32(thumbSizeBytes);
    var thumbnail := f.Read(thumbSize);
    assert thumbnail == ReadAt(s, 18, DecodeU32(s[14..18]));
    r := ReadPayload(f, version, thumbnail, utf8, parse);
  }

  /** The last stage of `read_mld_file`: the payload length, then at most that many bytes. */
  method ReadPayload(f: Stream, version: nat, thumbnail: seq<Byte>, utf8: seq<Byte> -> Option<string>,
                     parse: string -> Option<Json>)
    returns (r: Result<MldContent, MldError>)
    modifies f
    requires f.pos <= |f.data|
    ensures f.data == old(f.data)
    ensures var p := old(f.pos);
            (|f.data| < p + 4 ==> r == Err(Incomplete) && f.pos == |f.data|)
            && (|f.data| >= p + 4 ==>
                  var payload := ReadAt(f.data, p + 4, DecodeU32(f.data[p..p + 4]));
                  r == DecodePayload(version, thumbnail, payload, utf8, parse) && f.pos == p + 4 + |payload|)
  {
    ghost var s, p := f.data, f.pos;
    ShortRead(s, p, 4);
    var jsonSizeBytes := f.Read(4);
    if |jsonSizeBytes| < 4 {
      return Err(Incomplete);
    }
    assert jsonSizeBytes == s[p..p + 4];
    var jsonSize := DecodeU32(jsonSizeBytes);
    var jsonBytes := f.Read(jsonSize);
    r := DecodePayload(version, thumbnail, jsonBytes, utf8, parse);
  }

  /** A read that returns fewer bytes than asked for has reached the end of the buffer. */
  lemma ShortRead(s: seq<Byte>, pos: nat, n: nat)
    requires pos <= |s|
    ensures |ReadAt(s, pos, n)| < n <==> |s| < pos + n
    ensures |ReadAt(s, pos, n)| < n ==> pos + |ReadAt(s, pos, n)| == |s|
  {
  }

  /** The bytes of a container for the given version, thumbnail and payload-length field. */
  function Container(version: nat, thumbnail: seq<Byte>, payloadLength: nat): (s: seq<Byte>)
    requires version < U32Limit && |thumbnail| < U32Limit && payloadLength < U32Limit
    ensures |s| == 22 + |thumbnail|
  {
    Magic + EncodeU32(version) + EncodeU32(|thumbnail|) + thumbnail + EncodeU32(payloadLength)
  }

  /**
   * Reading `magic ‖ LE32(v) ‖ LE32(N) ‖ thumb ‖ LE32(M) ‖ rest` gives version v, exactly the
   * N thumbnail bytes, and decodes the first M bytes of `rest` (all of `rest` when it is
   * shorter than M: a short payload is not an error); bytes after those M are never used.
   */
  lemma {:induction false} ParseContainer(version: nat, thumbnail: seq<Byte>, m: nat, rest: seq<Byte>,
                                          utf8: seq<Byte> -> Option<string>, parse: string -> Option<Json>)
    requires version < U32Limit && |thumbnail| < U32Limit && m < U32Limit
    ensures var s := Container(version, thumbnail, m) + rest;
            var payload := if m <= |rest| then rest[..m] else rest;
            ParseMld(s, utf8, parse) == DecodePayload(version, thumbnail, payload, utf8, parse)
            && Consumed(s) == 22 + |thumbnail| + |payload|
  {
    var s := Container(version, thumbnail, m) + rest;
    var n := |thumbnail|;
    ContainerFields(version, thumbnail, m, rest);
    DecodeEncodeU32(version);
    DecodeEncodeU32(n);
    DecodeEncodeU32(m);
    ParseLayout(s, n, m, utf8, parse);
    if m <= |rest| {
      assert ReadAt(s, 22 + n, m) == rest[..m];
    } else {
      assert ReadAt(s, 22 + n, m) == rest;
    }
  }

  /** Where each field of a container sits in the buffer. */
  lemma ContainerFields(version: nat, thumbnail: seq<Byte>, m: nat, rest: seq<Byte>)
    requires version < U32Limit && |thumbnail| < U32Limit && m < U32Limit
    ensures var s := Container(version, thumbnail, m) + rest;
            var n := |thumbnail|;
            |s| == 22 + n + |rest|
            && s[..10] == Magic && s[10..14] == EncodeU32(version) && s[14..18] == EncodeU32(n)
            && s[18..18 + n] == thumbnail && s[18 + n..22 + n] == EncodeU32(m) && s[22 + n..] == rest
  {
    var a := Magic + EncodeU32(version);
    var b := a + EncodeU32(|thumbnail|);
    var c := b + thumbnail;
    var d := c + EncodeU32(m);
    var s := d + rest;
    assert s[..10] == a[..10];
    assert s[10..14] == a[10..14];
    assert s[14..18] == b[14..18];
    assert s[18..18 + |thumbnail|] == c[18..];
    assert s[18 + |thumbnail|..22 + |thumbnail|] == d[18 + |thumbnail|..];
  }

  /** The reader on a buffer whose header is right and whose two length fields say n and m. */
  lemma ParseLayout(s: seq<Byte>, n: nat, m: nat, utf8: seq<Byte> -> Option<string>, parse: string -> Option<Json>)
    requires |s| >= 22 + n && s[..10] == Magic
    requires DecodeU32(s[14..18]) == n && DecodeU32(s[18 + n..22 + n]) == m
    ensures ParseMld(s, utf8, parse) == DecodePayload(DecodeU32(s[10..14]), s[18..18 + n], ReadAt(s, 22 + n, m), utf8, parse)
    ensures Consumed(s) == 22 + n + |ReadAt(s, 22 + n, m)|
  {
    assert ReadAt(s, 0, 10) == Magic;
    assert ReadAt(s, 18, n) == s[18..18 + n];
  }

  /**
   * With a correct header, the reader fails with `Incomplete` exactly when the buffer ends
   * before the payload-length field is complete: fewer than 18 bytes, or fewer than 22 + N.
   */
  lemma IncompleteIff(s: seq<Byte>, utf8: seq<Byte> -> Option<string>, parse: string -> Option<Json>)
    requires |s| >= 10 && s[..10] == Magic
    ensures ParseMld(s, utf8, parse) == Err(Incomplete)
            <==> (|s| < 18 || |s| < 22 + DecodeU32(s[14..18]))
  {
    assert ReadAt(s, 0, 10) == Magic;
    if |s| >= 18 {
      var t := DecodeU32(s[14..18]);
      var thumb := ReadAt(s, 18, t);
      assert |s| < 22 + |thumb| <==> |s| < 22 + t;
      if |s| >= 22 + t {
        var p := 18 + |thumb|;
        var payload := ReadAt(s, p + 4, DecodeU32(s[p..p + 4]));
        assert ParseMld(s, utf8, parse) == DecodePayload(DecodeU32(s[10..14]), thumb, payload, utf8, parse);
      }
    }
  }

  /** A wrong header fails before anything past the first 10 bytes is read. */
  lemma BadHeaderReadsOnlyHeader(s: seq<Byte>, utf8: seq<Byte> -> Option<string>, parse: string -> Option<Json>)
    requires |s| >= 10 && s[..10] != Magic
    ensures ParseMld(s, utf8, parse) == Err(InvalidFormat) && Consumed(s) == 10
  {
    assert ReadAt(s, 0, 10) == s[..10];
  }
}
