/** Range requests for model blobs (services/dev-server/src/api.rs, `parse_range` and `get_blob`). */
module RangeStreaming {
  import opened Wrappers

  type Byte = bv8
  type Bytes = seq<Byte>

  type u64 = x: nat | x < 0x1_0000_0000_0000_0000

  const CHUNK: u64 := 1024 * 1024

  datatype Range = Range(start: u64, end: u64)

  // ----- decimal numbers in headers -----

  predicate IsDigit(c: char) {
    '0' <= c <= '9'
  }

  predicate AllDigits(s: string) {
    forall i :: 0 <= i < |s| ==> IsDigit(s[i])
  }

  function DigitsValue(s: string): nat
    requires AllDigits(s)
  {
    if s == "" then 0
    else 10 * DigitsValue(s[..|s| - 1]) + (s[|s| - 1] as int - '0' as int)
  }

  /** Unsigned 64-bit parsing: an optional `+`, at least one digit, no overflow. */
  function ParseU64(s: string): Option<u64> {
    var digits := if s != "" && s[0] == '+' then s[1..] else s;
    if digits == "" || !AllDigits(digits) then None
    else
      var n := DigitsValue(digits);
      if n < 0x1_0000_0000_0000_0000 then Some(n) else None
  }

  /** How a client writes a number. */
  function Decimal(n: nat): (s: string)
    ensures s != "" && AllDigits(s) && DigitsValue(s) == n
  {
    var last := ('0' as int + n % 10) as char;
    if n < 10 then [last] else Decimal(n / 10) + [last]
  }

  lemma ParseDecimal(n: nat)
    ensures ParseU64(Decimal(n)) == if n < 0x1_0000_0000_0000_0000 then Some(n) else None
  {
    assert IsDigit(Decimal(n)[0]);
  }

  /** What the 64-bit parser accepts: decimal digits, with or without a `+` in front. */
  lemma ParseU64Iff(s: string, n: nat)
    requires n < 0x1_0000_0000_0000_0000
    ensures ParseU64(s) == Some(n) <==>
            exists digits :: (s == digits || s == "+" + digits)
              && digits != "" && AllDigits(digits) && DigitsValue(digits) == n
  {
    var digits := if s != "" && s[0] == '+' then s[1..] else s;
    if ParseU64(s) == Some(n) {
      assert s == digits || s == "+" + digits;
    }
    if d :| (s == d || s == "+" + d) && d != "" && AllDigits(d) && DigitsValue(d) == n {
      assert IsDigit(d[0]);
      assert digits == d;
    }
  }

  lemma DecimalIsPositional()
    ensures Decimal(0) == "0" && Decimal(9) == "9" && Decimal(10) == "10" && Decimal(1048576) == "1048576"
  {
  }

  // ----- the Range header -----

  function SplitOnce(s: string, sep: char): Option<(string, string)> {
    if s == "" then None
    else if s[0] == sep then Some(("", s[1..]))
    else match SplitOnce(s[1..], sep)
      case None => None
      case Some((a, b)) => Some(([s[0]] + a, b))
  }

  lemma {:induction false} SplitAtFirst(a: string, sep: char, b: string)
    requires sep !in a
    ensures SplitOnce(a + [sep] + b, sep) == Some((a, b))
  {
    if a != "" {
      SplitAtFirst(a[1..], sep, b);
      assert a[0] in a && [a[0]] + a[1..] == a;
      assert (a + [sep] + b)[0] == a[0];
      assert (a + [sep] + b)[1..] == a[1..] + [sep] + b;
    } else {
      assert (a + [sep] + b)[1..] == b;
    }
  }

  const PREFIX := "bytes="

  function LastByte(size: u64): u64 {
    if size == 0 then 0 else size - 1
  }

  function Min(a: u64, b: u64): u64 {
    if a < b then a else b
  }

  /** `None` stands for a header that is absent or not readable as text; an accepted range lies
      inside the file, so the later `end + 1 - start` cannot overflow. */
  function ParseRange(header: Option<string>, size: u64): (r: Option<Range>)
    ensures r.Some? ==> r.value.start <= r.value.end < size
  {
    match header
    case None => None
    case Some(h) =>
      if !(PREFIX <= h) then None
      else match SplitOnce(h[|PREFIX|..], '-')
        case None => None
        case Some((a, b)) =>
          var start := if a == "" then Some(0) else ParseU64(a);
          var end := if b == "" then Some(LastByte(size)) else ParseU64(b);
          if start.None? || end.None? then None else Clip(start.value, end.value, size)
  }

  function Clip(start: u64, end: u64, size: u64): (r: Option<Range>)
    ensures r.Some? ==> r.value.start <= r.value.end < size
  {
    var last := Min(end, LastByte(size));
    if size == 0 || start > last || start >= size then None else Some(Range(start, last))
  }

  function WriteBound(bound: Option<nat>): string {
    if bound.None? then "" else Decimal(bound.value)
  }

  /** A range header with either bound optional. */
  function WriteRange(from: Option<nat>, to: Option<nat>): string {
    "bytes=" + (WriteBound(from) + "-" + WriteBound(to))
  }

  /** Every header a client can write that way is read as the range it denotes, clipped to the
      file, and is refused exactly when that range is empty or a bound needs more than 64 bits.
      A missing first bound means 0, not a suffix length as in section 14.1.2 of RFC 9110. */
  lemma ParseWritten(from: Option<nat>, to: Option<nat>, size: u64)
    ensures var start := if from.None? then 0 else from.value;
            var end := if to.None? || to.value >= size then size - 1 else to.value;
            ParseRange(Some(WriteRange(from, to)), size) ==
            if start <= end && (to.Some? ==> to.value < 0x1_0000_0000_0000_0000)
            then Some(Range(start, end)) else None
  {
    SplitWritten(from, to);
    ParseBound(from, 0);
    ParseBound(to, LastByte(size));
  }

  lemma SplitWritten(from: Option<nat>, to: Option<nat>)
    ensures PREFIX <= WriteRange(from, to)
    ensures SplitOnce(WriteRange(from, to)[|PREFIX|..], '-') == Some((WriteBound(from), WriteBound(to)))
  {
    var a, b := WriteBound(from), WriteBound(to);
    forall i | 0 <= i < |a| ensures a[i] != '-' {
      assert IsDigit(a[i]);
    }
    SplitAtFirst(a, '-', b);
    assert WriteRange(from, to)[|PREFIX|..] == a + ['-'] + b;
  }

  lemma ParseBound(bound: Option<nat>, missing: u64)
    ensures var s := WriteBound(bound);
            (if s == "" then Some(missing) else ParseU64(s)) ==
            if bound.None? then Some(missing)
            else if bound.value < 0x1_0000_0000_0000_0000 then Some(bound.value) else None
  {
    if bound.Some? {
      ParseDecimal(bound.value);
    }
  }

  // ----- the chunk loop -----

  /** What the operating system does with the k-th read: fail, or return some bytes, as many as
      it likes between one and what was asked for and is there. */
  type Reads = nat -> Option<nat>

  function Clamp(n: nat, most: nat): (m: nat)
    requires most > 0
    ensures 1 <= m <= most
  {
    if n == 0 then 1 else if n > most then most else n
  }

  ghost function Concat(chunks: seq<Bytes>): Bytes {
    if chunks == [] then [] else Concat(chunks[..|chunks| - 1]) + chunks[|chunks| - 1]
  }

  /** The part of `file` that exists from `start` on, at most `length` bytes. */
  function Window(file: Bytes, start: nat, length: nat): Bytes
    requires start <= |file|
  {
    if start + length <= |file| then file[start..start + length] else file[start..]
  }

  lemma ConcatSnoc(chunks: seq<Bytes>, chunk: Bytes)
    ensures Concat(chunks + [chunk]) == Concat(chunks) + chunk
  {
    assert (chunks + [chunk])[..|chunks|] == chunks;
  }

  /** Whatever the read sizes, the chunks are an initial part of the window, the whole of it
      unless a read fails; no chunk is empty or larger than 1 MiB. */
  method StreamChunks(file: Bytes, start: u64, length: u64, disk: Reads) returns (chunks: seq<Bytes>, failed: bool)
    requires start <= |file|
    ensures Concat(chunks) <= Window(file, start, length)
    ensures !failed ==> Concat(chunks) == Window(file, start, length)
    ensures (forall k :: disk(k).Some?) ==> !failed
    ensures forall i :: 0 <= i < |chunks| ==> 0 < |chunks[i]| <= 0x10_0000
  {
    chunks, failed := [], false;
    assert Concat(chunks) == file[start..start];
    hide Concat;
    var rem := length;
    var pos: nat := start;
    var k := 0;
    while rem != 0
      invariant pos <= |file| && pos - start == length - rem
      invariant Concat(chunks) == file[start..pos]
      invariant forall i :: 0 <= i < |chunks| ==> 0 < |chunks[i]| <= CHUNK
    {
      var want := Min(rem, CHUNK);
      if disk(k).None? {
        failed := true;
        return;
      }
      if pos == |file| {
        return;
      }
      var left := |file| - pos;
      var n := Clamp(disk(k).value, if want < left then want else left);
      ConcatSnoc(chunks, file[pos..pos + n]);
      assert file[start..pos] + file[pos..pos + n] == file[start..pos + n];
      chunks := chunks + [file[pos..pos + n]];
      rem := rem - n;
      pos := pos + n;
      k := k + 1;
    }
  }

  // ----- responses -----

  datatype Response = Response(partial: bool, contentLength: u64, contentRange: Option<Range>, body: Bytes)

  /** The requested part of a file, the whole of it without an acceptable range. */
  function Selected(file: Bytes, header: Option<string>): Bytes
    requires |file| < 0x1_0000_0000_0000_0000
  {
    match ParseRange(header, |file|)
    case Some(r) => file[r.start..r.end + 1]
    case None => file
  }

  method GetBlob(file: Bytes, header: Option<string>, disk: Reads) returns (r: Response, failed: bool)
    requires |file| < 0x1_0000_0000_0000_0000
    ensures r.partial <==> ParseRange(header, |file|).Some?
    ensures r.contentRange == ParseRange(header, |file|)
    ensures r.body <= Selected(file, header)
    ensures !failed ==> r.body == Selected(file, header)
    ensures (forall k :: disk(k).Some?) ==> !failed
    // Content-Length is the number of selected bytes exactly for non-empty files: an empty file is
    // announced as one byte.
    ensures r.contentLength == |Selected(file, header)| <==> file != []
    ensures file == [] ==> r.contentLength == 1 && r.body == []
  {
    var size: u64 := |file|;
    var range := ParseRange(header, size);
    var start: u64, end: u64 := 0, LastByte(size);
    if range.Some? {
      start, end := range.value.start, range.value.end;
    }
    var beyond: u64 := end + 1;
    var length: u64 := beyond - start;
    var chunks;
    chunks, failed := StreamChunks(file, start, length, disk);
    ghost var sent := Concat(chunks);
    var body := Flatten(chunks);
    r := Response(range.Some?, length, range, body);
  }

  /** The bytes on the wire. */
  method Flatten(chunks: seq<Bytes>) returns (body: Bytes)
    ensures body == Concat(chunks)
  {
    body := [];
    for i := 0 to |chunks|
      invariant body == Concat(chunks[..i])
    {
      ConcatSnoc(chunks[..i], chunks[i]);
      assert chunks[..i + 1] == chunks[..i] + [chunks[i]];
      body := body + chunks[i];
    }
    assert chunks[..|chunks|] == chunks;
  }

  // ----- resuming a download -----

  /** Cut points of a file, from 0 to its size. */
  ghost predicate Tiling(cuts: seq<nat>, size: nat) {
    && |cuts| > 0 && cuts[0] == 0 && cuts[|cuts| - 1] == size
    && forall i :: 0 <= i < |cuts| - 1 ==> cuts[i] < cuts[i + 1]
  }

  function TileHeader(cuts: seq<nat>, i: nat): Option<string>
    requires i + 1 < |cuts| && cuts[i] < cuts[i + 1]
  {
    Some(WriteRange(Some(cuts[i]), Some(cuts[i + 1] - 1)))
  }

  lemma CutsIncrease(cuts: seq<nat>, size: nat, i: nat, j: nat)
    requires Tiling(cuts, size) && i <= j < |cuts|
    ensures cuts[i] <= cuts[j] <= size
    decreases |cuts| - i, j - i
  {
    if i < j {
      CutsIncrease(cuts, size, i, j - 1);
    }
    if j < |cuts| - 1 {
      CutsIncrease(cuts, size, j + 1, |cuts| - 1);
    }
  }

  ghost predicate IsSlice(part: Bytes, file: Bytes, from: nat, to: nat) {
    from <= to <= |file| && part == file[from..to]
  }

  lemma TilePart(file: Bytes, cuts: seq<nat>, i: nat)
    requires |file| < 0x1_0000_0000_0000_0000 && Tiling(cuts, |file|) && i < |cuts| - 1
    ensures cuts[i] < cuts[i + 1] && IsSlice(Selected(file, TileHeader(cuts, i)), file, cuts[i], cuts[i + 1])
  {
    CutsIncrease(cuts, |file|, i + 1, i + 1);
    ParseWritten(Some(cuts[i]), Some(cuts[i + 1] - 1), |file|);
  }

  lemma {:induction false} ConcatSlices(file: Bytes, cuts: seq<nat>, parts: seq<Bytes>)
    requires |cuts| == |parts| + 1 && cuts[0] == 0
    requires forall i :: 0 <= i < |parts| ==> IsSlice(parts[i], file, cuts[i], cuts[i + 1])
    ensures cuts[|parts|] <= |file| && Concat(parts) == file[..cuts[|parts|]]
  {
    if parts == [] {
    } else {
      var n := |parts| - 1;
      ConcatSlices(file, cuts[..n + 1], parts[..n]);
      assert IsSlice(parts[n], file, cuts[n], cuts[n + 1]);
    }
  }

  /** The responses for a tiling of the file, put together, are the file. */
  lemma TilesRebuildFile(file: Bytes, cuts: seq<nat>, parts: seq<Bytes>)
    requires |file| < 0x1_0000_0000_0000_0000 && Tiling(cuts, |file|)
    requires |parts| == |cuts| - 1
    requires forall i :: 0 <= i < |parts| ==> parts[i] == Selected(file, TileHeader(cuts, i))
    ensures Concat(parts) == file
  {
    forall i | 0 <= i < |parts|
      ensures IsSlice(parts[i], file, cuts[i], cuts[i + 1])
    {
      TilePart(file, cuts, i);
    }
    ConcatSlices(file, cuts, parts);
    assert file[..|file|] == file;
  }
}
