/** The receiving end of a one-to-many transfer writes one byte stream into several
    files: prefix sums, a bisection and a recursive spill, against the plain view
    "one stream, cut by file size" (src/transfers/otm/receiver.py:40-120). */
module OtmWriter {
  import opened Arithmetic
  import opened Octets

  const MAX_UINT32 := 0xFFFF_FFFF

  /** Total size of the first `i` files. */
  function Prefix(sizes: seq<nat>, i: nat): nat
    requires i <= |sizes|
  {
    if i == 0 then 0 else Prefix(sizes, i - 1) + sizes[i - 1]
  }

  function Total(sizes: seq<nat>): nat { Prefix(sizes, |sizes|) }

  /** What file `i` holds when `s` is cut by file size. */
  function Piece(sizes: seq<nat>, s: Bytes, i: nat): Bytes
    requires i < |sizes|
  {
    var lo, hi := Min(|s|, Prefix(sizes, i)), Min(|s|, Prefix(sizes, i + 1));
    s[lo..hi]
  }

  /** The plain view: all files of the stream `s`. */
  function Split(sizes: seq<nat>, s: Bytes): seq<Bytes> {
    seq(|sizes|, i requires 0 <= i < |sizes| => Piece(sizes, s, i))
  }

  /** `bisect_left`: the first index whose sum is at least `x`. */
  function BisectLeft(sums: seq<nat>, x: nat): (i: nat)
    ensures i <= |sums|
    ensures forall k :: 0 <= k < i ==> sums[k] < x
    ensures i < |sums| ==> sums[i] >= x
  {
    if sums == [] || sums[0] >= x then 0 else 1 + BisectLeft(sums[1..], x)
  }

  ghost predicate Sums(sizes: seq<nat>, sums: seq<nat>) {
    |sums| == |sizes| && forall i :: 0 <= i < |sums| ==> sums[i] == Prefix(sizes, i + 1)
  }

  /** `_write_chunk` on the contents of the files, from file `i` on. */
  function Spill(sizes: seq<nat>, files: seq<Bytes>, i: nat, chunk: Bytes): seq<Bytes>
    requires |files| == |sizes| && i < |sizes|
    decreases |sizes| - i
  {
    var room := if |files[i]| <= sizes[i] then sizes[i] - |files[i]| else 0;
    var part := chunk[..Min(room, |chunk|)];
    var files' := files[i := files[i] + part];
    if |part| == |chunk| || i + 1 == |sizes| then files'
    else Spill(sizes, files', i + 1, chunk[|part|..])
  }

  lemma {:induction false} PrefixMono(sizes: seq<nat>, i: nat, j: nat)
    requires i <= j <= |sizes|
    ensures Prefix(sizes, i) <= Prefix(sizes, j)
    decreases j
  {
    if i < j { PrefixMono(sizes, i, j - 1); }
  }

  /** Bytes that still fit into file `i` extend that file and no other. */
  lemma AppendToPiece(sizes: seq<nat>, s: Bytes, i: nat, part: Bytes)
    requires i < |sizes| && Prefix(sizes, i) <= |s| && |s| + |part| <= Prefix(sizes, i + 1)
    ensures Split(sizes, s)[i := Split(sizes, s)[i] + part] == Split(sizes, s + part)
  {
    var left, right := Split(sizes, s)[i := Split(sizes, s)[i] + part], Split(sizes, s + part);
    forall j | 0 <= j < |sizes| ensures left[j] == right[j] {
      if j == i { GrownPiece(sizes, s, i, part); } else { OtherPiece(sizes, s, i, part, j); }
    }
  }

  lemma GrownPiece(sizes: seq<nat>, s: Bytes, i: nat, part: Bytes)
    requires i < |sizes| && Prefix(sizes, i) <= |s| && |s| + |part| <= Prefix(sizes, i + 1)
    ensures Piece(sizes, s + part, i) == Piece(sizes, s, i) + part
  {
    assert (s + part)[Prefix(sizes, i)..] == s[Prefix(sizes, i)..] + part;
  }

  lemma OtherPiece(sizes: seq<nat>, s: Bytes, i: nat, part: Bytes, j: nat)
    requires i < |sizes| && Prefix(sizes, i) <= |s| && |s| + |part| <= Prefix(sizes, i + 1)
    requires j < |sizes| && j != i
    ensures Piece(sizes, s + part, j) == Piece(sizes, s, j)
  {
    PrefixMono(sizes, j, j + 1);
    if j < i {
      PrefixMono(sizes, j + 1, i);
      SliceOfHead(s, part, Prefix(sizes, j), Prefix(sizes, j + 1));
    } else {
      PrefixMono(sizes, i + 1, j);
    }
  }

  lemma SliceOfHead(s: Bytes, more: Bytes, lo: nat, hi: nat)
    requires lo <= hi <= |s|
    ensures (s + more)[lo..hi] == s[lo..hi]
  {
  }

  /** What lies beyond the last file is dropped. */
  lemma BeyondTotal(sizes: seq<nat>, s: Bytes, more: Bytes)
    requires |s| >= Total(sizes)
    ensures Split(sizes, s + more) == Split(sizes, s)
  {
    forall j | 0 <= j < |sizes| ensures Split(sizes, s + more)[j] == Split(sizes, s)[j] {
      PrefixMono(sizes, j + 1, |sizes|);
      PrefixMono(sizes, j, j + 1);
      SliceOfHead(s, more, Prefix(sizes, j), Prefix(sizes, j + 1));
    }
  }

  lemma PieceSize(sizes: seq<nat>, s: Bytes, i: nat)
    requires i < |sizes| && Prefix(sizes, i) <= |s|
    ensures |Piece(sizes, s, i)| == Min(|s| - Prefix(sizes, i), sizes[i])
  {
  }

  /** Started at or before the file where the stream stands, the spill puts the chunk
      exactly where the plain view puts it. */
  lemma {:induction false} SpillIsSplit(sizes: seq<nat>, s: Bytes, i: nat, chunk: Bytes)
    requires i < |sizes| && Prefix(sizes, i) <= |s|
    ensures Spill(sizes, Split(sizes, s), i, chunk) == Split(sizes, s + chunk)
    decreases |sizes| - i
  {
    var files := Split(sizes, s);
    PieceSize(sizes, s, i);
    var room := sizes[i] - |files[i]|;
    var part := chunk[..Min(room, |chunk|)];
    var rest := chunk[|part|..];
    assert chunk == part + rest && s + chunk == (s + part) + rest;
    if |s| <= Prefix(sizes, i + 1) {
      AppendToPiece(sizes, s, i, part);
    } else {
      assert part == [] && s + part == s && files[i] + part == files[i];
      assert files[i := files[i] + part] == files;
    }
    if rest == [] {
      assert s + chunk == s + part;
    } else if i + 1 == |sizes| {
      BeyondTotal(sizes, s + part, rest);
    } else {
      SpillIsSplit(sizes, s + part, i + 1, rest);
    }
  }

  /** The spill never writes into a file before its start. */
  lemma {:induction false} SpillKeepsEarlier(sizes: seq<nat>, files: seq<Bytes>, i: nat, chunk: Bytes, j: nat)
    requires |files| == |sizes| && j < i < |sizes|
    ensures |Spill(sizes, files, i, chunk)| == |files| && Spill(sizes, files, i, chunk)[j] == files[j]
    decreases |sizes| - i
  {
    var room := if |files[i]| <= sizes[i] then sizes[i] - |files[i]| else 0;
    var part := chunk[..Min(room, |chunk|)];
    if |part| != |chunk| && i + 1 != |sizes| {
      SpillKeepsEarlier(sizes, files[i := files[i] + part], i + 1, chunk[|part|..], j);
    }
  }

  /** How much each file from number `i` on still takes. */
  function Rooms(sizes: seq<nat>, files: seq<Bytes>, i: nat): seq<nat>
    requires |files| == |sizes|
  {
    seq(|sizes|, j requires 0 <= j < |sizes| => if j < i || |files[j]| > sizes[j] then 0 else sizes[j] - |files[j]|)
  }

  lemma {:induction false} RoomsAhead(sizes: seq<nat>, files: seq<Bytes>, i: nat, part: Bytes, j: nat)
    requires |files| == |sizes| && i < j <= |sizes| && |part| == Rooms(sizes, files, i)[i]
    ensures Prefix(Rooms(sizes, files, i), j) == |part| + Prefix(Rooms(sizes, files[i := files[i] + part], i + 1), j)
    decreases j
  {
    if j > i + 1 {
      RoomsAhead(sizes, files, i, part, j - 1);
    } else {
      NoRoomBefore(sizes, files, i, i);
      NoRoomBefore(sizes, files[i := files[i] + part], i + 1, i + 1);
    }
  }

  lemma {:induction false} NoRoomBefore(sizes: seq<nat>, files: seq<Bytes>, i: nat, j: nat)
    requires |files| == |sizes| && j <= i && j <= |sizes|
    ensures Prefix(Rooms(sizes, files, i), j) == 0
  {
    if j > 0 { NoRoomBefore(sizes, files, i, j - 1); }
  }

  /** What fits into file `i` alone, cut by room. */
  lemma LastSpillByRoom(sizes: seq<nat>, files: seq<Bytes>, i: nat, chunk: Bytes, j: nat)
    requires |files| == |sizes| && i < |sizes| && j < |sizes|
    ensures var rooms := Rooms(sizes, files, i); var part := chunk[..Min(rooms[i], |chunk|)];
      |part| == |chunk| || i + 1 == |sizes| ==> files[i := files[i] + part][j] == files[j] + Piece(rooms, chunk, j)
  {
    var rooms := Rooms(sizes, files, i);
    NoRoomBefore(sizes, files, i, i);
    if j < i {
      NoRoomBefore(sizes, files, i, j);
      NoRoomBefore(sizes, files, i, j + 1);
    } else if i < j {
      PrefixMono(rooms, i + 1, j);
      PrefixMono(rooms, j, j + 1);
    }
  }

  /** With file `i` filled up, the rest of the chunk falls to the files behind it as before. */
  lemma NextSpillByRoom(sizes: seq<nat>, files: seq<Bytes>, i: nat, chunk: Bytes, part: Bytes, j: nat)
    requires |files| == |sizes| && i + 1 < |sizes| && j < |sizes|
    requires |part| == Rooms(sizes, files, i)[i] <= |chunk| && part == chunk[..|part|]
    ensures var files' := files[i := files[i] + part];
      files'[j] + Piece(Rooms(sizes, files', i + 1), chunk[|part|..], j) == files[j] + Piece(Rooms(sizes, files, i), chunk, j)
  {
    var rooms, rooms' := Rooms(sizes, files, i), Rooms(sizes, files[i := files[i] + part], i + 1);
    if j <= i {
      NoRoomBefore(sizes, files[i := files[i] + part], i + 1, j);
      NoRoomBefore(sizes, files[i := files[i] + part], i + 1, j + 1);
      NoRoomBefore(sizes, files, i, j);
      if j < i { NoRoomBefore(sizes, files, i, j + 1); }
    } else {
      RoomsAhead(sizes, files, i, part, j);
      RoomsAhead(sizes, files, i, part, j + 1);
      PrefixMono(rooms', j, j + 1);
      PieceShift(chunk, |part|, Prefix(rooms', j), Prefix(rooms', j + 1));
    }
  }

  lemma PieceShift(chunk: Bytes, n: nat, lo: nat, hi: nat)
    requires n <= |chunk| && lo <= hi
    ensures chunk[n..][Min(|chunk[n..]|, lo)..Min(|chunk[n..]|, hi)] == chunk[Min(|chunk|, n + lo)..Min(|chunk|, n + hi)]
  {
  }

  /** The spill in one line, for files in any state: each file is extended by the piece of the
      chunk that falls to it when the chunk is cut by the room left in the files. */
  lemma {:induction false} SpillByRoom(sizes: seq<nat>, files: seq<Bytes>, i: nat, chunk: Bytes, j: nat)
    requires |files| == |sizes| && i < |sizes| && j < |sizes|
    ensures |Spill(sizes, files, i, chunk)| == |files|
    ensures Spill(sizes, files, i, chunk)[j] == files[j] + Piece(Rooms(sizes, files, i), chunk, j)
    decreases |sizes| - i
  {
    var part := chunk[..Min(Rooms(sizes, files, i)[i], |chunk|)];
    if |part| == |chunk| || i + 1 == |sizes| {
      LastSpillByRoom(sizes, files, i, chunk, j);
    } else {
      SpillByRoom(sizes, files[i := files[i] + part], i + 1, chunk[|part|..], j);
      NextSpillByRoom(sizes, files, i, chunk, part, j);
    }
  }

  /** The file in which byte number `n` of the stream belongs. */
  lemma {:induction false} FileOfByte(sizes: seq<nat>, n: nat, i: nat) returns (j: nat)
    requires i <= |sizes| && n < Prefix(sizes, i)
    ensures j < i && Prefix(sizes, j) <= n < Prefix(sizes, j + 1)
    decreases i
  {
    if n < Prefix(sizes, i - 1) { j := FileOfByte(sizes, n, i - 1); } else { j := i - 1; }
  }

  /** After the stream `s`, a chunk that is bisected at `x` ends up where it belongs. */
  ghost predicate WrittenRight(sizes: seq<nat>, sums: seq<nat>, s: Bytes, x: nat, chunk: Bytes) {
    BisectLeft(sums, x) < |sizes| && Spill(sizes, Split(sizes, s), BisectLeft(sums, x), chunk) == Split(sizes, s + chunk)
  }

  /** Writing chunk number k from the bisection of k * chunk_size on is right exactly
      when that start is not past the file where the stream stands; short chunks
      before it can make it wrong. */
  lemma WriterIsRightIff(sizes: seq<nat>, s: Bytes, sums: seq<nat>, x: nat, chunk: Bytes)
    requires Sums(sizes, sums) && x <= Total(sizes) && |sizes| > 0
    ensures BisectLeft(sums, x) < |sizes|
    ensures WrittenRight(sizes, sums, s, x, chunk) <==> chunk == [] || Prefix(sizes, BisectLeft(sums, x)) <= |s|
  {
    var n, i := |sizes|, BisectLeft(sums, x);
    assert sums[n - 1] == Total(sizes);
    if Prefix(sizes, i) <= |s| {
      SpillIsSplit(sizes, s, i, chunk);
    } else if chunk == [] {
      var files := Split(sizes, s);
      assert chunk[..0] == [] && files[i] + [] == files[i] && files[i := files[i] + []] == files;
      assert s + chunk == s;
    } else {
      var j := FileOfByte(sizes, |s|, i);
      SpillKeepsEarlier(sizes, Split(sizes, s), i, chunk, j);
      assert |Split(sizes, s + chunk)[j]| > |Split(sizes, s)[j]|;
    }
  }

  /** When all earlier chunks had the session chunk size, the start is right. */
  lemma AlignedStart(sizes: seq<nat>, sums: seq<nat>, x: nat)
    requires Sums(sizes, sums) && x <= Total(sizes) && |sizes| > 0
    ensures BisectLeft(sums, x) < |sizes| && Prefix(sizes, BisectLeft(sums, x)) <= x
  {
    var i := BisectLeft(sums, x);
    assert sums[|sizes| - 1] == Total(sizes);
    if i > 0 { assert sums[i - 1] < x; }
  }

  /** The search finds a file exactly up to the end of the stream. */
  lemma BisectInRange(sizes: seq<nat>, sums: seq<nat>, x: nat)
    requires Sums(sizes, sums) && |sizes| > 0
    ensures BisectLeft(sums, x) < |sizes| <==> x <= Total(sizes)
    ensures x <= Total(sizes) ==> Prefix(sizes, BisectLeft(sums, x)) <= x
  {
    var i := BisectLeft(sums, x);
    assert sums[|sizes| - 1] == Total(sizes);
    if i < |sizes| { PrefixMono(sizes, i + 1, |sizes|); }
    if x <= Total(sizes) { AlignedStart(sizes, sums, x); }
  }

  /** For every chunk size of at least 2: three reads of one byte are written where they
      belong, and the fourth byte goes into the wrong file. */
  lemma ShortReadsMisplace(c: nat, b: Byte)
    requires c >= 2
    ensures var sizes, sums := [2 * c, c], [2 * c, 3 * c];
      && Sums(sizes, sums)
      && WrittenRight(sizes, sums, [], 0 * c, [b]) && WrittenRight(sizes, sums, [b], 1 * c, [b])
      && WrittenRight(sizes, sums, [b, b], 2 * c, [b]) && !WrittenRight(sizes, sums, [b, b, b], 3 * c, [b])
  {
    var sizes, sums := [2 * c, c], [2 * c, 3 * c];
    assert Prefix(sizes, 1) == 2 * c && Prefix(sizes, 2) == 3 * c && Total(sizes) == 3 * c;
    assert sums[1..] == [3 * c];
    WriterIsRightIff(sizes, [], sums, 0 * c, [b]);
    WriterIsRightIff(sizes, [b], sums, 1 * c, [b]);
    WriterIsRightIff(sizes, [b, b], sums, 2 * c, [b]);
    WriterIsRightIff(sizes, [b, b, b], sums, 3 * c, [b]);
  }

  /** The chunk is spilled from the file on that the bisection at `x` finds. */
  ghost predicate SpilledAt(sizes: seq<nat>, sums: seq<nat>, files: seq<Bytes>, x: int, chunk: Bytes, files': seq<Bytes>) {
    && x >= 0 && |files| == |sizes| && BisectLeft(sums, x) < |sizes|
    && files' == Spill(sizes, files, BisectLeft(sums, x), chunk)
  }

  /** A complete stream gives every file its own slice. */
  lemma CompleteStream(sizes: seq<nat>, s: Bytes, i: nat)
    requires |s| == Total(sizes) && i < |sizes|
    ensures Prefix(sizes, i) <= Prefix(sizes, i + 1) <= |s|
    ensures Split(sizes, s)[i] == s[Prefix(sizes, i)..Prefix(sizes, i + 1)]
    ensures |Split(sizes, s)[i]| == sizes[i]
  {
    PrefixMono(sizes, i + 1, |sizes|);
    PrefixMono(sizes, i, i + 1);
  }

  datatype Outcome = Ok | IndexError | OverflowError

  class FilesReceiver {
    const chunkSize: nat
    var sizes: seq<nat>
    var seeked: seq<nat>
    var contents: seq<Bytes>
    var sums: seq<nat>
    var totalByteCount: nat
    var currentFile: nat

    ghost predicate Valid()
      reads this
    {
      && |seeked| == |contents| == |sizes| && Sums(sizes, sums) && totalByteCount == Total(sizes)
      && forall i :: 0 <= i < |sizes| ==> seeked[i] == |contents[i]| <= sizes[i]
    }

    constructor (chunkSize: nat)
      ensures Valid() && this.chunkSize == chunkSize && sizes == []
    {
      this.chunkSize := chunkSize;
      sizes, seeked, contents, sums, totalByteCount, currentFile := [], [], [], [], 0, 0;
    }

    /** `_load_files_metadata`, with the files opened empty. Sums are kept in 32 bits. */
    method LoadFilesMetadata(fileSizes: seq<nat>) returns (r: Outcome)
      requires Valid()
      modifies this
      ensures r == if fileSizes == [] then IndexError else if Total(fileSizes) >= 0x1_0000_0000 then OverflowError else Ok
      ensures r == Ok ==> Valid() && sizes == fileSizes && contents == Split(fileSizes, [])
    {
      if fileSizes == [] { return IndexError; }
      var acc := [fileSizes[0]];
      for i := 1 to |fileSizes|
        invariant |acc| == i && forall k :: 0 <= k < i ==> acc[k] == Prefix(fileSizes, k + 1)
      {
        acc := acc + [acc[|acc| - 1] + fileSizes[i]];
      }
      if acc[|acc| - 1] > MAX_UINT32 { return OverflowError; }
      sizes, sums, totalByteCount := fileSizes, acc, acc[|acc| - 1];
      seeked := seq(|fileSizes|, i => 0);
      contents := seq(|fileSizes|, i => []);
      assert contents == Split(fileSizes, []);
      r := Ok;
    }

    /** `_write_chunk` */
    method WriteChunk(chunk: Bytes)
      requires Valid() && currentFile < |sizes|
      modifies this
      ensures Valid() && sizes == old(sizes) && sums == old(sums)
      ensures contents == Spill(sizes, old(contents), old(currentFile), chunk)
      decreases |sizes| - currentFile
    {
      var i := currentFile;
      var part := chunk[..Min(sizes[i] - seeked[i], |chunk|)];
      contents := contents[i := contents[i] + part];
      seeked := seeked[i := seeked[i] + |part|];
      if |chunk| - |part| > 0 {
        currentFile := currentFile + 1;
        if currentFile == |sizes| { return; }
        WriteChunk(chunk[|part|..]);
      }
    }

    /** One round of `data_receiver`: align by the chunk counter, then write. */
    method ReceiveChunk(chunkCounter: nat, chunk: Bytes, ghost stream: Bytes) returns (r: Outcome)
      requires Valid() && sizes != []
      requires contents == Split(sizes, stream)
      modifies this
      ensures Valid() && sizes == old(sizes)
      ensures r == if chunkCounter * chunkSize <= Total(sizes) then Ok else IndexError
      ensures r == IndexError ==> contents == old(contents)
      ensures r == Ok ==> SpilledAt(sizes, sums, old(contents), chunkCounter * chunkSize, chunk, contents)
      ensures r == Ok && chunkCounter * chunkSize == |stream| ==> contents == Split(sizes, stream + chunk)
    {
      var x := chunkCounter * chunkSize;
      currentFile := BisectLeft(sums, x);
      BisectInRange(sizes, sums, x);
      if currentFile == |sizes| { return IndexError; }
      WriteChunk(chunk);
      if x == |stream| { SpillIsSplit(sizes, stream, BisectLeft(sums, x), chunk); }
      r := Ok;
    }

    /** All chunks of a transfer, all but the last of the session size: every file
        ends as its slice of the stream. */
    method ReceiveAll(chunks: seq<Bytes>)
      requires Valid() && sizes != [] && contents == Split(sizes, [])
      requires forall k :: 0 <= k < |chunks| - 1 ==> |chunks[k]| == chunkSize
      requires |Joined(chunks)| == Total(sizes)
      modifies this
      ensures Valid() && sizes == old(sizes)
      ensures contents == Split(sizes, Joined(chunks))
    {
      for k := 0 to |chunks|
        invariant Valid() && sizes == old(sizes) && contents == Split(sizes, Joined(chunks[..k]))
      {
        JoinedStep(chunks, k);
        JoinedSize(chunks, chunkSize, k);
        JoinedPrefix(chunks, k);
        var r := ReceiveChunk(k, chunks[k], Joined(chunks[..k]));
      }
      assert chunks[..|chunks|] == chunks;
    }
  }

  function Joined(chunks: seq<Bytes>): Bytes {
    if chunks == [] then [] else Joined(chunks[..|chunks| - 1]) + chunks[|chunks| - 1]
  }

  lemma JoinedStep(chunks: seq<Bytes>, k: nat)
    requires k < |chunks|
    ensures Joined(chunks[..k + 1]) == Joined(chunks[..k]) + chunks[k]
  {
    assert chunks[..k + 1][..k] == chunks[..k];
  }

  lemma {:induction false} JoinedSize(chunks: seq<Bytes>, c: nat, k: nat)
    requires k < |chunks| && forall i :: 0 <= i < |chunks| - 1 ==> |chunks[i]| == c
    ensures |Joined(chunks[..k])| == k * c
  {
    if k > 0 {
      JoinedSize(chunks, c, k - 1);
      JoinedStep(chunks, k - 1);
      assert k * c == (k - 1) * c + c;
    }
  }

  lemma {:induction false} JoinedPrefix(chunks: seq<Bytes>, k: nat)
    requires k <= |chunks|
    ensures |Joined(chunks[..k])| <= |Joined(chunks)|
    decreases |chunks| - k
  {
    if k < |chunks| {
      JoinedStep(chunks, k);
      JoinedPrefix(chunks, k + 1);
    } else {
      assert chunks[..k] == chunks;
    }
  }
}
