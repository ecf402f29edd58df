/** A list of files over one byte stream: the sender's loops, the receiver's loops
    with short reads, and their composition (src/transfers/files/sender.py,
    src/transfers/files/receiver.py, src/transfers/files/_fileobject.py). */
module FileTransfer {
  import opened Octets
  import opened Wire

  /** The three fields of a file item that travel: name, size and start offset. */
  datatype Item = Item(name: string, size: nat, seeked: nat) {
    function Remaining(): nat { if seeked < size then size - seeked else 0 }
  }

  /** The msgpack coding of an item, of which only `load(dump(x)) == x` is used. */
  datatype Codec = Codec(dump: Item -> Bytes, load: Bytes -> Item)

  /** A file to send: its item and what is on disk. */
  datatype Source = Source(item: Item, content: Bytes)

  datatype Received = Received(item: Item, data: Bytes)

  /** A file that `send_files` can send: not empty, and its item can be framed. */
  ghost predicate Sendable(codec: Codec, f: Source) {
    && 0 < f.item.size == |f.content| && f.item.seeked <= f.item.size
    && |codec.dump(f.item)| < UINT32_LIMIT && codec.load(codec.dump(f.item)) == f.item
  }

  function Header(codec: Codec, item: Item): Bytes { [1] + Pack(4, |codec.dump(item)|) + codec.dump(item) }

  /** What is left to send of a file. */
  function Body(f: Source): Bytes {
    if f.item.seeked <= |f.content| then f.content[f.item.seeked..] else []
  }

  /** What is sent for a file. */
  function RecordOf(codec: Codec, f: Source): Bytes { Header(codec, f.item) + Body(f) }

  /** The whole stream of a transfer. */
  function Encode(codec: Codec, files: seq<Source>): Bytes {
    if files == [] then [0]
    else RecordOf(codec, files[0]) + Encode(codec, files[1..])
  }

  datatype Record = Cut | Short(got: Received) | Whole(got: Received, rest: Bytes)

  /** One file item and its contents, from behind the code byte. */
  function ReadRecord(codec: Codec, t: Bytes): (r: Record)
    ensures r.Whole? ==> |r.rest| <= |t|
  {
    if |t| < 4 || |t[4..]| < Unpack(t[..4]) then Cut
    else
      var n := Unpack(t[..4]);
      var item, data := codec.load(t[4..][..n]), t[4..][n..];
      if |data| < item.Remaining() then Short(Received(item, data))
      else Whole(Received(item, data[..item.Remaining()]), data[item.Remaining()..])
  }

  datatype Parsed = Parsed(files: seq<Received>, rest: Bytes, complete: bool)

  function Prepend(files: seq<Received>, p: Parsed): Parsed { p.(files := files + p.files) }

  /** What the receiver makes of a stream that ends after its last byte. */
  function Parse(codec: Codec, s: Bytes): Parsed
    decreases |s|
  {
    if s == [] then Parsed([], [], true)        // b'' is taken like the end flag
    else if s[0] == 0 then Parsed([], s[1..], true)
    else
      match ReadRecord(codec, s[1..])
      case Cut => Parsed([], [], false)
      case Short(got) => Parsed([got], [], false)
      case Whole(got, rest) => Prepend([got], Parse(codec, rest))
  }

  /** `calculate_chunk_size` over exact rationals: 64 KiB up to 1 KiB, 2 MiB from 10 GiB on,
      and between them the straight line, cut down to a multiple of 1024. */
  function CalculateChunkSize(fileSize: nat): (c: nat)
    ensures 64 * 1024 <= c <= 2 * 0x10_0000 && c % 1024 == 0
    ensures fileSize <= 1024 ==> c == 65536
    ensures fileSize >= 0x2_8000_0000 ==> c == 0x20_0000
    ensures var span := 0x2_8000_0000 - 1024; 1024 < fileSize < 0x2_8000_0000 ==>
      c * span <= 65536 * span + 2031616 * (fileSize - 1024) < (c + 1024) * span
  {
    var minSize, maxSize := 64 * 1024, 2 * 0x10_0000;
    var minFile, maxFile := 1024, 10 * 0x4000_0000;
    if fileSize <= minFile then minSize
    else if fileSize >= maxFile then maxSize
    else
      var span := maxFile - minFile;
      var scaled := minSize * span + (maxSize - minSize) * (fileSize - minFile);
      ChunkBounds(fileSize - minFile, span);
      scaled / (1024 * span) * 1024
  }

  lemma ChunkBounds(x: nat, span: nat)
    requires 0 < x < span
    ensures var scaled := 65536 * span + 2031616 * x; 64 <= scaled / (1024 * span) <= 2048
  {
    var scaled, unit := 65536 * span + 2031616 * x, 1024 * span;
    assert 64 * unit <= scaled < 2048 * unit;
    QuotientBounds(scaled, unit, 64, 2048);
  }

  lemma QuotientBounds(a: nat, unit: nat, lo: nat, hi: nat)
    requires unit > 0 && lo * unit <= a < hi * unit
    ensures lo <= a / unit <= hi
  {
    var q := a / unit;
    assert a == q * unit + a % unit;
    assert q < lo ==> (q + 1) * unit <= lo * unit;
    assert q > hi ==> hi * unit <= q * unit;
  }

  class Sender {
    const codec: Codec
    var files: seq<Source>
    var currentIndex: nat
    var sent: Bytes             // all bytes handed to `send_func`

    constructor (codec: Codec, files: seq<Source>)
      ensures this.codec == codec && this.files == files && currentIndex == 0 && sent == []
    {
      this.codec, this.files := codec, files;
      currentIndex, sent := 0, [];
    }

    method SendFileItem(item: Item)
      modifies this`sent
      ensures sent == old(sent) + Header(codec, item)
    {
      sent := sent + [1];
      var packed := codec.dump(item);
      sent := sent + (Pack(4, |packed|) + packed);
    }

    /** `send_actual_file`: chunk by chunk from the start offset to the end. */
    method SendActualFile(index: nat)
      requires index < |files|
      requires 0 < files[index].item.size == |files[index].content| && files[index].item.seeked <= files[index].item.size
      modifies this`sent, this`files
      ensures sent == old(sent) + Body(old(files)[index])
      ensures files == old(files)[index := Source(old(files[index].item).(seeked := old(files[index].item).size),
                                                   old(files[index]).content)]
    {
      var f := files[index];
      var chunkSize := CalculateChunkSize(f.item.size);
      var seek, offset := f.item.seeked, f.item.seeked;
      while offset < f.item.size
        invariant f.item.seeked <= seek <= f.item.size
        invariant seek == if offset < f.item.size then offset else f.item.size
        invariant sent == old(sent) + f.content[f.item.seeked..seek]
        invariant files == old(files)[index := Source(f.item.(seeked := seek), f.content)]
        decreases f.item.size - offset
      {
        var end := if offset + chunkSize < |f.content| then offset + chunkSize else |f.content|;
        var chunk := f.content[offset..end];
        assert f.content[f.item.seeked..seek] + chunk == f.content[f.item.seeked..end];
        sent := sent + chunk;
        seek := seek + |chunk|;
        files := files[index := Source(f.item.(seeked := seek), f.content)];
        offset := offset + chunkSize;
      }
      assert f.content[f.item.seeked..seek] == f.content[f.item.seeked..];
    }

    method SendFiles()
      requires currentIndex <= |files| && forall f :: f in files ==> Sendable(codec, f)
      modifies this
      ensures sent == old(sent) + Encode(codec, old(files)[old(currentIndex)..])
    {
      ghost var all, start := files, currentIndex;
      var index := currentIndex;
      while index < |files|
        invariant start <= index <= |files| == |all|
        invariant files[index..] == all[index..]
        invariant sent + Encode(codec, all[index..]) == old(sent) + Encode(codec, all[start..])
        decreases |files| - index
      {
        currentIndex := index;
        EncodeStep(codec, all, index, sent);
        assert files[index] == files[index..][0] == all[index];
        SendFileItem(files[index].item);
        ghost var before := files;
        assert Sendable(codec, all[index]);
        SendActualFile(index);
        assert files[index + 1..] == before[index..][1..] == all[index + 1..];
        index := index + 1;
      }
      assert all[index..] == [];
      sent := sent + [0];
    }
  }

  lemma EncodeStep(codec: Codec, files: seq<Source>, i: nat, sent: Bytes)
    requires i < |files|
    ensures sent + Encode(codec, files[i..])
         == sent + Header(codec, files[i].item) + Body(files[i]) + Encode(codec, files[i + 1..])
  {
    assert files[i..][1..] == files[i + 1..];
  }

  /** `recv_file_contents`: short reads until the file is full or the peer is gone. */
  method RecvFileContents(sock: Socket, remaining: nat, chunkSize: nat) returns (data: Bytes)
    requires chunkSize > 0
    modifies sock
    ensures var n := if remaining < |old(sock.pending)| then remaining else |old(sock.pending)|;
            data == old(sock.pending)[..n] && sock.pending == old(sock.pending)[n..]
  {
    data := [];
    var left := remaining;
    while left > 0
      invariant left + |data| == remaining && data + sock.pending == old(sock.pending)
      invariant 0 <= left <= remaining
      decreases left, sock.stalls
    {
      var r := sock.Recv(if chunkSize < left then chunkSize else left);
      if r.Data? {
        if r.bytes == [] {
          assert |sock.pending| == 0 && data == old(sock.pending);
          break;
        }
        data := data + r.bytes;
        left := left - |r.bytes|;
      }
    }
    assert left == 0 || sock.pending == [];
    assert data == old(sock.pending)[..|data|] && sock.pending == old(sock.pending)[|data|..];
  }

  class Receiver {
    const codec: Codec
    var fileItems: seq<Received>

    constructor (codec: Codec)
      ensures this.codec == codec && fileItems == []
    {
      this.codec, fileItems := codec, [];
    }

    /** `_recv_file_once` behind the code byte; false is TransferIncomplete. */
    method RecvFileOnce(sock: Socket) returns (ok: bool)
      modifies this, sock
      ensures match ReadRecord(codec, old(sock.pending))
        case Cut => !ok && sock.pending == [] && fileItems == old(fileItems)
        case Short(got) => !ok && sock.pending == [] && fileItems == old(fileItems) + [got]
        case Whole(got, rest) => ok && sock.pending == rest && fileItems == old(fileItems) + [got]
    {
      var got, length := ReadExactly(sock, 4);
      if !got { return false; }
      var got', raw := ReadExactly(sock, Unpack(length));
      if !got' { return false; }
      var item := codec.load(raw);
      ghost var body := sock.pending;
      var data := RecvFileContents(sock, item.Remaining(), CalculateChunkSize(item.size));
      assert |body| <= item.Remaining() ==> data == body;
      fileItems := fileItems + [Received(item, data)];
      ok := |data| == item.Remaining();
    }

    /** `recv_files` */
    method RecvFiles(sock: Socket) returns (complete: bool)
      modifies this, sock
      ensures Parsed(fileItems, sock.pending, complete) == Prepend(old(fileItems), Parse(codec, old(sock.pending)))
    {
      while true
        invariant Prepend(fileItems, Parse(codec, sock.pending)) == Prepend(old(fileItems), Parse(codec, old(sock.pending)))
        decreases |sock.pending|
      {
        ParseStep(codec, sock.pending, fileItems);
        var got, what := ReadExactly(sock, 1);
        if !got { return true; }
        if what == [0] { return true; }
        var ok := RecvFileOnce(sock);
        if !ok { return false; }
      }
    }
  }

  /** What one round of the loop has to leave behind. */
  lemma ParseStep(codec: Codec, s: Bytes, files: seq<Received>)
    ensures s == [] ==> Prepend(files, Parse(codec, s)) == Parsed(files, [], true)
    ensures s != [] && s[0] == 0 ==> Prepend(files, Parse(codec, s)) == Parsed(files, s[1..], true)
    ensures s != [] && s[0] != 0 ==>
      var p, r := Prepend(files, Parse(codec, s)), ReadRecord(codec, s[1..]);
      && (r.Cut? ==> p == Parsed(files, [], false))
      && (r.Short? ==> p == Parsed(files + [r.got], [], false))
      && (r.Whole? ==> p == Prepend(files + [r.got], Parse(codec, r.rest)))
  {
    assert files + [] == files;
    if s != [] && s[0] != 0 && ReadRecord(codec, s[1..]).Whole? {
      var r := ReadRecord(codec, s[1..]);
      PrependTwice(files, [r.got], Parse(codec, r.rest));
    }
  }

  lemma PrependTwice(a: seq<Received>, b: seq<Received>, p: Parsed)
    ensures Prepend(a, Prepend(b, p)) == Prepend(a + b, p)
  {
    assert a + (b + p.files) == (a + b) + p.files;
  }

  /** What should arrive. */
  function Expected(files: seq<Source>): seq<Received> {
    if files == [] then [] else [Received(files[0].item, Body(files[0]))] + Expected(files[1..])
  }

  /** Sender composed with receiver: the same items with the same contents in the
      same order, and not a byte behind the end flag is touched. */
  lemma TransferRoundTrip(codec: Codec, files: seq<Source>, rest: Bytes)
    requires forall f :: f in files ==> Sendable(codec, f)
    ensures Parse(codec, Encode(codec, files) + rest) == Parsed(Expected(files), rest, true)
  {
    OnlyFlagMissing(codec, files);
    assert Encode(codec, files) + rest == Unfinished(codec, files) + ([0] + rest);
    ParseBehind(codec, files, [0] + rest);
    AnyOtherCode(codec, 0, rest);
  }

  /** Both ends, over a socket that may stall and cut reads short as it likes. */
  method Transfer(codec: Codec, files: seq<Source>, behind: Bytes, stalls: nat)
    returns (items: seq<Received>, left: Bytes, complete: bool)
    requires forall f :: f in files ==> Sendable(codec, f)
    ensures items == Expected(files) && left == behind && complete
  {
    var sender := new Sender(codec, files);
    sender.SendFiles();
    assert files[0..] == files && sender.sent == Encode(codec, files);
    TransferRoundTrip(codec, files, behind);
    var sock := new Socket(sender.sent + behind, stalls);
    var receiver := new Receiver(codec);
    complete := receiver.RecvFiles(sock);
    return receiver.fileItems, sock.pending, complete;
  }

  lemma RecordRoundTrip(codec: Codec, f: Source, rest: Bytes)
    requires Sendable(codec, f)
    ensures Parse(codec, RecordOf(codec, f) + rest)
         == Prepend([Received(f.item, Body(f))], Parse(codec, rest))
  {
    var packed := codec.dump(f.item);
    BehindCode(1, Pack(4, |packed|), packed, Body(f), rest);
    ReadRecordBack(codec, f, rest);
  }

  lemma BehindCode(code: Byte, a: Bytes, b: Bytes, c: Bytes, d: Bytes)
    ensures var s := [code] + a + b + c + d; s[0] == code && s[1..] == a + (b + (c + d))
  {
  }

  lemma ReadRecordBack(codec: Codec, f: Source, rest: Bytes)
    requires Sendable(codec, f)
    ensures ReadRecord(codec, Pack(4, |codec.dump(f.item)|) + (codec.dump(f.item) + (Body(f) + rest)))
         == Whole(Received(f.item, Body(f)), rest)
  {
    AnnouncedItem(codec, codec.dump(f.item), Body(f) + rest);
    Halves(Body(f), rest);
  }

  lemma Halves(a: Bytes, b: Bytes)
    ensures (a + b)[..|a|] == a && (a + b)[|a|..] == b
  {
  }

  /** The stream without its end flag. */
  function Unfinished(codec: Codec, files: seq<Source>): Bytes {
    if files == [] then [] else RecordOf(codec, files[0]) + Unfinished(codec, files[1..])
  }

  /** The header behind the code byte is read as announced; of the contents, what is there,
      up to the size. Whatever the item says, and whoever wrote it. */
  lemma AnnouncedItem(codec: Codec, d: Bytes, t: Bytes)
    requires |d| < UINT32_LIMIT
    ensures var item := codec.load(d);
      ReadRecord(codec, Pack(4, |d|) + (d + t)) ==
        if |t| < item.Remaining() then Short(Received(item, t))
        else Whole(Received(item, t[..item.Remaining()]), t[item.Remaining()..])
  {
    Widths();
    UnpackPack(4, |d|);
    Halves(Pack(4, |d|), d + t);
    Halves(d, t);
  }

  /** A header that is cut gives no item. */
  lemma CutHeader(codec: Codec, d: Bytes, cut: nat)
    requires |d| < UINT32_LIMIT && cut < 4 + |d|
    ensures ReadRecord(codec, (Pack(4, |d|) + d)[..cut]).Cut?
  {
    if cut >= 4 {
      Widths();
      UnpackPack(4, |d|);
      assert (Pack(4, |d|) + d)[..cut][..4] == Pack(4, |d|);
    }
  }

  /** Every code byte but the end flag announces a file. */
  lemma AnyOtherCode(codec: Codec, code: Byte, t: Bytes)
    ensures code != 0 ==> Parse(codec, [code] + t) == Parse(codec, [1] + t)
    ensures code == 0 ==> Parse(codec, [code] + t) == Parsed([], t, true)
  {
    assert ([code] + t)[1..] == t == ([1] + t)[1..];
  }

  /** The bytes of one transfer: per file the code byte, the length in network byte order,
      the item and what is left of the contents; a zero byte at the end. */
  lemma StreamFormat(codec: Codec, f: Source, files: seq<Source>)
    requires Sendable(codec, f)
    ensures var d := codec.dump(f.item); var n := |d|;
      Encode(codec, [f] + files) == [1, n / 0x100_0000, n / 0x1_0000 % 256, n / 256 % 256, n % 256] + d
                                    + f.content[f.item.seeked..] + Encode(codec, files)
    ensures Encode(codec, []) == [0]
  {
    var d, rest := codec.dump(f.item), Encode(codec, files);
    LengthPrefix(|d|);
    assert ([f] + files)[1..] == files;
    assert Header(codec, f.item) == [1] + Pack(4, |d|) + d;
  }

  /** What a cut leaves of one record: nothing if the header is cut, otherwise the item with
      the bytes before the cut. */
  function CutRecord(codec: Codec, f: Source, cut: nat): seq<Received> {
    var header := |Header(codec, f.item)|;
    if cut < header || cut - header > |Body(f)| then [] else [Received(f.item, Body(f)[..cut - header])]
  }

  /** A record that is cut is never taken for a complete transfer. */
  lemma CutInsideRecord(codec: Codec, f: Source, cut: nat)
    requires Sendable(codec, f) && 0 < cut < |RecordOf(codec, f)|
    ensures Parse(codec, RecordOf(codec, f)[..cut]) == Parsed(CutRecord(codec, f, cut), [], false)
  {
    var packed := codec.dump(f.item);
    var length := Pack(4, |packed|);
    CutTail(length, packed, Body(f), cut);
    if cut < 5 + |packed| {
      CutHeader(codec, packed, cut - 1);
      assert (length + packed + Body(f))[..cut - 1] == (length + packed)[..cut - 1];
    } else {
      var part := Body(f)[..cut - 5 - |packed|];
      AnnouncedItem(codec, packed, part);
      assert (length + packed + Body(f))[..cut - 1] == length + (packed + part);
    }
  }

  lemma CutTail(a: Bytes, b: Bytes, c: Bytes, cut: nat)
    requires 0 < cut < |[1] + a + b + c|
    ensures var s := ([1] + a + b + c)[..cut]; s[0] == 1 && s[1..] == (a + b + c)[..cut - 1]
  {
    var s, whole := ([1] + a + b + c)[..cut], a + b + c;
    assert [1] + a + b + c == [1] + whole;
    assert s[1..] == whole[..cut - 1];
  }

  lemma UnfinishedStep(codec: Codec, files: seq<Source>, k: nat)
    requires 0 < k <= |files|
    ensures |Unfinished(codec, files[..k])| == |RecordOf(codec, files[0])| + |Unfinished(codec, files[1..][..k - 1])|
  {
    assert files[..k][1..] == files[1..][..k - 1];
  }

  /** Where a stream can be cut off between two files. */
  ghost predicate Boundary(codec: Codec, files: seq<Source>, cut: nat) {
    exists k :: 0 <= k <= |files| && cut == |Unfinished(codec, files[..k])|
  }

  lemma BoundaryShift(codec: Codec, files: seq<Source>, cut: nat)
    requires files != []
    ensures var first := |RecordOf(codec, files[0])|;
      Boundary(codec, files, cut) <==> cut == 0 || (cut >= first && Boundary(codec, files[1..], cut - first))
  {
    var first := |RecordOf(codec, files[0])|;
    if Boundary(codec, files, cut) {
      var k :| 0 <= k <= |files| && cut == |Unfinished(codec, files[..k])|;
      if k > 0 {
        UnfinishedStep(codec, files, k);
        assert cut - first == |Unfinished(codec, files[1..][..k - 1])|;
      }
    }
    if cut == 0 { assert cut == |Unfinished(codec, files[..0])|; }
    if cut >= first && Boundary(codec, files[1..], cut - first) {
      var k :| 0 <= k <= |files[1..]| && cut - first == |Unfinished(codec, files[1..][..k])|;
      UnfinishedStep(codec, files, k + 1);
      assert cut == |Unfinished(codec, files[..k + 1])|;
    }
  }

  /** The end of the stream is read like the end flag, so a transfer that is cut off is
      reported complete if and only if the cut falls between two files, before the first or
      behind the last. */
  lemma {:induction false} CutLooksComplete(codec: Codec, files: seq<Source>, cut: nat)
    requires forall f :: f in files ==> Sendable(codec, f)
    requires cut < |Encode(codec, files)|
    ensures Parse(codec, Encode(codec, files)[..cut]).complete <==> Boundary(codec, files, cut)
  {
    if files == [] {
      assert cut == |Unfinished(codec, files[..0])|;
    } else {
      var record, rest := RecordOf(codec, files[0]), Encode(codec, files[1..]);
      BoundaryShift(codec, files, cut);
      if cut >= |record| {
        CutLooksComplete(codec, files[1..], cut - |record|);
        RecordRoundTrip(codec, files[0], rest[..cut - |record|]);
        assert (record + rest)[..cut] == record + rest[..cut - |record|];
      } else if cut > 0 {
        CutInsideRecord(codec, files[0], cut);
        assert (record + rest)[..cut] == record[..cut];
      }
    }
  }

  /** What such a transfer delivers: the files before the cut, and no sign of the others. */
  lemma CutBetweenFilesDelivers(codec: Codec, files: seq<Source>, k: nat)
    requires k <= |files| && forall f :: f in files ==> Sendable(codec, f)
    ensures Unfinished(codec, files[..k]) <= Encode(codec, files) == Unfinished(codec, files) + [0]
    ensures Parse(codec, Unfinished(codec, files[..k])) == Parsed(Expected(files[..k]), [], true)
  {
    EncodeSplit(codec, files, k);
    OnlyFlagMissing(codec, files);
    ParseBehind(codec, files[..k], []);
    assert Unfinished(codec, files[..k]) + [] == Unfinished(codec, files[..k]);
  }

  /** A cut inside the record of file number `k`: the files before it are there, and of this
      one what its cut record shows. The transfer is incomplete. */
  lemma CutInsideFileDelivers(codec: Codec, files: seq<Source>, k: nat, inside: nat)
    requires k < |files| && forall f :: f in files ==> Sendable(codec, f)
    requires 0 < inside < |RecordOf(codec, files[k])|
    ensures var cut := |Unfinished(codec, files[..k])| + inside;
      && cut < |Encode(codec, files)|
      && Parse(codec, Encode(codec, files)[..cut])
           == Parsed(Expected(files[..k]) + CutRecord(codec, files[k], inside), [], false)
  {
    EncodeSplit(codec, files, k);
    CutInsideFirst(codec, files[k..], inside);
    CutBehind(codec, files[..k], Encode(codec, files[k..]), inside);
  }

  lemma CutBehind(codec: Codec, files: seq<Source>, t: Bytes, cut: nat)
    requires cut <= |t| && forall f :: f in files ==> Sendable(codec, f)
    ensures Parse(codec, (Unfinished(codec, files) + t)[..|Unfinished(codec, files)| + cut])
         == Prepend(Expected(files), Parse(codec, t[..cut]))
  {
    ParseBehind(codec, files, t[..cut]);
    assert (Unfinished(codec, files) + t)[..|Unfinished(codec, files)| + cut] == Unfinished(codec, files) + t[..cut];
  }

  lemma CutInsideFirst(codec: Codec, files: seq<Source>, cut: nat)
    requires files != [] && Sendable(codec, files[0]) && 0 < cut < |RecordOf(codec, files[0])|
    ensures cut < |Encode(codec, files)|
    ensures Parse(codec, Encode(codec, files)[..cut]) == Parsed(CutRecord(codec, files[0], cut), [], false)
  {
    var record, rest := RecordOf(codec, files[0]), Encode(codec, files[1..]);
    assert (record + rest)[..cut] == record[..cut];
    CutInsideRecord(codec, files[0], cut);
  }

  lemma {:induction false} OnlyFlagMissing(codec: Codec, files: seq<Source>)
    ensures Encode(codec, files) == Unfinished(codec, files) + [0]
  {
    if files != [] { OnlyFlagMissing(codec, files[1..]); }
  }

  lemma {:induction false} EncodeSplit(codec: Codec, files: seq<Source>, k: nat)
    requires k <= |files|
    ensures Encode(codec, files) == Unfinished(codec, files[..k]) + Encode(codec, files[k..])
  {
    if k == 0 {
      assert files[0..] == files;
    } else {
      EncodeSplit(codec, files[1..], k - 1);
      assert files[..k][1..] == files[1..][..k - 1] && files[1..][k - 1..] == files[k..];
      Regroup(RecordOf(codec, files[0]), Unfinished(codec, files[1..][..k - 1]), Encode(codec, files[k..]));
    }
  }

  lemma Regroup(a: Bytes, b: Bytes, c: Bytes)
    ensures (a + b) + c == a + (b + c)
  {
  }

  /** What follows a number of whole records is read as if they had not been there. */
  lemma {:induction false} ParseBehind(codec: Codec, files: seq<Source>, t: Bytes)
    requires forall f :: f in files ==> Sendable(codec, f)
    ensures Parse(codec, Unfinished(codec, files) + t) == Prepend(Expected(files), Parse(codec, t))
  {
    if files == [] {
      assert Unfinished(codec, files) + t == t && [] + Parse(codec, t).files == Parse(codec, t).files;
    } else {
      var rest := Unfinished(codec, files[1..]) + t;
      ParseBehind(codec, files[1..], t);
      RecordRoundTrip(codec, files[0], rest);
      assert Unfinished(codec, files) + t == RecordOf(codec, files[0]) + rest;
      PrependTwice([Received(files[0].item, Body(files[0]))], Expected(files[1..]), Parse(codec, t));
    }
  }
}
