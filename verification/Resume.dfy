/** One file over several connections: each new connection restarts the sender's content
    loop at the receiver's `seeked` (src/transfers/files/sender.py:99-103, 178-191;
    src/transfers/files/receiver.py:144, 216-251). */
module Resume {
  import opened Arithmetic
  import opened Octets
  import opened Wire
  import opened FileTransfer

  datatype Disk = Missing | File(content: Bytes)

  datatype Outcome = Completed | Incomplete | Interrupted | FileExists | FileNotFound

  /** `fd.write(data)` with the file position at `pos`; a gap is filled with zeros. */
  function WriteAt(f: Bytes, pos: nat, data: Bytes): (g: Bytes)
    ensures |g| == Max(|f|, pos + |data|) && g[pos..pos + |data|] == data
    ensures forall i :: 0 <= i < |f| && !(pos <= i < pos + |data|) ==> g[i] == f[i]
  {
    var padded := if |f| < pos then f + seq(pos - |f|, _ => 0) else f;
    if |padded| <= pos + |data| then padded[..pos] + data
    else padded[..pos] + data + padded[pos + |data|..]
  }

  predicate IsPrefix(s: Bytes, t: Bytes) { |s| <= |t| && s == t[..|s|] }

  /** Writing what belongs there keeps a prefix a prefix. */
  lemma WriteKeepsPrefix(f: Bytes, source: Bytes, pos: nat, data: Bytes)
    requires IsPrefix(f, source) && pos <= |f| && IsPrefix(data, source[pos..])
    ensures IsPrefix(WriteAt(f, pos, data), source)
  {
    var g := WriteAt(f, pos, data);
    assert forall i :: 0 <= i < |data| ==> data[i] == source[pos..][i] == source[pos + i];
    if |f| <= pos + |data| {
      assert g == f[..pos] + data;
      forall i | 0 <= i < |g| ensures g[i] == source[i] {
        if i >= pos { assert g[i] == data[i - pos]; }
      }
    } else {
      assert g == f[..pos] + data + f[pos + |data|..];
      forall i | 0 <= i < |g| ensures g[i] == source[i] {
        if pos <= i < pos + |data| { assert g[i] == data[i - pos]; }
      }
    }
  }

  lemma PrefixSplit(source: Bytes, at: nat, a: Bytes, b: Bytes)
    requires at <= |source| && IsPrefix(a + b, source[at..])
    ensures IsPrefix(a, source[at..]) && IsPrefix(b, source[at + |a|..])
  {
    var rest := source[at..];
    assert a == (a + b)[..|a|] == rest[..|a + b|][..|a|] == rest[..|a|];
    assert b == (a + b)[|a|..] == rest[..|a + b|][|a|..] == source[at + |a|..][..|b|];
  }

  class Download {
    ghost const source: Bytes      // what the sender has on disk
    const size: nat
    var disk: Disk
    var seeked: nat

    /** Where the furthest write ended whose `seeked` was never brought up to date. */
    ghost var torn: nat

    /** On disk is a prefix of the source: as long as `seeked` says, or up to the end of the
        furthest write that an interruption cut off from its update of `seeked`. */
    ghost predicate Valid()
      reads this
    {
      && 0 < size == |source| && seeked <= size
      && match disk
         case Missing => seeked == 0 && torn == 0
         case File(f) => |f| == Max(seeked, torn) && IsPrefix(f, source)
    }

    /** The file is as long as `seeked` says. */
    predicate Exact()
      reads this
    {
      disk.File? ==> |disk.content| == seeked
    }

    /** The file exists, but `seeked` still says that nothing was received. */
    predicate Wedged()
      reads this
    {
      seeked == 0 && disk.File?
    }

    constructor (ghost source: Bytes, size: nat)
      requires 0 < size == |source|
      ensures this.source == source && this.size == size && disk == Missing && seeked == 0 && torn == 0 && Valid()
    {
      this.source, this.size, disk, seeked, torn := source, size, Missing, 0, 0;
    }

    /** The `open` of `_setup_transfer`: 'xb' for a fresh file, 'rb+' for a resumed one. */
    method Open() returns (error: Outcome)
      requires Valid()
      modifies this
      ensures Valid() && seeked == old(seeked) && torn == old(torn)
      ensures error == if old(Wedged()) then FileExists else Completed
      ensures disk == if old(disk).Missing? then File([]) else old(disk)
    {
      if seeked == 0 {
        if disk.File? { return FileExists; }
        disk := File([]);
      } else if disk.Missing? {
        return FileNotFound;
      }
      error := Completed;
    }

    /** A write whose bytes are then counted, or a part of one that is cut off. */
    method Write(data: Bytes, counted: bool)
      requires Valid() && disk.File? && IsPrefix(data, source[seeked..])
      modifies this
      ensures Valid() && disk.File?
      ensures disk == File(WriteAt(old(disk).content, old(seeked), data))
      ensures seeked == if counted then old(seeked) + |data| else old(seeked)
      ensures torn == if counted then old(torn) else Max(old(torn), seeked + |data|)
    {
      WriteKeepsPrefix(disk.content, source, seeked, data);
      disk := File(WriteAt(disk.content, seeked, data));
      if counted { seeked := seeked + |data|; } else { torn := Max(torn, seeked + |data|); }
    }

    /** Received bytes are written and counted, or an interruption falls into that. */
    method Store(data: Bytes, mayInterrupt: bool) returns (interrupted: bool, end: nat)
      requires Valid() && disk.File? && IsPrefix(data, source[seeked..])
      modifies this
      ensures Valid() && disk.File? && seeked == if interrupted then old(seeked) else old(seeked) + |data|
      ensures torn == if interrupted then Max(old(torn), end) else old(torn)
      ensures interrupted ==> mayInterrupt && seeked <= end <= seeked + |data|
    {
      interrupted, end := *, 0;
      interrupted := interrupted && mayInterrupt;
      if interrupted {
        var written :| 0 <= written <= |data|;
        end := seeked + written;
        Write(data[..written], false);
      } else {
        Write(data, true);
      }
    }

    /** `recv_file_contents` on one connection, which the peer may cut anywhere and which
        may be interrupted here at any await, also with a write done in part; `end` is where
        such a write ended. */
    method RecvFileContents(sock: Socket, chunkSize: nat, mayInterrupt: bool) returns (outcome: Outcome, end: nat)
      requires Valid() && chunkSize > 0 && IsPrefix(sock.pending, source[seeked..])
      modifies this, sock
      ensures Valid() && disk.File? && old(seeked) <= seeked <= old(seeked) + |old(sock.pending)|
      ensures torn == Max(old(torn), end) && (!outcome.Interrupted? ==> end == 0)
      ensures outcome.Interrupted? ==> mayInterrupt && seeked <= end <= old(seeked) + |old(sock.pending)|
      ensures old(Exact()) && !outcome.Interrupted? ==> Exact()
      ensures outcome.FileExists? <==> old(Wedged())
      ensures outcome.FileExists? ==> disk == old(disk) && seeked == 0
      ensures outcome.Completed? ==> disk == File(source) && seeked == size
      ensures outcome.Incomplete? ==> seeked == old(seeked) + |old(sock.pending)| < size
      ensures !outcome.FileNotFound?
    {
      end := 0;
      var error := Open();
      if error != Completed { return error, 0; }
      var remaining := size - seeked;
      while remaining > 0
        invariant Valid() && disk.File? && torn == old(torn) && seeked == size - remaining >= old(seeked)
        invariant IsPrefix(sock.pending, source[seeked..])
        invariant seeked + |sock.pending| == old(seeked) + |old(sock.pending)|
        decreases remaining, sock.stalls
      {
        var r := sock.Recv(if chunkSize < remaining then chunkSize else remaining);
        if r.Data? {
          if r.bytes == [] {
            assert |sock.pending| == 0;
            return Incomplete, 0;
          }
          PrefixSplit(source, seeked, r.bytes, sock.pending);
          var interrupted, stop := Store(r.bytes, mayInterrupt);
          if interrupted { return Interrupted, stop; }
          remaining := remaining - |r.bytes|;
        }
      }
      outcome := Completed;
    }
  }

  /** What one connection makes of the counted bytes: all of the file if the cut leaves enough,
      otherwise the bytes before the cut; at most these if it is interrupted. */
  predicate Advances(size: nat, before: nat, cut: nat, mayInterrupt: bool, outcome: Outcome, after: nat) {
    match outcome
    case Completed => after == size <= before + cut
    case Incomplete => after == before + cut < size
    case Interrupted => mayInterrupt && before <= after <= before + cut
    case FileExists => before == after == 0
    case FileNotFound => false
  }

  /** One connection: the receiver announces `seeked` in 8 bytes, the sender runs its
      content loop from there, and the first `cut` bytes of that arrive. */
  method ResumeOnce(d: Download, content: Bytes, cut: nat, mayInterrupt: bool, codec: Codec)
    returns (outcome: Outcome, end: nat)
    requires d.Valid() && d.source == content && |content| < UINT64_LIMIT
    modifies d
    ensures d.Valid() && d.disk.File? && old(d.seeked) <= d.seeked <= old(d.seeked) + cut
    ensures d.torn == Max(old(d.torn), end) && (!outcome.Interrupted? ==> end == 0)
    ensures old(d.Exact()) && !outcome.Interrupted? ==> d.Exact()
    ensures outcome.FileExists? <==> old(d.Wedged())
    ensures outcome.FileExists? ==> d.disk == old(d.disk) && d.seeked == old(d.seeked)
    ensures outcome.Completed? ==> d.disk == File(content) && d.seeked == |content|
    ensures Advances(|content|, old(d.seeked), cut, mayInterrupt, outcome, d.seeked)
  {
    var announced := Pack(8, d.seeked);
    Widths();
    UnpackPack(8, d.seeked);
    var sender := new Sender(codec, [Source(Item("", |content|, Unpack(announced)), content)]);
    sender.SendActualFile(0);
    assert sender.sent == content[d.seeked..];
    var sock := new Socket(if cut < |sender.sent| then sender.sent[..cut] else sender.sent, 0);
    outcome, end := d.RecvFileContents(sock, CalculateChunkSize(|content|), mayInterrupt);
  }

  function Furthest(ends: seq<nat>): nat {
    if ends == [] then 0 else Max(Furthest(ends[..|ends| - 1]), ends[|ends| - 1])
  }

  /** A connection is refused if and only if it is not the first and the one before left
      nothing counted; then it counts nothing either. */
  predicate Refused(outcomes: seq<Outcome>, counts: seq<nat>) {
    |outcomes| == |counts| && forall k :: 0 <= k < |outcomes| ==> RefusedAt(outcomes, counts, k)
  }

  predicate RefusedAt(outcomes: seq<Outcome>, counts: seq<nat>, k: nat)
    requires k < |outcomes| == |counts|
  {
    && (outcomes[k].FileExists? <==> k > 0 && counts[k - 1] == 0)
    && (outcomes[k].FileExists? ==> counts[k] == 0)
  }

  lemma RefusedStep(outcomes: seq<Outcome>, counts: seq<nat>, o: Outcome, c: nat)
    requires Refused(outcomes, counts) && (o.FileExists? ==> c == 0)
    requires o.FileExists? <==> |counts| > 0 && counts[|counts| - 1] == 0
    ensures Refused(outcomes + [o], counts + [c])
  {
    var outcomes', counts' := outcomes + [o], counts + [c];
    forall k | 0 <= k < |outcomes'| ensures RefusedAt(outcomes', counts', k) {
      if k < |outcomes| { assert RefusedAt(outcomes, counts, k); }
    }
  }

  lemma {:induction false} RefusedEverAfter(outcomes: seq<Outcome>, counts: seq<nat>, i: nat, j: nat)
    requires Refused(outcomes, counts) && i < j < |outcomes| && outcomes[i].FileExists?
    ensures outcomes[j].FileExists?
  {
    if i + 1 < j { RefusedEverAfter(outcomes, counts, i, j - 1); }
    assert RefusedAt(outcomes, counts, j - 1) && RefusedAt(outcomes, counts, j);
  }

  /** What is counted when connection number `k` starts. */
  function CountBefore(counts: seq<nat>, k: nat): nat
    requires k <= |counts|
  {
    if k == 0 then 0 else counts[k - 1]
  }

  predicate AdvancesAt(size: nat, cuts: seq<nat>, interrupts: seq<bool>, outcomes: seq<Outcome>, counts: seq<nat>, k: nat)
    requires k < |outcomes| == |counts| <= |cuts| == |interrupts|
  {
    Advances(size, CountBefore(counts, k), cuts[k], interrupts[k], outcomes[k], counts[k])
  }

  /** The connections one after the other. */
  predicate Advanced(size: nat, cuts: seq<nat>, interrupts: seq<bool>, outcomes: seq<Outcome>, counts: seq<nat>) {
    && |outcomes| == |counts| <= |cuts| == |interrupts|
    && forall k :: 0 <= k < |outcomes| ==> AdvancesAt(size, cuts, interrupts, outcomes, counts, k)
  }

  lemma AdvancedStep(size: nat, cuts: seq<nat>, interrupts: seq<bool>, outcomes: seq<Outcome>, counts: seq<nat>, o: Outcome, c: nat)
    requires Advanced(size, cuts, interrupts, outcomes, counts) && |outcomes| < |cuts|
    requires Advances(size, CountBefore(counts, |counts|), cuts[|counts|], interrupts[|counts|], o, c)
    ensures Advanced(size, cuts, interrupts, outcomes + [o], counts + [c])
  {
    forall k | 0 <= k < |outcomes| + 1 ensures AdvancesAt(size, cuts, interrupts, outcomes + [o], counts + [c], k) {
      if k < |outcomes| { assert AdvancesAt(size, cuts, interrupts, outcomes, counts, k); }
    }
  }

  predicate NoneInterrupted(outcomes: seq<Outcome>) { forall o :: o in outcomes ==> !o.Interrupted? }

  /** Any number of connections, each of which carries only the first `cuts[i]` bytes of
      what the sender sends after it learnt the receiver's `seeked`; `interrupts[i]` says
      whether it can be interrupted at the receiver. After connection i the
      receiver counts `counts[i]` bytes, and `ends[i]` is the end of its interrupted write,
      0 when it was not interrupted. The file is the source prefix of the length that is
      counted, or of the end of the furthest interrupted write if that is more; without an
      interruption it is exactly what is counted. A connection is refused if and only if
      the one before left nothing counted, and then so are all later ones. */
  method ResumeSessions(content: Bytes, cuts: seq<nat>, interrupts: seq<bool>, codec: Codec)
    returns (disk: Disk, seeked: nat, outcomes: seq<Outcome>, counts: seq<nat>, ends: seq<nat>)
    requires 0 < |content| < UINT64_LIMIT && |interrupts| == |cuts|
    ensures |outcomes| == |counts| == |ends| == |cuts|
    ensures Advanced(|content|, cuts, interrupts, outcomes, counts)
    ensures (disk.File? <==> cuts != []) && (cuts != [] ==> seeked == counts[|cuts| - 1])
    ensures forall i :: 0 <= i < |ends| && !outcomes[i].Interrupted? ==> ends[i] == 0
    ensures disk.File? ==> IsPrefix(disk.content, content) && |disk.content| == Max(seeked, Furthest(ends))
    ensures disk.File? && NoneInterrupted(outcomes) ==>
              seeked <= |content| && disk.content == content[..seeked]
    ensures forall i :: 0 <= i < |outcomes| && outcomes[i].Completed? ==> disk == File(content) && seeked == |content|
    ensures Refused(outcomes, counts)
    ensures forall i, j :: 0 <= i < j < |outcomes| && outcomes[i].FileExists? ==> outcomes[j].FileExists?
    ensures |cuts| > 1 && cuts[0] == 0 ==> outcomes[1].FileExists?
  {
    var d := new Download(content, |content|);
    outcomes, counts, ends := [], [], [];
    for i := 0 to |cuts|
      invariant d.Valid() && d.source == content && fresh(d) && |outcomes| == |counts| == |ends| == i
      invariant (d.disk.File? <==> i > 0) && d.seeked == CountBefore(counts, i)
      invariant d.torn == Furthest(ends)
      invariant NoneInterrupted(outcomes) ==> d.Exact()
      invariant forall k :: 0 <= k < i && !outcomes[k].Interrupted? ==> ends[k] == 0
      invariant forall k :: 0 <= k < i && outcomes[k].Completed? ==> d.disk == File(content) && d.seeked == |content|
      invariant Refused(outcomes, counts) && Advanced(|content|, cuts, interrupts, outcomes, counts)
      invariant i > 0 && cuts[0] == 0 ==> counts[0] == 0
    {
      var outcome, end := ResumeOnce(d, content, cuts[i], interrupts[i], codec);
      RefusedStep(outcomes, counts, outcome, d.seeked);
      AdvancedStep(|content|, cuts, interrupts, outcomes, counts, outcome, d.seeked);
      outcomes, counts, ends := outcomes + [outcome], counts + [d.seeked], ends + [end];
      assert ends[..|ends| - 1] + [end] == ends;
      assert outcomes[..|outcomes| - 1] + [outcome] == outcomes;
    }
    forall k, l | 0 <= k < l < |outcomes| && outcomes[k].FileExists? ensures outcomes[l].FileExists? {
      RefusedEverAfter(outcomes, counts, k, l);
    }
    assert |cuts| > 1 ==> RefusedAt(outcomes, counts, 1);
    return d.disk, d.seeked, outcomes, counts, ends;
  }
}
