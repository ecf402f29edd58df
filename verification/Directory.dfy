/** A directory tree over one connection: records one way, one acknowledgement per file
    the other way (src/transfers/files/directory.py:79-129, 159-202). The two ends are
    steps over two channels; a read or a write of n bytes is n bytes in any portions. */
module Directory {
  import opened Octets

  datatype Parts = Parts(parent: string, name: string)

  datatype Entry = Folder(parts: Parts) | File(parts: Parts, content: Bytes)

  /** The msgpack coding of (parent, name), of which only `load(dump(x)) == x` is used. */
  datatype Codec = Codec(dump: Parts -> Bytes, load: Bytes -> Parts)

  const FILE_CODE: Byte := 1
  const PATH_CODE: Byte := 2

  function Code(e: Entry): Byte { if e.File? then FILE_CODE else PATH_CODE }

  /** `struct.pack` takes both lengths. */
  ghost predicate Packable(codec: Codec, e: Entry) {
    && |codec.dump(e.parts)| < UINT32_LIMIT && codec.load(codec.dump(e.parts)) == e.parts
    && (e.File? ==> |e.content| < UINT64_LIMIT)
  }

  /** What the sender writes for one item. */
  function Encode(codec: Codec, e: Entry): (s: Bytes)
    ensures |s| >= 5
  {
    var d := codec.dump(e.parts);
    [Code(e)] + Pack(4, |d|) + d + if e.File? then Pack(8, |e.content|) + e.content else []
  }

  /** The bytes of an item: code 1 for a file and 2 for a folder, the length of the parts in
      four bytes and the file size in eight, both in network byte order. */
  lemma ItemFormat(codec: Codec, e: Entry)
    requires Packable(codec, e)
    ensures var d := codec.dump(e.parts); var n := |d|;
      var length := [n / 0x100_0000, n / 0x1_0000 % 256, n / 256 % 256, n % 256];
      match e
      case Folder(_) => Encode(codec, e) == [2] + length + d
      case File(_, content) => Encode(codec, e) == [1] + length + d + Pack(8, |content|) + content
    ensures e.File? ==> forall i :: 0 <= i < 8 ==> Pack(8, |e.content|)[i] == |e.content| / Capacity(7 - i) % 256
  {
    LengthPrefix(|codec.dump(e.parts)|);
    if e.File? {
      forall i | 0 <= i < 8 ensures Pack(8, |e.content|)[i] == |e.content| / Capacity(7 - i) % 256 {
        PackAt(8, |e.content|, i);
      }
    }
  }

  /** What a read call of the receiver waits for, with what it has got so far. */
  datatype Phase =
    | AtCode
    | AtLength(code: Byte, acc: Bytes)
    | AtParts(code: Byte, need: nat, acc: Bytes)
    | AtSize(parts: Parts, acc: Bytes)
    | AtContent(parts: Parts, size: nat, acc: Bytes)
    | AckDue
    | Done

  datatype Receiver = Receiver(phase: Phase, records: seq<Entry>)

  function Finish(r: Receiver, e: Entry): Receiver {
    Receiver(if e.File? then AckDue else AtCode, r.records + [e])
  }

  function WithParts(r: Receiver, code: Byte, parts: Parts): Receiver {
    if code == FILE_CODE then r.(phase := AtSize(parts, [])) else Finish(r, Folder(parts))
  }

  /** The receiver takes one byte. */
  function OnByte(codec: Codec, r: Receiver, b: Byte): Receiver {
    match r.phase
    case AtCode =>
      if b == 0 then r.(phase := Done)
      else if b == FILE_CODE || b == PATH_CODE then r.(phase := AtLength(b, []))
      else r
    case AtLength(code, acc) =>
      if |acc| < 3 then r.(phase := AtLength(code, acc + [b]))
      else
        var need := Unpack(acc + [b]);
        if need == 0 then WithParts(r, code, codec.load([])) else r.(phase := AtParts(code, need, []))
    case AtParts(code, need, acc) =>
      if |acc| + 1 < need then r.(phase := AtParts(code, need, acc + [b]))
      else WithParts(r, code, codec.load(acc + [b]))
    case AtSize(parts, acc) =>
      if |acc| < 7 then r.(phase := AtSize(parts, acc + [b]))
      else
        var size := Unpack(acc + [b]);
        if size == 0 then Finish(r, File(parts, [])) else r.(phase := AtContent(parts, size, []))
    case AtContent(parts, size, acc) =>
      if |acc| + 1 < size then r.(phase := AtContent(parts, size, acc + [b]))
      else Finish(r, File(parts, acc + [b]))
    case _ => r
  }

  /** Both ends and the two channels. `flight` and `eaten` only keep the books: the items
      begun by the sender and not yet complete at the receiver, and how many bytes of the
      first one were taken. No step looks at them. */
  datatype State = State(
    todo: seq<Entry>, out: Bytes, awaiting: bool, ended: bool,
    channel: Bytes, acks: Bytes,
    receiver: Receiver,
    flight: seq<Entry>, eaten: nat)

  datatype Event = Fetch | Put(k: nat) | Take | SendAck | TakeAck

  function Start(items: seq<Entry>): State {
    State(items, [], false, false, [], [], Receiver(AtCode, []), [], 0)
  }

  /** When an end can move. Each channel holds at most `capacity` bytes. */
  predicate Enabled(capacity: nat, s: State, ev: Event) {
    match ev
    case Fetch => s.out == [] && !s.awaiting && !s.ended
    case Put(k) => 1 <= k <= |s.out| && |s.channel| + k <= capacity
    case Take => s.channel != [] && !s.receiver.phase.AckDue? && !s.receiver.phase.Done?
    case SendAck => s.receiver.phase.AckDue? && |s.acks| < capacity
    case TakeAck => s.out == [] && s.awaiting && s.acks != []
  }

  function Apply(codec: Codec, s: State, ev: Event): State {
    match ev
    case Fetch =>
      if s.todo == [] then s.(out := [0], ended := true)
      else s.(todo := s.todo[1..], out := Encode(codec, s.todo[0]), awaiting := s.todo[0].File?,
              flight := s.flight + [s.todo[0]])
    case Put(k) => if k <= |s.out| then s.(channel := s.channel + s.out[..k], out := s.out[k..]) else s
    case Take =>
      if s.channel == [] then s
      else
        var s' := s.(channel := s.channel[1..], receiver := OnByte(codec, s.receiver, s.channel[0]));
        if s.flight == [] then s'
        else if s.eaten + 1 < |Encode(codec, s.flight[0])| then s'.(eaten := s.eaten + 1)
        else s'.(flight := s.flight[1..], eaten := 0)
    case SendAck => s.(acks := s.acks + [FILE_CODE], receiver := s.receiver.(phase := AtCode))
    case TakeAck => if s.acks == [] then s else s.(acks := s.acks[1..], awaiting := false)
  }

  /** The other codes: a zero byte behind the last item, one byte 1 for each acknowledgement,
      and any other code byte is passed over. */
  lemma OtherCodes(codec: Codec, s: State, b: Byte)
    ensures s.todo == [] ==> Apply(codec, s, Fetch).out == [0]
    ensures Apply(codec, s, SendAck).acks == s.acks + [1]
    ensures s.receiver.phase.AtCode? && b > 2 ==> OnByte(codec, s.receiver, b) == s.receiver
    ensures s.receiver.phase.AtCode? && b == 0 ==> OnByte(codec, s.receiver, b) == s.receiver.(phase := Done)
  {
  }

  predicate Runs(codec: Codec, capacity: nat, s: State, events: seq<Event>)
    decreases |events|
  {
    events == [] || (Enabled(capacity, s, events[0]) && Runs(codec, capacity, Apply(codec, s, events[0]), events[1..]))
  }

  function After(codec: Codec, s: State, events: seq<Event>): State
    decreases |events|
  {
    if events == [] then s else After(codec, Apply(codec, s, events[0]), events[1..])
  }

  predicate Finished(s: State) { s.ended && s.out == [] && s.receiver.phase.Done? }

  // ---- One item, byte by byte -------------------------------------------------------

  /** The receiver's phase after `k` bytes of an item. */
  function PhaseAt(codec: Codec, e: Entry, k: nat): Phase
    requires k < |Encode(codec, e)|
  {
    var d := codec.dump(e.parts);
    if k == 0 then AtCode
    else if k < 5 then AtLength(Code(e), Pack(4, |d|)[..k - 1])
    else if k < 5 + |d| then AtParts(Code(e), |d|, d[..k - 5])
    else if k < 13 + |d| then AtSize(e.parts, Pack(8, |e.content|)[..k - 5 - |d|])
    else AtContent(e.parts, |e.content|, e.content[..k - 13 - |d|])
  }

  lemma EncodeAt(codec: Codec, e: Entry, k: nat)
    requires k < |Encode(codec, e)|
    ensures var d := codec.dump(e.parts);
      Encode(codec, e)[k] ==
        if k == 0 then Code(e)
        else if k < 5 then Pack(4, |d|)[k - 1]
        else if k < 5 + |d| then d[k - 5]
        else if k < 13 + |d| then Pack(8, |e.content|)[k - 5 - |d|]
        else e.content[k - 13 - |d|]
  {
  }

  lemma Grow(s: Bytes, k: nat)
    requires k < |s|
    ensures s[..k] + [s[k]] == s[..k + 1] && (k + 1 == |s| ==> s[..k] + [s[k]] == s)
  {
  }

  /** The state after one more byte of the item. */
  function OneMore(codec: Codec, r: Receiver, e: Entry, k: nat): Receiver
    requires k < |Encode(codec, e)|
  {
    if k + 1 < |Encode(codec, e)| then r.(phase := PhaseAt(codec, e, k + 1)) else Finish(r, e)
  }

  lemma LengthByte(codec: Codec, r: Receiver, e: Entry, k: nat)
    requires Packable(codec, e) && k < 5 && r.phase == PhaseAt(codec, e, k)
    ensures OnByte(codec, r, Encode(codec, e)[k]) == OneMore(codec, r, e, k)
  {
    EncodeAt(codec, e, k);
    if k > 0 {
      var p := Pack(4, |codec.dump(e.parts)|);
      Grow(p, k - 1);
      Widths();
      UnpackPack(4, |codec.dump(e.parts)|);
    }
  }

  lemma PartsByte(codec: Codec, r: Receiver, e: Entry, k: nat)
    requires Packable(codec, e) && 5 <= k < 5 + |codec.dump(e.parts)| && r.phase == PhaseAt(codec, e, k)
    ensures OnByte(codec, r, Encode(codec, e)[k]) == OneMore(codec, r, e, k)
  {
    EncodeAt(codec, e, k);
    Grow(codec.dump(e.parts), k - 5);
  }

  lemma SizeByte(codec: Codec, r: Receiver, e: Entry, k: nat)
    requires Packable(codec, e) && e.File? && 5 + |codec.dump(e.parts)| <= k < 13 + |codec.dump(e.parts)|
    requires r.phase == PhaseAt(codec, e, k)
    ensures OnByte(codec, r, Encode(codec, e)[k]) == OneMore(codec, r, e, k)
  {
    EncodeAt(codec, e, k);
    Grow(Pack(8, |e.content|), k - 5 - |codec.dump(e.parts)|);
    Widths();
    UnpackPack(8, |e.content|);
  }

  lemma ContentByte(codec: Codec, r: Receiver, e: Entry, k: nat)
    requires Packable(codec, e) && e.File? && 13 + |codec.dump(e.parts)| <= k < |Encode(codec, e)|
    requires r.phase == PhaseAt(codec, e, k)
    ensures OnByte(codec, r, Encode(codec, e)[k]) == OneMore(codec, r, e, k)
  {
    EncodeAt(codec, e, k);
    Grow(e.content, k - 13 - |codec.dump(e.parts)|);
  }

  /** An item is decoded to itself, and not before its last byte. */
  lemma ItemByte(codec: Codec, r: Receiver, e: Entry, k: nat)
    requires Packable(codec, e) && k < |Encode(codec, e)| && r.phase == PhaseAt(codec, e, k)
    ensures OnByte(codec, r, Encode(codec, e)[k]) == OneMore(codec, r, e, k)
    ensures !r.phase.AckDue? && !r.phase.Done?
  {
    var d := codec.dump(e.parts);
    if k < 5 {
      LengthByte(codec, r, e, k);
    } else if k < 5 + |d| {
      PartsByte(codec, r, e, k);
    } else if k < 13 + |d| {
      SizeByte(codec, r, e, k);
    } else {
      ContentByte(codec, r, e, k);
    }
  }

  // ---- The invariant ----------------------------------------------------------------

  function Stream(codec: Codec, items: seq<Entry>): Bytes {
    if items == [] then [] else Encode(codec, items[0]) + Stream(codec, items[1..])
  }

  lemma {:induction false} StreamAppend(codec: Codec, items: seq<Entry>, e: Entry)
    ensures Stream(codec, items + [e]) == Stream(codec, items) + Encode(codec, e)
  {
    if items != [] {
      StreamAppend(codec, items[1..], e);
      assert (items + [e])[1..] == items[1..] + [e];
    } else {
      assert (items + [e])[1..] == [];
    }
  }

  /** The end flag, from when it is written until it is read. */
  function EndFlag(s: State): Bytes { if s.ended && !s.receiver.phase.Done? then [0] else [] }

  /** What was begun is on its way, and nothing else is. */
  ghost predicate BytesKept(codec: Codec, s: State) {
    var due := Stream(codec, s.flight) + EndFlag(s);
    s.eaten <= |due| && s.channel + s.out == due[s.eaten..]
  }

  /** The receiver stands inside the first item on its way. */
  ghost predicate ReceiverAt(codec: Codec, s: State) {
    if s.flight == [] then s.eaten == 0 && (s.receiver.phase.AtCode? || s.receiver.phase.AckDue? || s.receiver.phase.Done?)
    else s.eaten < |Encode(codec, s.flight[0])| && s.receiver.phase == PhaseAt(codec, s.flight[0], s.eaten)
  }

  /** A file on its way is the last item on its way. */
  predicate FileIsLast(s: State) { forall i :: 0 <= i < |s.flight| - 1 ==> s.flight[i].Folder? }

  predicate FileInFlight(s: State) { s.flight != [] && s.flight[|s.flight| - 1].File? }

  /** The sender waits for an answer exactly while the file is on its way, or its answer
      is due, or its answer is on its way; never two of these. */
  predicate LockStep(s: State) {
    && (s.awaiting ==> if FileInFlight(s) then !s.receiver.phase.AckDue? && s.acks == []
                       else if s.receiver.phase.AckDue? then s.acks == [] && s.flight == []
                       else s.acks == [FILE_CODE] && s.flight == [])
    && (!s.awaiting ==> !FileInFlight(s) && !s.receiver.phase.AckDue? && s.acks == [])
    && ((s.receiver.phase.AckDue? || s.acks != []) ==> s.receiver.records != [] && s.receiver.records[|s.receiver.records| - 1].File?)
    && (s.ended ==> !s.awaiting && s.todo == [])
    && (s.receiver.phase.Done? ==> s.ended && s.flight == [])
  }

  ghost predicate Inv(codec: Codec, items: seq<Entry>, s: State) {
    && s.receiver.records + s.flight + s.todo == items
    && BytesKept(codec, s) && ReceiverAt(codec, s) && FileIsLast(s) && LockStep(s)
  }

  ghost predicate AllPackable(codec: Codec, items: seq<Entry>) { forall e :: e in items ==> Packable(codec, e) }

  lemma DropFirst(a: Bytes, b: Bytes, k: nat)
    requires k <= |a|
    ensures (a + b)[k..] == a[k..] + b
  {
  }

  lemma FetchKeepsBytes(codec: Codec, items: seq<Entry>, s: State)
    requires Inv(codec, items, s) && s.out == [] && !s.awaiting && !s.ended
    ensures BytesKept(codec, Apply(codec, s, Fetch))
  {
    var due := Stream(codec, s.flight);
    assert due + EndFlag(s) == due && s.channel + s.out == s.channel;
    if s.todo == [] {
      DropFirst(due, [0], s.eaten);
    } else {
      StreamAppend(codec, s.flight, s.todo[0]);
      DropFirst(due, Encode(codec, s.todo[0]), s.eaten);
      assert due + Encode(codec, s.todo[0]) + [] == due + Encode(codec, s.todo[0]);
    }
  }

  lemma FetchKeepsInv(codec: Codec, items: seq<Entry>, s: State)
    requires Inv(codec, items, s) && s.out == [] && !s.awaiting && !s.ended
    ensures Inv(codec, items, Apply(codec, s, Fetch))
  {
    FetchKeepsBytes(codec, items, s);
    if s.todo != [] {
      var e := s.todo[0];
      assert s.receiver.records + (s.flight + [e]) + s.todo[1..] == s.receiver.records + s.flight + s.todo;
    }
  }

  lemma PutKeepsInv(codec: Codec, capacity: nat, items: seq<Entry>, s: State, k: nat)
    requires Inv(codec, items, s) && Enabled(capacity, s, Put(k))
    ensures Inv(codec, items, Apply(codec, s, Put(k)))
  {
    assert s.channel + s.out[..k] + s.out[k..] == s.channel + s.out;
  }

  /** What the next byte is. */
  lemma NextByte(codec: Codec, items: seq<Entry>, s: State)
    requires Inv(codec, items, s) && s.channel != []
    ensures s.flight != [] ==> s.channel[0] == Encode(codec, s.flight[0])[s.eaten]
    ensures s.flight == [] ==> s.ended && s.channel == [0] && s.out == [] && !s.receiver.phase.Done?
  {
    var due := Stream(codec, s.flight) + EndFlag(s);
    assert s.channel[0] == (s.channel + s.out)[0] == due[s.eaten];
    if s.flight == [] { assert due[0..] == EndFlag(s); }
  }

  lemma TakeFromItem(codec: Codec, items: seq<Entry>, s: State)
    requires AllPackable(codec, items) && Inv(codec, items, s) && s.channel != [] && s.flight != []
    ensures Apply(codec, s, Take).receiver == OneMore(codec, s.receiver, s.flight[0], s.eaten)
  {
    NextByte(codec, items, s);
    assert s.flight[0] in items by { assert items[|s.receiver.records|] == s.flight[0]; }
    ItemByte(codec, s.receiver, s.flight[0], s.eaten);
  }

  lemma DropFront(channel: Bytes, out: Bytes, due: Bytes, k: nat)
    requires channel != [] && k <= |due| && channel + out == due[k..]
    ensures k < |due| && channel[1..] + out == due[k + 1..]
  {
    assert channel[1..] + out == (channel + out)[1..];
  }

  lemma TakeKeepsBytes(codec: Codec, items: seq<Entry>, s: State)
    requires AllPackable(codec, items) && Inv(codec, items, s) && s.channel != [] && s.flight != []
    ensures BytesKept(codec, Apply(codec, s, Take))
  {
    var e, tail := s.flight[0], Stream(codec, s.flight[1..]);
    TakeFromItem(codec, items, s);
    DropFront(s.channel, s.out, Stream(codec, s.flight) + EndFlag(s), s.eaten);
    if s.eaten + 1 == |Encode(codec, e)| {
      DropFirst(Encode(codec, e) + tail, EndFlag(s), s.eaten + 1);
      DropFirst(Encode(codec, e), tail, s.eaten + 1);
      assert Encode(codec, e)[s.eaten + 1..] + tail == tail;
    }
  }

  lemma TakeInside(codec: Codec, items: seq<Entry>, s: State)
    requires AllPackable(codec, items) && Inv(codec, items, s) && s.channel != [] && s.flight != []
    requires s.eaten + 1 < |Encode(codec, s.flight[0])|
    ensures Inv(codec, items, Apply(codec, s, Take))
  {
    TakeFromItem(codec, items, s);
    TakeKeepsBytes(codec, items, s);
    var phase' := PhaseAt(codec, s.flight[0], s.eaten + 1);
    assert !phase'.AckDue? && !phase'.Done?;
  }

  lemma MoveOne(records: seq<Entry>, flight: seq<Entry>, todo: seq<Entry>)
    requires flight != []
    ensures records + [flight[0]] + flight[1..] + todo == records + flight + todo
  {
  }

  lemma TakeLast(codec: Codec, items: seq<Entry>, s: State)
    requires AllPackable(codec, items) && Inv(codec, items, s) && s.channel != [] && s.flight != []
    requires s.eaten + 1 == |Encode(codec, s.flight[0])|
    ensures Inv(codec, items, Apply(codec, s, Take))
  {
    TakeFromItem(codec, items, s);
    TakeKeepsBytes(codec, items, s);
    MoveOne(s.receiver.records, s.flight, s.todo);
    var s', e, tail := Apply(codec, s, Take), s.flight[0], s.flight[1..];
    assert s'.flight == tail && s'.eaten == 0 && s'.receiver == Finish(s.receiver, e);
    assert FileIsLast(s') by { assert forall i :: 0 <= i < |tail| ==> tail[i] == s.flight[i + 1]; }
    assert ReceiverAt(codec, s') by { assert tail != [] ==> e.Folder? && PhaseAt(codec, tail[0], 0).AtCode?; }
    TakeLastLockStep(s, s', e, tail);
  }

  lemma TakeLastLockStep(s: State, s': State, e: Entry, tail: seq<Entry>)
    requires LockStep(s) && FileIsLast(s) && s.flight == [e] + tail
    requires s' == s.(channel := s'.channel, receiver := Finish(s.receiver, e), flight := tail, eaten := 0)
    ensures LockStep(s')
  {
    assert |tail| > 0 ==> s.flight[0] == e && tail[|tail| - 1] == s.flight[|s.flight| - 1];
    assert tail == [] ==> s.flight[|s.flight| - 1] == e;
  }

  lemma TakeKeepsInv(codec: Codec, capacity: nat, items: seq<Entry>, s: State)
    requires AllPackable(codec, items) && Inv(codec, items, s) && Enabled(capacity, s, Take)
    ensures Inv(codec, items, Apply(codec, s, Take))
  {
    if s.flight == [] {
      NextByte(codec, items, s);
    } else if s.eaten + 1 < |Encode(codec, s.flight[0])| {
      TakeInside(codec, items, s);
    } else {
      TakeLast(codec, items, s);
    }
  }

  lemma AckKeepsInv(codec: Codec, capacity: nat, items: seq<Entry>, s: State, ev: Event)
    requires Inv(codec, items, s) && Enabled(capacity, s, ev) && (ev.SendAck? || ev.TakeAck?)
    ensures Inv(codec, items, Apply(codec, s, ev))
  {
  }

  lemma StepKeepsInv(codec: Codec, capacity: nat, items: seq<Entry>, s: State, ev: Event)
    requires AllPackable(codec, items) && Inv(codec, items, s) && Enabled(capacity, s, ev)
    ensures Inv(codec, items, Apply(codec, s, ev))
  {
    match ev
    case Fetch => FetchKeepsInv(codec, items, s);
    case Put(k) => PutKeepsInv(codec, capacity, items, s, k);
    case Take => TakeKeepsInv(codec, capacity, items, s);
    case _ => AckKeepsInv(codec, capacity, items, s, ev);
  }

  // ---- Progress ---------------------------------------------------------------------

  /** Some end can move, unless both have finished. */
  lemma NoDeadlock(codec: Codec, capacity: nat, items: seq<Entry>, s: State)
    requires capacity >= 1 && Inv(codec, items, s)
    ensures Finished(s) <==> !exists ev :: Enabled(capacity, s, ev)
  {
    if s.receiver.phase.AckDue? {
      assert Enabled(capacity, s, SendAck);
    } else if s.channel != [] {
      NextByte(codec, items, s);
      if s.flight != [] { assert !s.receiver.phase.Done?; }
      assert Enabled(capacity, s, Take);
    } else if s.out != [] {
      assert Enabled(capacity, s, Put(1));
      if Finished(s) { assert false; }
    } else {
      assert s.channel + s.out == [];
      assert s.flight == [] && EndFlag(s) == [];
      if s.awaiting { assert Enabled(capacity, s, TakeAck); }
      else if !s.ended { assert Enabled(capacity, s, Fetch); }
    }
  }

  function AckWeight(s: State): nat {
    if !s.awaiting then 0 else if s.receiver.phase.AckDue? then 2 else if s.acks != [] then 1 else 3
  }

  /** How many steps are left at most. */
  function Work(codec: Codec, s: State): nat {
    3 * (|Stream(codec, s.todo)| + if s.ended then 0 else 1) + 2 * |s.out| + |s.channel| + AckWeight(s)
  }

  lemma StepDoesWork(codec: Codec, capacity: nat, items: seq<Entry>, s: State, ev: Event)
    requires AllPackable(codec, items) && Inv(codec, items, s) && Enabled(capacity, s, ev)
    ensures Work(codec, Apply(codec, s, ev)) < Work(codec, s)
  {
    if ev.Take? {
      NextByte(codec, items, s);
      if s.flight != [] { TakeFromItem(codec, items, s); }
    }
  }

  // ---- Whole transfers --------------------------------------------------------------

  lemma {:induction false} RunKeepsInv(codec: Codec, capacity: nat, items: seq<Entry>, s: State, events: seq<Event>)
    requires AllPackable(codec, items) && Inv(codec, items, s) && Runs(codec, capacity, s, events)
    ensures Inv(codec, items, After(codec, s, events))
    ensures |events| + Work(codec, After(codec, s, events)) <= Work(codec, s)
    decreases |events|
  {
    if events != [] {
      StepKeepsInv(codec, capacity, items, s, events[0]);
      StepDoesWork(codec, capacity, items, s, events[0]);
      RunKeepsInv(codec, capacity, items, Apply(codec, s, events[0]), events[1..]);
    }
  }

  /** Acknowledgements sent or about to be sent, and not yet read. */
  function Outstanding(s: State): nat { |s.acks| + if s.receiver.phase.AckDue? then 1 else 0 }

  /** Every transfer of a directory, on channels of any capacity and in any interleaving:
      it never gets stuck, it ends within a bound known from the start, it never has two
      acknowledgements under way, and whatever has been decoded is what was sent, in
      order, and all of it at the end. */
  lemma DirectoryTransfer(codec: Codec, capacity: nat, items: seq<Entry>, events: seq<Event>)
    requires AllPackable(codec, items) && capacity >= 1 && Runs(codec, capacity, Start(items), events)
    ensures var s := After(codec, Start(items), events);
      && (Finished(s) <==> !exists ev :: Enabled(capacity, s, ev))
      && |events| <= 3 * (|Stream(codec, items)| + 1)
      && Outstanding(s) <= 1
      && s.receiver.records <= items
      && (Finished(s) ==> s.receiver.records == items)
  {
    StartKeepsInv(codec, items);
    RunKeepsInv(codec, capacity, items, Start(items), events);
    var s := After(codec, Start(items), events);
    NoDeadlock(codec, capacity, items, s);
    WhatInvSays(codec, items, s);
  }

  lemma StartKeepsInv(codec: Codec, items: seq<Entry>)
    ensures Inv(codec, items, Start(items))
  {
    assert [] + [] + items == items;
  }

  lemma WhatInvSays(codec: Codec, items: seq<Entry>, s: State)
    requires Inv(codec, items, s)
    ensures Outstanding(s) <= 1
    ensures s.receiver.records <= items && (Finished(s) ==> s.receiver.records == items)
    ensures s.receiver.phase.AckDue? || s.acks != [] ==>
      && s.receiver.records + s.todo == items
      && s.receiver.records != [] && s.receiver.records[|s.receiver.records| - 1].File?
      && (s.acks == [] || s.acks == [FILE_CODE])
  {
    assert s.receiver.records + (s.flight + s.todo) == items;
    assert s.flight == [] ==> s.flight + s.todo == s.todo;
  }

  /** An acknowledgement is sent and read only when the file it answers, empty or not, is
      complete at the receiver and nothing behind it was sent; the byte the sender reads is
      the one its assertion asks for. */
  lemma AckFollowsFile(codec: Codec, capacity: nat, items: seq<Entry>, events: seq<Event>)
    requires AllPackable(codec, items) && Runs(codec, capacity, Start(items), events)
    ensures var s := After(codec, Start(items), events);
      Enabled(capacity, s, SendAck) || Enabled(capacity, s, TakeAck) ==>
        && s.receiver.records + s.todo == items
        && s.receiver.records != [] && s.receiver.records[|s.receiver.records| - 1].File?
        && (Enabled(capacity, s, TakeAck) ==> s.acks == [FILE_CODE])
  {
    StartKeepsInv(codec, items);
    RunKeepsInv(codec, capacity, items, Start(items), events);
    WhatInvSays(codec, items, After(codec, Start(items), events));
  }
}
