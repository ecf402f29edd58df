/** The bounded buffer between the program and its web page
    (src/webpage_handlers/pagehandle.py:28-71). Messages are numbered in the order in which
    they are submitted. */
module FrontEnd {
  // ---- deque(maxlen=limit) ----------------------------------------------------------

  datatype Stored = Stored(buffer: seq<nat>, dropped: seq<nat>)

  function Append(limit: nat, buffer: seq<nat>, m: nat): Stored {
    if limit == 0 then Stored(buffer, [m])
    else if |buffer| >= limit then Stored(buffer[1..] + [m], [buffer[0]])
    else Stored(buffer + [m], [])
  }

  function AppendLeft(limit: nat, buffer: seq<nat>, m: nat): Stored {
    if limit == 0 then Stored(buffer, [m])
    else if |buffer| >= limit then Stored([m] + buffer[..|buffer| - 1], [buffer[|buffer| - 1]])
    else Stored([m] + buffer, [])
  }

  /** A failed send: room is made, then the message goes back, to the left if it came from
      there. With limit 0 `popleft` raises IndexError and the message is gone. */
  function PutBack(limit: nat, buffer: seq<nat>, m: nat, left: bool): Stored {
    if |buffer| >= limit && buffer == [] then Stored(buffer, [m])
    else
      var discard := |buffer| >= limit;
      var room := if discard then buffer[1..] else buffer;
      var stored := if left then AppendLeft(limit, room, m) else Append(limit, room, m);
      stored.(dropped := (if discard then [buffer[0]] else []) + stored.dropped)
  }

  /** Which messages go, in terms of the order in which they stand: what is stored at the end
      pushes out the oldest, and what comes back to the front pushes out the next one behind
      it; with limit 0 nothing stays. */
  ghost predicate KeepsNewest(limit: nat, buffer: seq<nat>, m: nat, r: Stored) {
    var all := buffer + [m];
    var cut := if |all| > limit then |all| - limit else 0;
    r.buffer == all[cut..] && r.dropped == all[..cut]
  }

  ghost predicate KeepsFront(limit: nat, buffer: seq<nat>, m: nat, r: Stored) {
    if limit == 0 then r == Stored([], [m])
    else if |buffer| == limit then r == Stored([m] + buffer[1..], [buffer[0]])
    else r == Stored([m] + buffer, [])
  }

  lemma AppendDropsOldest(limit: nat, buffer: seq<nat>, m: nat)
    requires |buffer| <= limit
    ensures KeepsNewest(limit, buffer, m, Append(limit, buffer, m))
  {
    if limit > 0 && |buffer| == limit {
      assert (buffer + [m])[1..] == buffer[1..] + [m] && (buffer + [m])[..1] == [buffer[0]];
    }
  }

  /** `deque.appendleft` pushes out on the right. */
  lemma AppendLeftDropsRight(limit: nat, buffer: seq<nat>, m: nat)
    requires |buffer| <= limit
    ensures var all, r := [m] + buffer, AppendLeft(limit, buffer, m);
      var kept := if |all| > limit then limit else |all|;
      r.buffer == all[..kept] && r.dropped == all[kept..]
  {
    var all := [m] + buffer;
    if limit > 0 && |buffer| == limit {
      assert all[..limit] == [m] + buffer[..limit - 1] && all[limit..] == [buffer[limit - 1]];
    }
  }

  lemma PutBackDropsOldest(limit: nat, buffer: seq<nat>, m: nat)
    requires |buffer| <= limit
    ensures KeepsNewest(limit, buffer, m, PutBack(limit, buffer, m, false))
    ensures KeepsFront(limit, buffer, m, PutBack(limit, buffer, m, true))
  {
    if limit > 0 && |buffer| == limit {
      assert (buffer + [m])[1..] == buffer[1..] + [m] && (buffer + [m])[..1] == [buffer[0]];
    }
  }

  function One(b: bool): nat { if b then 1 else 0 }

  /** How often `m` occurs. */
  function Occurrences(s: seq<nat>, m: nat): nat {
    if s == [] then 0 else One(s[0] == m) + Occurrences(s[1..], m)
  }

  lemma {:induction false} CountConcat(a: seq<nat>, b: seq<nat>, m: nat)
    ensures Occurrences(a + b, m) == Occurrences(a, m) + Occurrences(b, m)
  {
    if a == [] {
      assert a + b == b;
    } else {
      CountConcat(a[1..], b, m);
      assert (a + b)[1..] == a[1..] + b;
    }
  }

  lemma CountSingle(x: nat, m: nat)
    ensures Occurrences([x], m) == One(x == m)
  {
    assert [x][1..] == [];
  }

  /** What becomes of `m` when `x` is stored: nothing is lost silently, the limit is kept,
      and one message is dropped exactly when the buffer was full. */
  ghost predicate Conserves(limit: nat, buffer: seq<nat>, x: nat, r: Stored, m: nat) {
    && Occurrences(r.buffer, m) + Occurrences(r.dropped, m) == Occurrences(buffer, m) + One(x == m)
    && |r.buffer| <= limit
    && |r.dropped| == One(|buffer| == limit)
  }

  lemma AppendConserves(limit: nat, buffer: seq<nat>, x: nat, m: nat)
    requires |buffer| <= limit
    ensures Conserves(limit, buffer, x, Append(limit, buffer, x), m)
  {
    CountSingle(x, m);
    CountConcat(buffer, [x], m);
    if buffer != [] {
      CountSingle(buffer[0], m);
      CountConcat(buffer[1..], [x], m);
    }
  }

  lemma PutBackConserves(limit: nat, buffer: seq<nat>, x: nat, left: bool, m: nat)
    requires |buffer| <= limit
    ensures Conserves(limit, buffer, x, PutBack(limit, buffer, x, left), m)
  {
    var discard := |buffer| >= limit;
    CountSingle(x, m);
    if !(discard && buffer == []) {
      var room := if discard then buffer[1..] else buffer;
      CountConcat(room, [x], m);
      CountConcat([x], room, m);
      if discard {
        CountSingle(buffer[0], m);
        assert [buffer[0]] + [] == [buffer[0]];
      }
    }
  }

  // ---- Every interleaving of calls --------------------------------------------------

  /** Where one call of `submit` stands: in `send` with its own message, in `send` with a
      message taken from the buffer, between two sends, or returned. */
  datatype Call = Direct(m: nat) | Popped(m: nat) | Draining | Returned

  datatype State = State(
    limit: nat, connected: bool, buffer: seq<nat>, calls: seq<Call>,
    delivered: seq<nat>, discarded: seq<nat>, submitted: nat)

  datatype Event = Submit | Sent(i: nat) | Failed(i: nat) | Continue(i: nat) | UpdateTransport

  function Store(s: State, stored: Stored): State {
    s.(buffer := stored.buffer, discarded := s.discarded + stored.dropped)
  }

  predicate Enabled(s: State, ev: Event) {
    match ev
    case Sent(i) => i < |s.calls| && (s.calls[i].Direct? || s.calls[i].Popped?)
    case Failed(i) => i < |s.calls| && (s.calls[i].Direct? || s.calls[i].Popped?)
    case Continue(i) => i < |s.calls| && s.calls[i].Draining?
    case _ => true
  }

  function Apply(s: State, ev: Event): State
    requires Enabled(s, ev)
  {
    match ev
    case Submit =>
      var m, s' := s.submitted, s.(submitted := s.submitted + 1);
      if s.connected then s'.(calls := s.calls + [Direct(m)])
      else Store(s'.(calls := s.calls + [Returned]), Append(s.limit, s.buffer, m))
    case Sent(i) => s.(delivered := s.delivered + [s.calls[i].m], calls := s.calls[i := Draining])
    case Failed(i) =>
      Store(s.(connected := false, calls := s.calls[i := Returned]),
            PutBack(s.limit, s.buffer, s.calls[i].m, s.calls[i].Popped?))
    case Continue(i) =>
      if s.buffer == [] then s.(calls := s.calls[i := Returned])
      else s.(calls := s.calls[i := Popped(s.buffer[0])], buffer := s.buffer[1..])
    case UpdateTransport => s.(connected := true)
  }

  function Holds(c: Call, m: nat): nat { One((c.Direct? || c.Popped?) && c.m == m) }

  /** How many calls have `m` in a send. */
  function InFlight(calls: seq<Call>, m: nat): nat {
    if calls == [] then 0 else Holds(calls[0], m) + InFlight(calls[1..], m)
  }

  lemma {:induction false} InFlightUpdate(calls: seq<Call>, i: nat, c: Call, m: nat)
    requires i < |calls|
    ensures InFlight(calls[i := c], m) == InFlight(calls, m) - Holds(calls[i], m) + Holds(c, m)
  {
    if i == 0 {
      assert calls[i := c][1..] == calls[1..];
    } else {
      InFlightUpdate(calls[1..], i - 1, c, m);
      assert calls[i := c][1..] == calls[1..][i - 1 := c];
    }
  }

  lemma {:induction false} InFlightAppend(calls: seq<Call>, c: Call, m: nat)
    ensures InFlight(calls + [c], m) == InFlight(calls, m) + Holds(c, m)
  {
    if calls != [] {
      InFlightAppend(calls[1..], c, m);
      assert (calls + [c])[1..] == calls[1..] + [c];
    } else {
      assert (calls + [c])[1..] == [];
    }
  }

  function Places(s: State, m: nat): nat {
    Occurrences(s.buffer, m) + Occurrences(s.delivered, m) + Occurrences(s.discarded, m) + InFlight(s.calls, m)
  }

  /** The message `m` is in one place, once, if it was submitted, and else nowhere. */
  ghost predicate Inv(s: State, m: nat) { Places(s, m) == One(m < s.submitted) && |s.buffer| <= s.limit }

  lemma SubmitKeepsInv(s: State, m: nat)
    requires Inv(s, m)
    ensures Inv(Apply(s, Submit), m)
  {
    if s.connected {
      InFlightAppend(s.calls, Direct(s.submitted), m);
    } else {
      InFlightAppend(s.calls, Returned, m);
      AppendConserves(s.limit, s.buffer, s.submitted, m);
      CountConcat(s.discarded, Append(s.limit, s.buffer, s.submitted).dropped, m);
    }
  }

  lemma SentKeepsInv(s: State, i: nat, m: nat)
    requires Inv(s, m) && Enabled(s, Sent(i))
    ensures Inv(Apply(s, Sent(i)), m)
  {
    InFlightUpdate(s.calls, i, Draining, m);
    CountSingle(s.calls[i].m, m);
    CountConcat(s.delivered, [s.calls[i].m], m);
  }

  lemma FailedKeepsInv(s: State, i: nat, m: nat)
    requires Inv(s, m) && Enabled(s, Failed(i))
    ensures Inv(Apply(s, Failed(i)), m)
  {
    var x, left := s.calls[i].m, s.calls[i].Popped?;
    InFlightUpdate(s.calls, i, Returned, m);
    PutBackConserves(s.limit, s.buffer, x, left, m);
    CountConcat(s.discarded, PutBack(s.limit, s.buffer, x, left).dropped, m);
  }

  lemma ContinueKeepsInv(s: State, i: nat, m: nat)
    requires Inv(s, m) && Enabled(s, Continue(i))
    ensures Inv(Apply(s, Continue(i)), m)
  {
    InFlightUpdate(s.calls, i, Apply(s, Continue(i)).calls[i], m);
  }

  lemma StepKeepsInv(s: State, ev: Event, m: nat)
    requires Inv(s, m) && Enabled(s, ev)
    ensures Inv(Apply(s, ev), m)
  {
    match ev
    case Submit => SubmitKeepsInv(s, m);
    case Sent(i) => SentKeepsInv(s, i, m);
    case Failed(i) => FailedKeepsInv(s, i, m);
    case Continue(i) => ContinueKeepsInv(s, i, m);
    case UpdateTransport =>
  }

  predicate Runs(s: State, events: seq<Event>)
    decreases |events|
  {
    events == [] || (Enabled(s, events[0]) && Runs(Apply(s, events[0]), events[1..]))
  }

  function After(s: State, events: seq<Event>): State
    requires Runs(s, events)
    decreases |events|
  {
    if events == [] then s else After(Apply(s, events[0]), events[1..])
  }

  function Start(limit: nat, connected: bool): State { State(limit, connected, [], [], [], [], 0) }

  lemma {:induction false} RunKeepsInv(s: State, events: seq<Event>, m: nat)
    requires Inv(s, m) && Runs(s, events)
    ensures Inv(After(s, events), m) && After(s, events).limit == s.limit
    decreases |events|
  {
    if events != [] {
      StepKeepsInv(s, events[0], m);
      RunKeepsInv(Apply(s, events[0]), events[1..], m);
    }
  }

  /** Over every interleaving: each submitted message is in exactly one place, once, and
      the buffer keeps to its limit. */
  lemma EachMessageIsInOnePlace(limit: nat, connected: bool, events: seq<Event>, m: nat)
    requires Runs(Start(limit, connected), events)
    ensures var s := After(Start(limit, connected), events);
      && |s.buffer| <= limit
      && Occurrences(s.buffer, m) + Occurrences(s.delivered, m) + Occurrences(s.discarded, m) + InFlight(s.calls, m)
         == One(m < s.submitted)
  {
    RunKeepsInv(Start(limit, connected), events, m);
  }

  /** A step discards at most one message, and only when it finds the buffer full. */
  lemma DiscardsOnlyWhenFull(limit: nat, connected: bool, events: seq<Event>, ev: Event)
    requires Runs(Start(limit, connected), events) && Enabled(After(Start(limit, connected), events), ev)
    ensures var s := After(Start(limit, connected), events);
      var s' := Apply(s, ev);
      || s'.discarded == s.discarded
      || (|s.buffer| == limit && |s'.discarded| == |s.discarded| + 1 && s.discarded <= s'.discarded)
  {
    var s := After(Start(limit, connected), events);
    RunKeepsInv(Start(limit, connected), events, 0);
    if ev.Failed? {
      PutBackConserves(limit, s.buffer, s.calls[ev.i].m, s.calls[ev.i].Popped?, 0);
    } else if ev.Submit? {
      AppendConserves(limit, s.buffer, s.submitted, 0);
    }
  }

  /** What each step does, in terms of the order of messages: a submission is sent at once
      or buffered as the newest; a failed send of its own message buffers it as the newest, of
      a buffered one puts that back in front; a call that goes on takes the oldest. */
  lemma StepEffects(s: State, ev: Event)
    requires Enabled(s, ev) && |s.buffer| <= s.limit
    ensures var s' := Apply(s, ev);
      && s'.connected == (ev.UpdateTransport? || (s.connected && !ev.Failed?))
      && (ev.Submit? ==> s'.submitted == s.submitted + 1 && s'.delivered == s.delivered)
      && (ev.Submit? && s.connected ==> s'.calls == s.calls + [Direct(s.submitted)] && s'.buffer == s.buffer && s'.discarded == s.discarded)
      && (ev.Submit? && !s.connected ==> s'.calls == s.calls + [Returned] && NewestStored(s, s', s.submitted))
      && (ev.Sent? ==> s'.delivered == s.delivered + [s.calls[ev.i].m] && s'.calls == s.calls[ev.i := Draining] && s'.buffer == s.buffer)
      && (ev.Failed? ==> s'.delivered == s.delivered && s'.calls == s.calls[ev.i := Returned])
      && (ev.Failed? && s.calls[ev.i].Direct? ==> NewestStored(s, s', s.calls[ev.i].m))
      && (ev.Failed? && s.calls[ev.i].Popped? ==> FrontStored(s, s', s.calls[ev.i].m))
      && (ev.Continue? && s.buffer != [] ==> s'.calls == s.calls[ev.i := Popped(s.buffer[0])] && s'.buffer == s.buffer[1..])
      && (ev.Continue? && s.buffer == [] ==> s'.calls == s.calls[ev.i := Returned] && s'.buffer == [])
  {
    if ev.Submit? {
      AppendDropsOldest(s.limit, s.buffer, s.submitted);
      StoredShows(s, Apply(s, ev), Append(s.limit, s.buffer, s.submitted));
    } else if ev.Failed? {
      PutBackDropsOldest(s.limit, s.buffer, s.calls[ev.i].m);
      StoredShows(s, Apply(s, ev), PutBack(s.limit, s.buffer, s.calls[ev.i].m, s.calls[ev.i].Popped?));
    }
  }

  ghost predicate NewestStored(s: State, s': State, m: nat) {
    |s.discarded| <= |s'.discarded| && s'.discarded[..|s.discarded|] == s.discarded
    && KeepsNewest(s.limit, s.buffer, m, Stored(s'.buffer, s'.discarded[|s.discarded|..]))
  }

  ghost predicate FrontStored(s: State, s': State, m: nat) {
    |s.discarded| <= |s'.discarded| && s'.discarded[..|s.discarded|] == s.discarded
    && KeepsFront(s.limit, s.buffer, m, Stored(s'.buffer, s'.discarded[|s.discarded|..]))
  }

  lemma StoredShows(s: State, s': State, stored: Stored)
    ensures s'.discarded == s.discarded + stored.dropped ==>
      s'.discarded[..|s.discarded|] == s.discarded && s'.discarded[|s.discarded|..] == stored.dropped
  {
  }

  // ---- One call at a time -----------------------------------------------------------

  predicate Ascending(s: seq<nat>) { forall i, j :: 0 <= i < j < |s| ==> s[i] < s[j] }

  datatype Outcome = Ok | Buffered | TransferIncomplete | IndexError

  class FrontEndWebSocketDispatcher {
    const limit: nat
    var connected: bool
    var buffer: seq<nat>
    var delivered: seq<nat>
    var discarded: seq<nat>

    constructor (limit: nat, connected: bool)
      ensures this.limit == limit && this.connected == connected
      ensures buffer == [] && delivered == [] && discarded == []
    {
      this.limit, this.connected := limit, connected;
      buffer, delivered, discarded := [], [], [];
    }

    method HandleFailure(m: nat, left: bool) returns (r: Outcome)
      requires |buffer| <= limit
      modifies this
      ensures var stored := PutBack(limit, old(buffer), m, left);
        buffer == stored.buffer && discarded == old(discarded) + stored.dropped
      ensures |discarded| >= |old(discarded)| && discarded[..|old(discarded)|] == old(discarded)
      ensures var stored := Stored(buffer, discarded[|old(discarded)|..]);
        if left then KeepsFront(limit, old(buffer), m, stored) else KeepsNewest(limit, old(buffer), m, stored)
      ensures r == if limit == 0 then IndexError else TransferIncomplete
      ensures !connected && delivered == old(delivered)
    {
      connected := false;
      PutBackDropsOldest(limit, buffer, m);
      if |buffer| >= limit {
        if buffer == [] {
          discarded := discarded + [m];
          return IndexError;
        }
        discarded := discarded + [buffer[0]];
        buffer := buffer[1..];
      }
      var stored := if left then AppendLeft(limit, buffer, m) else Append(limit, buffer, m);
      discarded := discarded + stored.dropped;
      buffer := stored.buffer;
      r := TransferIncomplete;
    }

    /** `_send_buffer`, when the transport takes `good` more messages and then fails: the
        oldest go out in order, and on a failure the rest stay as they were. */
    method SendBuffer(good: nat) returns (r: Outcome)
      requires |buffer| <= limit
      modifies this
      ensures var k := if good < |old(buffer)| then good else |old(buffer)|;
        && delivered == old(delivered) + old(buffer)[..k] && buffer == old(buffer)[k..]
        && discarded == old(discarded)
        && (r.Ok? <==> k == |old(buffer)|) && (r.Ok? || r.TransferIncomplete?)
      ensures r.Ok? ==> connected == old(connected)
      ensures !r.Ok? ==> !connected
    {
      var k := 0;
      while |buffer| > 0
        invariant 0 <= k <= |old(buffer)| && k <= good && buffer == old(buffer)[k..]
        invariant delivered == old(delivered) + old(buffer)[..k]
        invariant discarded == old(discarded) && connected == old(connected)
        decreases |buffer|
      {
        var m := buffer[0];
        buffer := buffer[1..];
        if k == good {
          r := HandleFailure(m, true);
          return;
        }
        delivered := delivered + [m];
        k := k + 1;
      }
      r := Ok;
    }

    /** `submit`, when the transport takes `good` messages and then fails. A new message goes
        out before the ones that wait, so messages arrive in the order of submission only
        as long as nothing had to wait; what waits stays in that order. */
    method Submit(m: nat, good: nat) returns (r: Outcome)
      requires |buffer| <= limit
      modifies this
      ensures |buffer| <= limit
      ensures old(connected) && good > |old(buffer)| ==>
        r.Ok? && buffer == [] && delivered == old(delivered) + [m] + old(buffer)
      ensures old(connected) && 0 < good <= |old(buffer)| ==>
        && r.TransferIncomplete? && !connected && buffer == old(buffer)[good - 1..]
        && delivered == old(delivered) + [m] + old(buffer)[..good - 1]
      ensures old(connected) && good > 0 ==> discarded == old(discarded)
      ensures !old(connected) || good == 0 ==>
        var all := old(buffer) + [m];
        var cut := if |all| > limit then |all| - limit else 0;
        && !connected && delivered == old(delivered)
        && buffer == all[cut..] && discarded == old(discarded) + all[..cut]
      ensures r == if !old(connected) then Buffered
                   else if good == 0 then (if limit == 0 then IndexError else TransferIncomplete)
                   else if good > |old(buffer)| then Ok else TransferIncomplete
      ensures Ascending(old(buffer) + [m]) ==> Ascending(buffer)
    {
      AppendDropsOldest(limit, buffer, m);
      PutBackDropsOldest(limit, buffer, m);
      if Ascending(buffer + [m]) { KeepsOrder(limit, buffer, m); }
      if !connected {
        var stored := Append(limit, buffer, m);
        buffer, discarded := stored.buffer, discarded + stored.dropped;
        return Buffered;
      }
      if good == 0 {
        r := HandleFailure(m, false);
        return;
      }
      delivered := delivered + [m];
      r := SendBuffer(good - 1);
    }
  }

  lemma KeepsOrder(limit: nat, buffer: seq<nat>, m: nat)
    requires |buffer| <= limit && Ascending(buffer + [m])
    ensures Ascending(buffer)
    ensures Ascending(Append(limit, buffer, m).buffer) && Ascending(PutBack(limit, buffer, m, false).buffer)
  {
    var all := buffer + [m];
    assert forall i :: 0 <= i < |buffer| ==> all[i] == buffer[i];
    if buffer != [] { assert buffer[1..] + [m] == all[1..]; }
  }
}
