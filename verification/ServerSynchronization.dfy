/**
 * The synchronisation-window registry of the simulation server. Clients
 * register participants; each participant owns a window whose target game
 * time says how far the simulation may advance. A positive target means the
 * participant asks for synchronous mode; the server never advances past the
 * smallest positive target. The mutex that serialises the calls is not
 * modelled: every method is one atomic step.
 */
module ServerSynchronization {
  import opened Wrappers
  import StringOrder

  /** `uint32_t`: the participant id type. */
  newtype uint32 = x: int | 0 <= x < 0x1_0000_0000

  const UINT32_MAX: uint32 := 0xFFFF_FFFF

  /** The client id that addresses every client. */
  const AllClients: string := ""
  /** The participant id that addresses every participant of a client. */
  const AllParticipants: uint32 := 0
  /** A window at or below this target does not ask for synchronous mode. */
  const NoSyncTargetGameTime: real := 0.0
  /** The smallest target: synchronous mode that blocks until the first update. */
  const BlockingTargetGameTime: real := 0.000001

  /** One entry of the client → window multimap. */
  datatype Window = Window(client: string, participant: uint32, target: real)

  /** `synchronization_window_participant_state`: what the server reports per window. */
  datatype ParticipantState = ParticipantState(clientId: string, participantId: uint32, targetGameTime: real)

  predicate IsActive(w: Window) { w.target > NoSyncTargetGameTime }

  // ---------------------------------------------------------------- multimap order

  /** The iteration order of a multimap: clients in ascending string order. */
  predicate Sorted(ws: seq<Window>) {
    forall i, j :: 0 <= i < j < |ws| ==> !StringOrder.Less(ws[j].client, ws[i].client)
  }

  /** Multimap insertion: after every entry whose client is not greater. */
  function InsertWindow(ws: seq<Window>, w: Window): seq<Window> {
    if ws == [] then [w]
    else if StringOrder.Less(w.client, ws[0].client) then [w] + ws
    else [ws[0]] + InsertWindow(ws[1..], w)
  }

  /** Insertion adds exactly the new window. */
  lemma {:induction false} InsertWindowContents(ws: seq<Window>, w: Window)
    ensures multiset(InsertWindow(ws, w)) == multiset(ws) + multiset{w}
    decreases |ws|
  {
    if ws != [] && !StringOrder.Less(w.client, ws[0].client) {
      InsertWindowContents(ws[1..], w);
      assert ws == [ws[0]] + ws[1..];
    }
  }

  /** The windows of one client, in iteration order. */
  function OfClient(ws: seq<Window>, c: string): seq<Window> {
    if ws == [] then []
    else (if ws[0].client == c then [ws[0]] else []) + OfClient(ws[1..], c)
  }

  lemma {:induction false} OfAbsentClient(ws: seq<Window>, c: string)
    requires forall i :: 0 <= i < |ws| ==> ws[i].client != c
    ensures OfClient(ws, c) == []
    decreases |ws|
  {
    if ws != [] {
      OfAbsentClient(ws[1..], c);
    }
  }

  /** Every window of `ws` has a client after `c`. */
  predicate AllAfter(ws: seq<Window>, c: string) {
    forall j :: 0 <= j < |ws| ==> StringOrder.Less(c, ws[j].client)
  }

  lemma SortedAfterFirst(ws: seq<Window>, c: string)
    requires Sorted(ws) && |ws| > 0 && StringOrder.Less(c, ws[0].client)
    ensures AllAfter(ws, c)
  {
    forall j | 0 < j < |ws|
      ensures StringOrder.Less(c, ws[j].client)
    {
      if ws[0].client == ws[j].client {
      } else {
        StringOrder.LessTotal(ws[0].client, ws[j].client);
        StringOrder.LessTransitive(c, ws[0].client, ws[j].client);
      }
    }
  }

  /** A window no later than every window of a sorted list can go in front of it. */
  lemma ConsSorted(x: Window, rest: seq<Window>)
    requires Sorted(rest)
    requires forall k :: 0 <= k < |rest| ==> !StringOrder.Less(rest[k].client, x.client)
    ensures Sorted([x] + rest)
  {
    var r := [x] + rest;
    forall i, j | 0 <= i < j < |r|
      ensures !StringOrder.Less(r[j].client, r[i].client)
    {
      assert r[j] == rest[j - 1];
      if i > 0 {
        assert r[i] == rest[i - 1];
      }
    }
  }

  /** Insertion keeps the multimap sorted. */
  lemma {:induction false} InsertWindowSorted(ws: seq<Window>, w: Window)
    requires Sorted(ws)
    ensures Sorted(InsertWindow(ws, w))
    decreases |ws|
  {
    if ws == [] {
    } else if StringOrder.Less(w.client, ws[0].client) {
      SortedAfterFirst(ws, w.client);
      forall k | 0 <= k < |ws| ensures !StringOrder.Less(ws[k].client, w.client) {
        StringOrder.LessAsymmetric(w.client, ws[k].client);
      }
      ConsSorted(w, ws);
    } else {
      InsertWindowSorted(ws[1..], w);
      InsertWindowContents(ws[1..], w);
      var rest := InsertWindow(ws[1..], w);
      forall k | 0 <= k < |rest| ensures !StringOrder.Less(rest[k].client, ws[0].client) {
        var x := rest[k];
        assert x in multiset(rest);
        if x != w {
          assert x in multiset(ws[1..]);
          var j :| 0 <= j < |ws[1..]| && ws[1..][j] == x;
          assert ws[j + 1] == x;
        }
      }
      ConsSorted(ws[0], rest);
    }
  }

  /**
   * Insertion puts the new window after every window of the same client and
   * leaves the other clients' windows as they were.
   */
  lemma {:induction false} InsertWindowOfClient(ws: seq<Window>, w: Window, c: string)
    requires Sorted(ws)
    ensures OfClient(InsertWindow(ws, w), c) == OfClient(ws, c) + (if c == w.client then [w] else [])
    decreases |ws|
  {
    var tail := if c == w.client then [w] else [];
    if ws == [] {
      OfClientCons(w, [], c);
    } else if StringOrder.Less(w.client, ws[0].client) {
      OfClientCons(w, ws, c);
      if c == w.client {
        OfLaterClient(ws, c);
      }
    } else {
      var rest := InsertWindow(ws[1..], w);
      var head := if ws[0].client == c then [ws[0]] else [];
      SortedTail(ws);
      InsertWindowOfClient(ws[1..], w, c);
      assert InsertWindow(ws, w) == [ws[0]] + rest;
      OfClientCons(ws[0], rest, c);
      assert ws == [ws[0]] + ws[1..];
      OfClientCons(ws[0], ws[1..], c);
      assert head + (OfClient(ws[1..], c) + tail) == (head + OfClient(ws[1..], c)) + tail;
    }
  }

  lemma SortedTail(ws: seq<Window>)
    requires Sorted(ws) && ws != []
    ensures Sorted(ws[1..])
  {
    var t := ws[1..];
    forall i, j | 0 <= i < j < |t|
      ensures !StringOrder.Less(t[j].client, t[i].client)
    {
      assert t[i] == ws[i + 1] && t[j] == ws[j + 1];
    }
  }

  lemma OfClientCons(x: Window, rest: seq<Window>, c: string)
    ensures OfClient([x] + rest, c) == (if x.client == c then [x] else []) + OfClient(rest, c)
  {
    assert ([x] + rest)[1..] == rest;
  }

  /** A sorted list that starts after `c` has no window of `c`. */
  lemma OfLaterClient(ws: seq<Window>, c: string)
    requires Sorted(ws) && |ws| > 0 && StringOrder.Less(c, ws[0].client)
    ensures OfClient(ws, c) == []
  {
    SortedAfterFirst(ws, c);
    forall j | 0 <= j < |ws| ensures ws[j].client != c {
      StringOrder.LessIrreflexive(c);
    }
    OfAbsentClient(ws, c);
  }

  /** Every window's id is at most its client's maximum. */
  predicate Bounded(ws: seq<Window>, maxIds: map<string, uint32>) {
    forall i :: 0 <= i < |ws| ==> ws[i].client in maxIds && ws[i].participant <= maxIds[ws[i].client]
  }

  /** Raising a client's maximum and inserting a window within it keeps every id within its maximum. */
  lemma {:induction false} InsertWindowBounded(ws: seq<Window>, w: Window, maxIds: map<string, uint32>, max: uint32)
    requires Bounded(ws, maxIds)
    requires w.client in maxIds ==> maxIds[w.client] <= max
    requires w.participant <= max
    ensures Bounded(InsertWindow(ws, w), maxIds[w.client := max])
    decreases |ws|
  {
    if ws != [] && !StringOrder.Less(w.client, ws[0].client) {
      InsertWindowBounded(ws[1..], w, maxIds, max);
      assert InsertWindow(ws, w) == [ws[0]] + InsertWindow(ws[1..], w);
    }
  }

  // ---------------------------------------------------------------- erasing

  /** Which windows an erase removes: one participant of a client, or the whole client. */
  datatype Selector = Participant(client: string, participant: uint32) | WholeClient(client: string)

  predicate Picks(s: Selector, w: Window) {
    match s
    case Participant(c, p) => w.client == c && w.participant == p
    case WholeClient(c) => w.client == c
  }

  /** The windows left after erasing the selected ones, in their order. */
  function Erase(ws: seq<Window>, s: Selector): (r: seq<Window>)
    decreases |ws|
  {
    if ws == [] then []
    else
      var last := ws[|ws| - 1];
      Erase(ws[..|ws| - 1], s) + (if Picks(s, last) then [] else [last])
  }

  /** Erasing removes every copy of the selected windows and keeps every copy of the others. */
  lemma {:induction false} EraseContents(ws: seq<Window>, s: Selector)
    ensures forall w :: multiset(Erase(ws, s))[w] == if Picks(s, w) then 0 else multiset(ws)[w]
    decreases |ws|
  {
    if ws != [] {
      var front := ws[..|ws| - 1];
      EraseContents(front, s);
      assert ws == front + [ws[|ws| - 1]];
    }
  }

  /** No selected window survives erasing. */
  lemma {:induction false} EraseDropsSelected(ws: seq<Window>, s: Selector)
    ensures forall i :: 0 <= i < |Erase(ws, s)| ==> !Picks(s, Erase(ws, s)[i])
    decreases |ws|
  {
    if ws != [] {
      EraseDropsSelected(ws[..|ws| - 1], s);
    }
  }

  /** Erasing keeps the relative order, so the multimap stays sorted. */
  lemma {:induction false} EraseSorted(ws: seq<Window>, s: Selector)
    requires Sorted(ws)
    ensures Sorted(Erase(ws, s))
    decreases |ws|
  {
    if ws != [] {
      var front := ws[..|ws| - 1];
      var last := ws[|ws| - 1];
      EraseSorted(front, s);
      EraseContents(front, s);
      var r := Erase(ws, s);
      var e := Erase(front, s);
      if !Picks(s, last) {
        forall i, j | 0 <= i < j < |r|
          ensures !StringOrder.Less(r[j].client, r[i].client)
        {
          if j == |r| - 1 {
            assert r[i] == e[i] && r[i] in multiset(e);
            assert r[i] in multiset(front);
            var k :| 0 <= k < |front| && front[k] == r[i];
            assert ws[k] == r[i];
          } else {
            assert r[i] == e[i] && r[j] == e[j];
          }
        }
      }
    }
  }

  lemma {:induction false} EraseBounded(ws: seq<Window>, s: Selector, maxIds: map<string, uint32>)
    requires Bounded(ws, maxIds)
    ensures Bounded(Erase(ws, s), maxIds)
    decreases |ws|
  {
    if ws != [] {
      EraseBounded(ws[..|ws| - 1], s, maxIds);
    }
  }

  // ---------------------------------------------------------------- target edits

  /** The four ways the registry rewrites targets in place. */
  datatype Edit = EnableEdit | DisableEdit | UpdateEdit(time: real) | ForceEdit(time: real)

  /** The window belongs to the client and to the participant, or the participant is "all". */
  predicate Selects(w: Window, client: string, participant: uint32) {
    w.client == client && (participant == AllParticipants || w.participant == participant)
  }

  /** Whether an edit rewrites this window. */
  predicate Touches(e: Edit, w: Window, client: string, participant: uint32) {
    match e
    case EnableEdit => Selects(w, client, participant) && !IsActive(w)
    case DisableEdit => Selects(w, client, participant) && IsActive(w)
    case UpdateEdit(_) => w.client == client && w.participant == participant
    case ForceEdit(_) => IsActive(w)
  }

  function NewTarget(e: Edit): real {
    match e
    case EnableEdit => BlockingTargetGameTime
    case DisableEdit => NoSyncTargetGameTime
    case UpdateEdit(t) => t
    case ForceEdit(t) => t
  }

  function Retarget(e: Edit, w: Window, client: string, participant: uint32): Window {
    if Touches(e, w, client, participant) then w.(target := NewTarget(e)) else w
  }

  /** Every window after the edit: only touched windows change, and only in their target. */
  function RetargetAll(ws: seq<Window>, e: Edit, client: string, participant: uint32): (r: seq<Window>)
    ensures |r| == |ws|
    decreases |ws|
  {
    if ws == [] then []
    else
      var n := |ws| - 1;
      RetargetAll(ws[..n], e, client, participant) + [Retarget(e, ws[n], client, participant)]
  }

  /** Only touched windows change, and only in their target. */
  lemma {:induction false} RetargetAllAt(ws: seq<Window>, e: Edit, client: string, participant: uint32, i: nat)
    requires i < |ws|
    ensures var r := RetargetAll(ws, e, client, participant);
      r[i].client == ws[i].client && r[i].participant == ws[i].participant
      && (Touches(e, ws[i], client, participant) ==> r[i].target == NewTarget(e))
      && (!Touches(e, ws[i], client, participant) ==> r[i] == ws[i])
    decreases |ws|
  {
    if i < |ws| - 1 {
      RetargetAllAt(ws[..|ws| - 1], e, client, participant, i);
    }
  }

  predicate TouchesAny(ws: seq<Window>, e: Edit, client: string, participant: uint32) {
    exists i :: 0 <= i < |ws| && Touches(e, ws[i], client, participant)
  }

  /** An edit that touches nothing changes nothing. */
  lemma RetargetUntouched(ws: seq<Window>, e: Edit, client: string, participant: uint32)
    requires !TouchesAny(ws, e, client, participant)
    ensures RetargetAll(ws, e, client, participant) == ws
  {
    var r := RetargetAll(ws, e, client, participant);
    forall i | 0 <= i < |ws| ensures r[i] == ws[i] {
      RetargetAllAt(ws, e, client, participant, i);
    }
  }

  /** Retargeting keeps clients in place, so the multimap stays sorted. */
  lemma RetargetSorted(ws: seq<Window>, e: Edit, client: string, participant: uint32)
    requires Sorted(ws)
    ensures Sorted(RetargetAll(ws, e, client, participant))
  {
    var r := RetargetAll(ws, e, client, participant);
    forall i | 0 <= i < |ws| ensures r[i].client == ws[i].client {
      RetargetAllAt(ws, e, client, participant, i);
    }
  }

  lemma RetargetBounded(ws: seq<Window>, e: Edit, client: string, participant: uint32, maxIds: map<string, uint32>)
    requires Bounded(ws, maxIds)
    ensures Bounded(RetargetAll(ws, e, client, participant), maxIds)
  {
    var r := RetargetAll(ws, e, client, participant);
    forall i | 0 <= i < |ws| ensures r[i].client == ws[i].client && r[i].participant == ws[i].participant {
      RetargetAllAt(ws, e, client, participant, i);
    }
  }

  /** The loop of `ApplyEdit`: every window rewritten in place, and whether any was touched. */
  method RetargetWindows(ws: seq<Window>, e: Edit, client: string, participant: uint32)
    returns (edited: seq<Window>, touched: bool)
    ensures edited == RetargetAll(ws, e, client, participant)
    ensures touched == TouchesAny(ws, e, client, participant)
  {
    touched := false;
    edited := [];
    var i := 0;
    while i < |ws|
      invariant 0 <= i <= |ws|
      invariant edited == RetargetAll(ws[..i], e, client, participant)
      invariant touched == TouchesAny(ws[..i], e, client, participant)
    {
      RetargetStep(ws, e, client, participant, i);
      if Touches(e, ws[i], client, participant) {
        touched := true;
      }
      edited := edited + [Retarget(e, ws[i], client, participant)];
      i := i + 1;
    }
    assert ws[..i] == ws;
  }

  /** One more window seen by the loop of `ApplyEdit`. */
  lemma RetargetStep(ws: seq<Window>, e: Edit, client: string, participant: uint32, i: nat)
    requires i < |ws|
    ensures RetargetAll(ws[..i + 1], e, client, participant)
            == RetargetAll(ws[..i], e, client, participant) + [Retarget(e, ws[i], client, participant)]
    ensures TouchesAny(ws[..i + 1], e, client, participant)
            == (TouchesAny(ws[..i], e, client, participant) || Touches(e, ws[i], client, participant))
  {
    assert ws[..i + 1][..i] == ws[..i];
    if Touches(e, ws[i], client, participant) {
      assert ws[..i + 1][i] == ws[i];
    }
  }

  // ---------------------------------------------------------------- synchronous mode

  /** Synchronous mode is on when some window has a positive target. */
  predicate Active(ws: seq<Window>) {
    exists i :: 0 <= i < |ws| && IsActive(ws[i])
  }

  /** Enabling a client that has a selected window turns synchronous mode on. */
  lemma EnableActivates(ws: seq<Window>, client: string, participant: uint32, i: nat)
    requires i < |ws| && Selects(ws[i], client, participant)
    ensures Active(RetargetAll(ws, EnableEdit, client, participant))
  {
    RetargetAllAt(ws, EnableEdit, client, participant, i);
    assert IsActive(RetargetAll(ws, EnableEdit, client, participant)[i]);
  }

  /** After disabling every participant of a client, none of its windows asks for synchronous mode. */
  lemma DisableAllDeactivates(ws: seq<Window>, client: string)
    ensures forall i :: 0 <= i < |ws| && ws[i].client == client ==>
      !IsActive(RetargetAll(ws, DisableEdit, client, AllParticipants)[i])
  {
    forall i | 0 <= i < |ws| && ws[i].client == client
      ensures !IsActive(RetargetAll(ws, DisableEdit, client, AllParticipants)[i])
    {
      RetargetAllAt(ws, DisableEdit, client, AllParticipants, i);
    }
  }

  /**
   * The target game time: the requested time, lowered to every positive
   * window target below it, in iteration order.
   */
  function TargetTime(ws: seq<Window>, requested: real): real
    decreases |ws|
  {
    if ws == [] then requested
    else
      var t := TargetTime(ws[..|ws| - 1], requested);
      var last := ws[|ws| - 1];
      if IsActive(last) && last.target < t then last.target else t
  }

  /**
   * The target time is the minimum of the requested time and every positive
   * window target.
   */
  lemma {:induction false} TargetTimeIsMinimum(ws: seq<Window>, requested: real)
    ensures TargetTime(ws, requested) <= requested
    ensures forall i :: 0 <= i < |ws| && IsActive(ws[i]) ==> TargetTime(ws, requested) <= ws[i].target
    ensures TargetTime(ws, requested) == requested
      || exists i :: 0 <= i < |ws| && IsActive(ws[i]) && TargetTime(ws, requested) == ws[i].target
    decreases |ws|
  {
    if ws != [] {
      var front := ws[..|ws| - 1];
      TargetTimeIsMinimum(front, requested);
      if TargetTime(front, requested) != requested {
        var i :| 0 <= i < |front| && IsActive(front[i]) && TargetTime(front, requested) == front[i].target;
        assert ws[i] == front[i];
      }
      forall i | 0 <= i < |ws| - 1 ensures ws[i] == front[i] { }
    }
  }

  /** Without synchronous mode the server advances by the requested step. */
  lemma {:induction false} InactiveTargetTime(ws: seq<Window>, requested: real)
    requires !Active(ws)
    ensures TargetTime(ws, requested) == requested
    decreases |ws|
  {
    if ws != [] {
      var front := ws[..|ws| - 1];
      assert !Active(front) by {
        forall i | 0 <= i < |front| ensures !IsActive(front[i]) {
          assert front[i] == ws[i];
        }
      }
      InactiveTargetTime(front, requested);
    }
  }

  /** The reported states, one per window in iteration order. */
  function StatesOf(ws: seq<Window>): (r: seq<ParticipantState>)
    ensures |r| == |ws|
    ensures forall i :: 0 <= i < |ws| ==>
      r[i] == ParticipantState(ws[i].client, ws[i].participant, ws[i].target)
    decreases |ws|
  {
    if ws == [] then []
    else
      var w := ws[|ws| - 1];
      StatesOf(ws[..|ws| - 1]) + [ParticipantState(w.client, w.participant, w.target)]
  }

  /** The new maximum id of a client: the incremented (wrapping) maximum, or the larger of the hint and the maximum. */
  function NextId(max: uint32, hint: uint32): (id: uint32)
    ensures hint != AllParticipants ==> id == hint
    ensures hint == AllParticipants && max < UINT32_MAX ==> id == max + 1
    ensures hint == AllParticipants && max == UINT32_MAX ==> id == 0
  {
    if hint == AllParticipants then ((max as int + 1) % 0x1_0000_0000) as uint32 else hint
  }

  /** The error `UpdateSynchronizationWindow` reports when no window matches. */
  const ParticipantNotFound: string :=
    "ServerSynchronization::UpdateSynchronizationWindow did not find requested SynchronizationParticipant\n"

  class Registry {
    /** `ParticipantIdMaxMap`: the largest id handed to each client so far. */
    var maxIds: map<string, uint32>
    /** `SynchronizationWindowMap` in iteration order. */
    var windows: seq<Window>
    /** `SyncStateChanged`. */
    var changed: bool

    ghost predicate Valid()
      reads this
    {
      Sorted(windows)
    }

    /** Every window id is at most its client's maximum: automatic ids are then fresh. */
    ghost predicate IdsBounded()
      reads this
    {
      Bounded(windows, maxIds)
    }

    function MaxId(client: string): uint32
      reads this
    {
      if client in maxIds then maxIds[client] else AllParticipants
    }

    constructor ()
      ensures Valid() && IdsBounded()
      ensures maxIds == map[] && windows == [] && !changed
    {
      maxIds := map[];
      windows := [];
      changed := false;
    }

    /**
     * Registers a participant: the hint, or for the "all participants" hint
     * the incremented maximum of the client. The window starts without
     * synchronous mode. Insertion into a multimap cannot fail, so the
     * "id clash" error is never returned.
     */
    method RegisterSynchronizationParticipant(client: string, hint: uint32) returns (r: Result<uint32, string>)
      requires Valid()
      modifies this
      ensures Valid()
      ensures r.Success?
      ensures var base := old(MaxId(client));
        var id := NextId(base, hint);
        r.value == id
        && maxIds == old(maxIds)[client := if hint == AllParticipants || id > base then id else base]
        && windows == InsertWindow(old(windows), Window(client, id, NoSyncTargetGameTime))
        && changed
      ensures old(IdsBounded()) && (hint != AllParticipants || old(MaxId(client)) < UINT32_MAX) ==> IdsBounded()
      ensures old(IdsBounded()) && hint == AllParticipants && old(MaxId(client)) < UINT32_MAX ==>
        forall i :: 0 <= i < |old(windows)| && old(windows)[i].client == client ==>
          old(windows)[i].participant < r.value
    {
      var max := MaxId(client);
      var id := hint;
      if id == AllParticipants {
        max := NextId(max, hint);
        id := max;
      }
      var w := Window(client, id, NoSyncTargetGameTime);
      InsertWindowSorted(windows, w);
      if IdsBounded() && (hint != AllParticipants || old(MaxId(client)) < UINT32_MAX) {
        InsertWindowBounded(windows, w, maxIds, if id > max then id else max);
      }
      windows := InsertWindow(windows, w);
      if id > max {
        max := id;
      }
      maxIds := maxIds[client := max];
      changed := true;
      r := Success(id);
    }

    /** Erases the windows of one participant of a client; always reports success. */
    method DeregisterSynchronizationParticipant(client: string, participant: uint32) returns (ok: bool)
      requires Valid()
      modifies this
      ensures Valid()
      ensures ok && changed
      ensures windows == Erase(old(windows), Participant(client, participant))
      ensures maxIds == old(maxIds)
      ensures old(IdsBounded()) ==> IdsBounded()
    {
      var kept: seq<Window> := [];
      var i := 0;
      while i < |windows|
        invariant 0 <= i <= |windows|
        invariant kept == Erase(windows[..i], Participant(client, participant))
      {
        if !(windows[i].client == client && windows[i].participant == participant) {
          kept := kept + [windows[i]];
        }
        assert windows[..i + 1][..i] == windows[..i];
        i := i + 1;
      }
      assert windows[..i] == windows;
      EraseSorted(windows, Participant(client, participant));
      if IdsBounded() {
        EraseBounded(windows, Participant(client, participant), maxIds);
      }
      windows := kept;
      changed := true;
      ok := true;
    }

    /** Erases every window of a client; the maximum ids are kept, so ids are never reused. */
    method DisconnectClient(client: string)
      requires Valid()
      modifies this
      ensures Valid()
      ensures changed
      ensures windows == Erase(old(windows), WholeClient(client))
      ensures forall i :: 0 <= i < |windows| ==> windows[i].client != client
      ensures maxIds == old(maxIds)
      ensures old(IdsBounded()) ==> IdsBounded()
    {
      EraseSorted(windows, WholeClient(client));
      EraseDropsSelected(windows, WholeClient(client));
      if IdsBounded() {
        EraseBounded(windows, WholeClient(client), maxIds);
      }
      windows := Erase(windows, WholeClient(client));
      changed := true;
    }

    /** The target rewrite shared by the enable, disable and update loops. */
    method ApplyEdit(e: Edit, client: string, participant: uint32) returns (touched: bool)
      requires Valid()
      modifies this
      ensures Valid()
      ensures windows == RetargetAll(old(windows), e, client, participant)
      ensures touched == TouchesAny(old(windows), e, client, participant)
      ensures maxIds == old(maxIds) && changed == old(changed)
      ensures old(IdsBounded()) ==> IdsBounded()
    {
      var ws := windows;
      var edited;
      edited, touched := RetargetWindows(ws, e, client, participant);
      RetargetSorted(ws, e, client, participant);
      if IdsBounded() {
        RetargetBounded(ws, e, client, participant, maxIds);
      }
      windows := edited;
    }

    /** Gives every selected window without synchronous mode the blocking target. */
    method EnableSynchronousMode(client: string, participant: uint32)
      requires Valid()
      modifies this
      ensures Valid()
      ensures windows == RetargetAll(old(windows), EnableEdit, client, participant)
      ensures changed == (old(changed) || TouchesAny(old(windows), EnableEdit, client, participant))
      ensures maxIds == old(maxIds)
      ensures old(IdsBounded()) ==> IdsBounded()
    {
      var touched := ApplyEdit(EnableEdit, client, participant);
      if touched {
        changed := true;
      }
    }

    /** Takes every selected window with synchronous mode back to the no-sync target. */
    method DisableSynchronousMode(client: string, participant: uint32)
      requires Valid()
      modifies this
      ensures Valid()
      ensures windows == RetargetAll(old(windows), DisableEdit, client, participant)
      ensures changed == (old(changed) || TouchesAny(old(windows), DisableEdit, client, participant))
      ensures maxIds == old(maxIds)
      ensures old(IdsBounded()) ==> IdsBounded()
    {
      var touched := ApplyEdit(DisableEdit, client, participant);
      if touched {
        changed := true;
      }
    }

    /** Whether some window has a positive target; stops at the first one. */
    method IsSynchronousModeActive() returns (active: bool)
      ensures active == Active(windows)
    {
      var i := 0;
      while i < |windows|
        invariant 0 <= i <= |windows|
        invariant forall k :: 0 <= k < i ==> !IsActive(windows[k])
      {
        if IsActive(windows[i]) {
          return true;
        }
        i := i + 1;
      }
      return false;
    }

    /** The game time the server may advance to: at most the requested time, never past an active target. */
    method GetTargetSynchronizationTime(currentGameTime: real, requestedDeltaTime: real) returns (target: real)
      ensures target == TargetTime(windows, currentGameTime + requestedDeltaTime)
      ensures target <= currentGameTime + requestedDeltaTime
      ensures forall i :: 0 <= i < |windows| && IsActive(windows[i]) ==> target <= windows[i].target
    {
      target := currentGameTime + requestedDeltaTime;
      var i := 0;
      while i < |windows|
        invariant 0 <= i <= |windows|
        invariant target == TargetTime(windows[..i], currentGameTime + requestedDeltaTime)
      {
        if IsActive(windows[i]) && windows[i].target < target {
          target := windows[i].target;
        }
        assert windows[..i + 1][..i] == windows[..i];
        i := i + 1;
      }
      assert windows[..i] == windows;
      TargetTimeIsMinimum(windows, currentGameTime + requestedDeltaTime);
    }

    /**
     * Sets the target of one participant of a named client, or for the
     * "all clients" id the target of every window in synchronous mode. A
     * named participant that does not exist is an error and changes nothing.
     */
    method UpdateSynchronizationWindow(client: string, participant: uint32, targetGameTime: real)
      returns (r: Result<bool, string>)
      requires Valid()
      modifies this
      ensures Valid()
      ensures client != AllClients ==>
        (r.Failure? <==> !TouchesAny(old(windows), UpdateEdit(targetGameTime), client, participant))
      ensures client == AllClients ==> r.Success?
      ensures r.Success? ==> r.value && changed
      ensures r.Success? && client != AllClients ==>
        windows == RetargetAll(old(windows), UpdateEdit(targetGameTime), client, participant)
      ensures r.Success? && client == AllClients ==>
        windows == RetargetAll(old(windows), ForceEdit(targetGameTime), client, participant)
      ensures r.Failure? ==> windows == old(windows) && changed == old(changed)
      ensures maxIds == old(maxIds)
      ensures old(IdsBounded()) ==> IdsBounded()
    {
      if client != AllClients {
        var found := ApplyEdit(UpdateEdit(targetGameTime), client, participant);
        if !found {
          RetargetUntouched(old(windows), UpdateEdit(targetGameTime), client, participant);
          return Failure(ParticipantNotFound);
        }
      } else {
        var _ := ApplyEdit(ForceEdit(targetGameTime), client, participant);
      }
      changed := true;
      r := Success(true);
    }

    /** Reports every window in iteration order with the change flag, then clears the flag. */
    method GetSynchronizationWindowParticipantStates() returns (wasChanged: bool, states: seq<ParticipantState>)
      modifies this
      ensures wasChanged == old(changed) && !changed
      ensures states == StatesOf(windows)
      ensures windows == old(windows) && maxIds == old(maxIds)
    {
      states := [];
      var i := 0;
      while i < |windows|
        invariant 0 <= i <= |windows|
        invariant states == StatesOf(windows[..i])
      {
        var w := windows[i];
        states := states + [ParticipantState(w.client, w.participant, w.target)];
        assert windows[..i + 1][..i] == windows[..i];
        i := i + 1;
      }
      assert windows[..i] == windows;
      wasChanged := changed;
      changed := false;
    }
  }
}
