/** Pushes and snapshot rounds of one account in every interleaving: what the server knows, what was pushed, which rounds are
    open, and what the local table says. */
module InviteRuns {
  import opened Wrappers
  import opened Invites

  datatype Change = Change(room: Room, membership: Membership)

  /** A round that is open: how much the server had when it began, when its snapshot was taken, whether it was written. */
  datatype Round = Round(begun: nat, snapshot: Option<nat>, applied: bool)

  type RoundId = int

  /** `history` are all changes of this account's invites, in order; the one at index `i` has position `i + 1`. Those before
      `subscribed` are not pushed. `sent` pushes were taken up so far; `marked` is taken up and not written yet. */
  datatype System = System(
    history: seq<Change>,
    subscribed: nat,
    sent: nat,
    marked: Option<nat>,
    open: Option<OpenRound>,
    rounds: map<RoundId, Round>,
    local: map<Room, Membership>,
    caughtUp: bool)

  datatype Event =
    | Changes(change: Change)
    | MarkPush
    | WritePush
    | BeginRound(id: RoundId)
    | Fetch(id: RoundId)
    | Apply(id: RoundId)
    | Drop(id: RoundId)

  /** The position of the last change of a room among the first `n`; 0 if there is none. */
  function Last(history: seq<Change>, room: Room): nat {
    if history == [] then 0
    else if history[|history| - 1].room == room then |history|
    else Last(history[..|history| - 1], room)
  }

  function MembershipAt(history: seq<Change>, at: nat): Membership
    requires 0 < at <= |history|
  {
    history[at - 1].membership
  }

  predicate IsInvited(history: seq<Change>, room: Room) {
    LastInside(history, room);
    Last(history, room) > 0 && MembershipAt(history, Last(history, room)).Invite?
  }

  /** The snapshot the server gives when it has this history: every room invited now, with the position of its invite. */
  function Snapshot(history: seq<Change>): map<Room, nat> {
    map room | room in (set i | 0 <= i < |history| :: history[i].room) && IsInvited(history, room) :: Last(history, room)
  }

  lemma {:induction false} LastInside(history: seq<Change>, room: Room)
    ensures Last(history, room) <= |history|
    ensures Last(history, room) > 0 ==> history[Last(history, room) - 1].room == room
    ensures forall i :: Last(history, room) <= i < |history| ==> history[i].room != room
  {
    if history != [] && history[|history| - 1].room != room {
      LastInside(history[..|history| - 1], room);
    }
  }

  ghost predicate Possible(y: System, e: Event) {
    match e
    case Changes(_) => true
    case MarkPush => y.marked.None? && y.sent < |y.history|
    case WritePush => y.marked.Some? && y.marked.value < |y.history|
    case BeginRound(id) => id !in y.rounds
    case Fetch(id) => id in y.rounds && y.rounds[id].snapshot.None?
    case Apply(id) =>
      && id in y.rounds && y.rounds[id].snapshot.Some? && !y.rounds[id].applied
      && y.rounds[id].snapshot.value <= |y.history|
    case Drop(id) => id in y.rounds
  }

  ghost function After(y: System, e: Event): System
    requires Possible(y, e)
  {
    match e
    case Changes(change) => y.(history := y.history + [change])
    case MarkPush =>
      y.(marked := Some(y.sent), sent := y.sent + 1, open := Touched(y.open, y.history[y.sent].room, y.sent + 1))
    case WritePush =>
      var change := y.history[y.marked.value];
      y.(marked := None, local := y.local[change.room := change.membership])
    case BeginRound(id) => y.(open := Some(Begun(y.open)), rounds := y.rounds[id := Round(|y.history|, None, false)])
    case Fetch(id) => y.(rounds := y.rounds[id := y.rounds[id].(snapshot := Some(|y.history|))])
    case Apply(id) =>
      var round := Snapshot(y.history[..y.rounds[id].snapshot.value]);
      y.(local := Written(y.local, round, TouchedRooms(y.open)), caughtUp := true,
         rounds := y.rounds[id := y.rounds[id].(applied := true)])
    case Drop(id) => y.(open := Dropped(y.open), rounds := y.rounds - {id})
  }

  /** The table after a snapshot of a wbf account, which says nothing about where departed rooms went. */
  ghost function Written(local: map<Room, Membership>, round: map<Room, nat>, touched: map<Room, nat>): map<Room, Membership> {
    map room | room in local.Keys + round.Keys && Applied(local, round, touched, map[], room).Some?
             :: Applied(local, round, touched, map[], room).value
  }

  lemma WrittenIs(local: map<Room, Membership>, round: map<Room, nat>, touched: map<Room, nat>, room: Room)
    ensures Of(Written(local, round, touched), room) == Applied(local, round, touched, map[], room)
  {
  }

  // ---- what always holds ----

  /** A push of this room is still to be written. */
  ghost predicate IsPending(y: System, room: Room) {
    || (y.marked.Some? && y.marked.value < |y.history| && y.history[y.marked.value].room == room)
    || exists i :: y.sent <= i < |y.history| && y.history[i].room == room
  }

  /** A room whose last change is pushed and written has just that membership locally. */
  ghost predicate PushedRight(y: System, room: Room) {
    LastInside(y.history, room);
    Last(y.history, room) > y.subscribed && !IsPending(y, room) ==>
      Of(y.local, room) == Some(MembershipAt(y.history, Last(y.history, room)))
  }

  /** A room that is not pushed at all is right about being invited once a snapshot was written. */
  ghost predicate OldRight(y: System, room: Room) {
    Last(y.history, room) <= y.subscribed && y.caughtUp ==>
      (Of(y.local, room) == Some(Invite) <==> IsInvited(y.history, room))
  }

  /** Every push taken up since a round began is among the touched rooms, as long as that round is open. */
  ghost predicate RoundSees(y: System, id: RoundId)
    requires id in y.rounds
  {
    && y.subscribed <= y.rounds[id].begun <= |y.history|
    && (y.rounds[id].snapshot.Some? ==> y.rounds[id].begun <= y.rounds[id].snapshot.value <= |y.history|)
    && forall j :: y.rounds[id].begun <= j < y.sent && j < |y.history| ==>
         y.history[j].room in TouchedRooms(y.open) && TouchedRooms(y.open)[y.history[j].room] >= j + 1
  }

  /** Rooms are kept as touched exactly while some round is open, and only for pushes. */
  ghost predicate OpenRight(y: System) {
    && (y.open.None? <==> y.rounds == map[])
    && (y.open.Some? ==> y.open.value.callers == |y.rounds|)
    && forall room :: room in TouchedRooms(y.open) ==> Last(y.history, room) > y.subscribed
  }

  ghost predicate Inv(y: System) {
    && y.subscribed <= y.sent <= |y.history|
    && (y.marked.Some? ==> y.subscribed <= y.marked.value && y.marked.value + 1 == y.sent)
    && OpenRight(y)
    && (forall id :: id in y.rounds ==> RoundSees(y, id))
    && (forall room :: PushedRight(y, room) && OldRight(y, room))
  }

  // ---- positions ----

  lemma {:induction false} LastIs(history: seq<Change>, room: Room, at: nat)
    requires at <= |history| && (at > 0 ==> history[at - 1].room == room)
    requires forall i :: at <= i < |history| ==> history[i].room != room
    ensures Last(history, room) == at
    decreases |history|
  {
    if |history| > at {
      LastIs(history[..|history| - 1], room, at);
    } else if at > 0 {
    }
  }

  /** What was last in the whole history is last in a prefix that has it; otherwise the prefix knows something older. */
  lemma {:induction false} LastPrefix(history: seq<Change>, n: nat, room: Room)
    requires n <= |history|
    ensures Last(history, room) <= n ==> Last(history[..n], room) == Last(history, room)
    ensures Last(history[..n], room) <= n
  {
    LastInside(history, room);
    LastInside(history[..n], room);
    if Last(history, room) <= n { LastIs(history[..n], room, Last(history, room)); }
  }

  lemma {:induction false} LastAppend(history: seq<Change>, change: Change, room: Room)
    ensures Last(history + [change], room) == if change.room == room then |history| + 1 else Last(history, room)
  {
    assert (history + [change])[..|history|] == history;
  }

  lemma {:induction false} InSnapshot(history: seq<Change>, room: Room)
    ensures room in Snapshot(history) <==> IsInvited(history, room)
    ensures room in Snapshot(history) ==> Snapshot(history)[room] == Last(history, room)
  {
    LastInside(history, room);
    if IsInvited(history, room) {
      var i := Last(history, room) - 1;
      assert history[i].room == room;
    }
  }

  // ---- the events ----

  lemma {:induction false} ChangesKeeps(y: System, change: Change)
    requires Inv(y)
    ensures Inv(y.(history := y.history + [change]))
  {
    var y2 := y.(history := y.history + [change]);
    forall room ensures PushedRight(y2, room) && OldRight(y2, room) {
      LastAppend(y.history, change, room);
      LastInside(y.history, room);
      assert PushedRight(y, room) && OldRight(y, room);
      if change.room == room {
        assert y2.history[|y.history|].room == room;
      } else if IsPending(y, room) {
        if exists i :: y.sent <= i < |y.history| && y.history[i].room == room {
          var i :| y.sent <= i < |y.history| && y.history[i].room == room;
          assert y2.history[i].room == room;
        }
      }
    }
    forall room | room in TouchedRooms(y.open) ensures Last(y2.history, room) > y2.subscribed {
      LastAppend(y.history, change, room);
    }
    forall id | id in y2.rounds ensures RoundSees(y2, id) {
      assert RoundSees(y, id);
    }
  }

  lemma {:induction false} MarkKeeps(y: System)
    requires Inv(y) && Possible(y, MarkPush)
    ensures Inv(After(y, MarkPush))
  {
    var y2 := After(y, MarkPush);
    var room0 := y.history[y.sent].room;
    forall room ensures PushedRight(y2, room) && OldRight(y2, room) {
      LastInside(y.history, room);
      assert PushedRight(y, room) && OldRight(y, room);
    }
    LastInside(y.history, room0);
    forall id | id in y2.rounds ensures RoundSees(y2, id) {
      assert RoundSees(y, id);
    }
  }

  lemma {:induction false} WriteKeeps(y: System)
    requires Inv(y) && Possible(y, WritePush)
    ensures Inv(After(y, WritePush))
  {
    var y2 := After(y, WritePush);
    var at := y.marked.value;
    forall room ensures PushedRight(y2, room) && OldRight(y2, room) {
      LastInside(y.history, room);
      assert PushedRight(y, room) && OldRight(y, room);
      if room == y.history[at].room && !IsPending(y2, room) {
        LastIs(y.history, room, at + 1);
      }
    }
    forall id | id in y2.rounds ensures RoundSees(y2, id) {
      assert RoundSees(y, id);
    }
  }

  lemma {:induction false} BeginKeeps(y: System, id: RoundId)
    requires Inv(y) && Possible(y, BeginRound(id))
    ensures Inv(After(y, BeginRound(id)))
  {
    var y2 := After(y, BeginRound(id));
    assert |y2.rounds| == |y.rounds| + 1 by { MoreRounds(y.rounds, id, y2.rounds[id]); }
    SameRooms(y, y2);
    assert id in y2.rounds;
    forall other | other in y2.rounds ensures RoundSees(y2, other) {
      if other != id { assert RoundSees(y, other); }
    }
  }

  lemma MoreRounds(rounds: map<RoundId, Round>, id: RoundId, round: Round)
    requires id !in rounds
    ensures |rounds[id := round]| == |rounds| + 1
  {
    assert rounds[id := round] - {id} == rounds;
  }

  /** Nothing a room depends on changed. */
  lemma {:induction false} SameRooms(y: System, y2: System)
    requires y2.history == y.history && y2.subscribed == y.subscribed && y2.sent == y.sent && y2.marked == y.marked
    requires y2.local == y.local && y2.caughtUp == y.caughtUp
    requires forall room :: PushedRight(y, room) && OldRight(y, room)
    ensures forall room :: PushedRight(y2, room) && OldRight(y2, room)
  {
    forall room ensures PushedRight(y2, room) && OldRight(y2, room) {
      assert PushedRight(y, room) && OldRight(y, room);
      assert IsPending(y2, room) == IsPending(y, room);
    }
  }

  lemma {:induction false} FetchKeeps(y: System, id: RoundId)
    requires Inv(y) && Possible(y, Fetch(id))
    ensures Inv(After(y, Fetch(id)))
  {
    var y2 := After(y, Fetch(id));
    assert |y2.rounds| == |y.rounds| by { assert y2.rounds.Keys == y.rounds.Keys; }
    SameRooms(y, y2);
    forall other | other in y2.rounds ensures RoundSees(y2, other) {
      assert RoundSees(y, other);
    }
  }

  lemma {:induction false} DropKeeps(y: System, id: RoundId)
    requires Inv(y) && Possible(y, Drop(id))
    ensures Inv(After(y, Drop(id)))
  {
    var y2 := After(y, Drop(id));
    assert y.rounds == y2.rounds[id := y.rounds[id]];
    MoreRounds(y2.rounds, id, y.rounds[id]);
    SameRooms(y, y2);
    assert |y2.rounds| == 0 <==> y2.rounds == map[];
    forall other | other in y2.rounds ensures RoundSees(y2, other) {
      assert RoundSees(y, other);
    }
  }

  // ---- a snapshot is written ----

  /** A pushed room that is right stays right: the snapshot agrees with it or leaves it alone. */
  lemma {:induction false} ApplyKeepsPushed(y: System, id: RoundId, room: Room)
    requires Inv(y) && Possible(y, Apply(id))
    ensures PushedRight(After(y, Apply(id)), room)
  {
    var y2 := After(y, Apply(id));
    var h := y.history[..y.rounds[id].snapshot.value];
    var last := Last(y.history, room);
    assert IsPending(y2, room) == IsPending(y, room);
    assert PushedRight(y, room) && RoundSees(y, id);
    LastInside(y.history, room);
    LastPrefix(y.history, |h|, room);
    InSnapshot(h, room);
    WrittenIs(y.local, Snapshot(h), TouchedRooms(y.open), room);
    if last > y.subscribed && !IsPending(y, room) && last > |h| { NewerIsTouched(y, id, room); }
  }

  /** A push written after the snapshot was taken is among the touched rooms when the snapshot is applied. */
  lemma {:induction false} NewerIsTouched(y: System, id: RoundId, room: Room)
    requires Inv(y) && id in y.rounds && y.rounds[id].snapshot.Some?
    requires Last(y.history, room) > y.rounds[id].snapshot.value && !IsPending(y, room)
    ensures room in TouchedRooms(y.open) && TouchedRooms(y.open)[room] >= Last(y.history, room)
  {
    LastInside(y.history, room);
    assert RoundSees(y, id);
    assert y.history[Last(y.history, room) - 1].room == room;
  }

  lemma {:induction false} ApplyKeepsOld(y: System, id: RoundId, room: Room)
    requires Inv(y) && Possible(y, Apply(id))
    ensures OldRight(After(y, Apply(id)), room)
  {
    var h := y.history[..y.rounds[id].snapshot.value];
    assert OldRight(y, room) && RoundSees(y, id);
    LastInside(y.history, room);
    LastPrefix(y.history, |h|, room);
    InSnapshot(h, room);
    WrittenIs(y.local, Snapshot(h), TouchedRooms(y.open), room);
  }

  lemma {:induction false} ApplyKeeps(y: System, id: RoundId)
    requires Inv(y) && Possible(y, Apply(id))
    ensures Inv(After(y, Apply(id)))
  {
    var y2 := After(y, Apply(id));
    assert |y2.rounds| == |y.rounds| by { assert y2.rounds.Keys == y.rounds.Keys; }
    forall room ensures PushedRight(y2, room) && OldRight(y2, room) {
      ApplyKeepsPushed(y, id, room);
      ApplyKeepsOld(y, id, room);
    }
    forall other | other in y2.rounds ensures RoundSees(y2, other) {
      assert RoundSees(y, other);
    }
  }

  lemma {:induction false} StepKeeps(y: System, e: Event)
    requires Inv(y) && Possible(y, e)
    ensures Inv(After(y, e))
  {
    match e
    case Changes(change) => ChangesKeeps(y, change);
    case MarkPush => MarkKeeps(y);
    case WritePush => WriteKeeps(y);
    case BeginRound(id) => BeginKeeps(y, id);
    case Fetch(id) => FetchKeeps(y, id);
    case Apply(id) => ApplyKeeps(y, id);
    case Drop(id) => DropKeeps(y, id);
  }

  // ---- whole runs ----

  ghost predicate IsRun(y: System, events: seq<Event>)
    decreases |events|
  {
    events == [] || (Possible(y, events[0]) && IsRun(After(y, events[0]), events[1..]))
  }

  ghost function EndOf(y: System, events: seq<Event>): System
    requires IsRun(y, events)
    decreases |events|
  {
    if events == [] then y else EndOf(After(y, events[0]), events[1..])
  }

  /** The subscription just began: nothing pushed, no round open, the local table as stale as may be. */
  ghost predicate Fresh(y: System) {
    && y.sent == y.subscribed == |y.history| && y.marked == None && y.open == None && y.rounds == map[] && !y.caughtUp
  }

  lemma {:induction false} FreshInv(y: System)
    requires Fresh(y)
    ensures Inv(y)
  {
    forall room ensures PushedRight(y, room) && OldRight(y, room) {
      LastInside(y.history, room);
    }
  }

  lemma {:induction false} RunKeeps(y: System, events: seq<Event>)
    requires Inv(y) && IsRun(y, events)
    ensures Inv(EndOf(y, events))
    decreases |events|
  {
    if events != [] {
      StepKeeps(y, events[0]);
      RunKeeps(After(y, events[0]), events[1..]);
    }
  }

  /** Once all pushes are written: a room with a change since the subscription began has exactly the membership the server
      gives it; any other room is locally invited just when the server says so, if a snapshot was written since. However
      pushes and overlapping rounds interleaved. */
  lemma {:induction false} Converges(start: System, events: seq<Event>, room: Room)
    requires Fresh(start) && IsRun(start, events)
    requires EndOf(start, events).marked == None && EndOf(start, events).sent == |EndOf(start, events).history|
    ensures var y := EndOf(start, events);
            && Last(y.history, room) <= |y.history|
            && (Last(y.history, room) > y.subscribed ==>
                  Of(y.local, room) == Some(MembershipAt(y.history, Last(y.history, room))))
            && (Last(y.history, room) <= y.subscribed && y.caughtUp ==>
                  (Of(y.local, room) == Some(Invite) <==> IsInvited(y.history, room)))
  {
    FreshInv(start);
    RunKeeps(start, events);
    var y := EndOf(start, events);
    LastInside(y.history, room);
    assert PushedRight(y, room) && OldRight(y, room);
  }

  /** A snapshot never changes a room a push took up since the snapshot was taken, and never ends the invite of a room touched
      while the round was open. */
  lemma {:induction false} NewerPushStands(start: System, events: seq<Event>, id: RoundId, j: nat)
    requires Fresh(start) && IsRun(start, events)
    requires Possible(EndOf(start, events), Apply(id))
    requires var y := EndOf(start, events);
             j < |y.history| && j < y.sent && y.rounds[id].begun <= j
    ensures var y := EndOf(start, events);
            var room := y.history[j].room;
            && (j >= y.rounds[id].snapshot.value ==> Of(After(y, Apply(id)).local, room) == Of(y.local, room))
            && (Of(y.local, room) == Some(Invite) ==> Of(After(y, Apply(id)).local, room) == Some(Invite))
  {
    FreshInv(start);
    RunKeeps(start, events);
    var y := EndOf(start, events);
    var room := y.history[j].room;
    var h := y.history[..y.rounds[id].snapshot.value];
    assert RoundSees(y, id);
    LastInside(h, room);
    InSnapshot(h, room);
    WrittenIs(y.local, Snapshot(h), TouchedRooms(y.open), room);
  }

  /** Touched rooms are kept exactly while some round is open. */
  lemma {:induction false} TouchedWhileOpen(start: System, events: seq<Event>)
    requires Fresh(start) && IsRun(start, events)
    ensures var y := EndOf(start, events);
            && (y.open.Some? <==> y.rounds != map[])
            && (y.open.Some? ==> y.open.value.callers == |y.rounds|)
            && (y.rounds == map[] ==> TouchedRooms(y.open) == map[])
  {
    FreshInv(start);
    RunKeeps(start, events);
  }
}
