/** The invites of one account kept in place (invites.rs and the cache): over any run the open rounds and the local table are
    those of the state machine. */
module InviteDrive {
  import opened Wrappers
  import opened Invites
  import opened InviteRuns

  class InviteKeeper {
    const me: Account
    const rounds: InviteRounds
    var local: map<Room, Membership>

    constructor (me: Account, rounds: InviteRounds, local: map<Room, Membership>)
      ensures this.me == me && this.rounds == rounds && this.local == local
    {
      this.me, this.rounds, this.local := me, rounds, local;
    }

    /** What is kept here is what the machine has. */
    ghost predicate Is(y: System)
      reads this, rounds
    {
      Of(rounds.open, me) == y.open && local == y.local
    }

    /** A push is taken up: its room is marked before anything is written. */
    method TakeUpPush(room: Room, at: nat, ghost y: System)
      requires Is(y) && Possible(y, MarkPush) && room == y.history[y.sent].room && at == y.sent + 1
      modifies rounds
      ensures Is(After(y, MarkPush)) && rounds.open - {me} == old(rounds.open) - {me}
    {
      rounds.MarkTouched(me, room, at);
    }

    /** And then it is written. */
    method WritePush(change: Change, ghost y: System)
      requires Is(y) && Possible(y, Event.WritePush) && change == y.history[y.marked.value]
      modifies this`local
      ensures Is(After(y, Event.WritePush))
    {
      local := local[change.room := change.membership];
    }

    method BeginRound(ghost id: RoundId, ghost y: System)
      requires Is(y) && Possible(y, Event.BeginRound(id))
      modifies rounds
      ensures Is(After(y, Event.BeginRound(id))) && rounds.open - {me} == old(rounds.open) - {me}
    {
      rounds.Begin(me);
    }

    /** The snapshot of a round is written: what pushes touched is read in the very transaction that writes. */
    method RecordRound(round: map<Room, nat>, ghost id: RoundId, ghost y: System)
      requires Is(y) && Possible(y, Apply(id)) && round == Snapshot(y.history[..y.rounds[id].snapshot.value])
      modifies this`local
      ensures Is(After(y, Apply(id)))
    {
      var touched := rounds.ListTouched(me);
      local := ApplyInviteRound(local, round, touched, map[]);
      SameTable(local, y.local, round, touched);
    }

    /** A round is over, written or given up. */
    method EndRound(ghost id: RoundId, ghost y: System)
      requires Is(y) && Possible(y, Drop(id))
      modifies rounds
      ensures Is(After(y, Drop(id))) && rounds.open - {me} == old(rounds.open) - {me}
    {
      rounds.DropGuard(me);
    }

    /** One event; the server alone makes changes and takes snapshots. */
    method Do(e: Event, c: Carried, ghost y: System)
      requires Is(y) && Possible(y, e) && Carries(y, e, c)
      modifies this`local, rounds
      ensures Is(After(y, e)) && rounds.open - {me} == old(rounds.open) - {me}
    {
      match e {
        case MarkPush => TakeUpPush(c.push.room, c.at, y);
        case WritePush => WritePush(c.push, y);
        case BeginRound(id) => BeginRound(id, y);
        case Apply(id) => RecordRound(c.snapshot, id, y);
        case Drop(id) => EndRound(id, y);
        case Changes(_) =>
        case Fetch(_) =>
      }
    }
  }

  /** What an event carries for the account: the change pushed, its position, the snapshot of the round. */
  datatype Carried = Carried(push: Change, at: nat, snapshot: map<Room, nat>)

  ghost predicate Carries(y: System, e: Event, c: Carried)
    requires Possible(y, e)
  {
    && (e.MarkPush? ==> c.push == y.history[y.sent] && c.at == y.sent + 1)
    && (e.WritePush? ==> c.push == y.history[y.marked.value])
    && (e.Apply? ==> c.snapshot == Snapshot(y.history[..y.rounds[e.id].snapshot.value]))
  }

  ghost predicate AllCarried(y: System, events: seq<Event>, carried: seq<Carried>)
    requires IsRun(y, events)
    decreases |events|
  {
    |carried| == |events| &&
    (events != [] ==> Carries(y, events[0], carried[0]) && AllCarried(After(y, events[0]), events[1..], carried[1..]))
  }

  /** Any run of rounds and pushes, done in place, ends where the machine ends; the rounds of other accounts are as they were. */
  method DoAll(k: InviteKeeper, events: seq<Event>, carried: seq<Carried>, ghost y: System)
    requires k.Is(y) && IsRun(y, events) && AllCarried(y, events, carried)
    modifies k`local, k.rounds
    ensures k.Is(EndOf(y, events)) && k.rounds.open - {k.me} == old(k.rounds.open) - {k.me}
  {
    var rest, with := events, carried;
    ghost var at := y;
    while rest != []
      invariant k.Is(at) && IsRun(at, rest) && EndOf(at, rest) == EndOf(y, events) && AllCarried(at, rest, with)
      invariant k.rounds.open - {k.me} == old(k.rounds.open) - {k.me}
      decreases |rest|
    {
      k.Do(rest[0], with[0], at);
      at := After(at, rest[0]);
      rest, with := rest[1..], with[1..];
    }
  }

  lemma SameTable(after: map<Room, Membership>, local: map<Room, Membership>, round: map<Room, nat>, touched: map<Room, nat>)
    requires forall room :: Of(after, room) == Applied(local, round, touched, map[], room)
    ensures after == Written(local, round, touched)
  {
    forall room ensures Of(after, room) == Of(Written(local, round, touched), room) { WrittenIs(local, round, touched, room); }
    assert forall room :: room in after <==> Of(after, room).Some?;
    assert forall room :: room in Written(local, round, touched) <==> Of(Written(local, round, touched), room).Some?;
    assert forall room :: room in after ==> Of(after, room) == Some(after[room]);
  }
}
