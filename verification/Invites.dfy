/** Invites (invites.rs and the cache's `apply_invite_round`): pushes tell every change in order, snapshot rounds fetch the
    whole list, and rooms touched by a push while a round is open are left to the push. */
module Invites {
  import opened Wrappers

  datatype Account = Account(number: int)
  datatype Room = Room(number: int)
  datatype Membership = Invite | Join | Leave | Ban

  /** The rounds of one account that are open now: how many callers, and the newest push position per room they touched. */
  datatype OpenRound = OpenRound(callers: nat, touched: map<Room, nat>)

  function Begun(open: Option<OpenRound>): OpenRound {
    if open.Some? then open.value.(callers := open.value.callers + 1) else OpenRound(1, map[])
  }

  function Touched(open: Option<OpenRound>, room: Room, at: nat): Option<OpenRound> {
    match open
    case None => None
    case Some(round) =>
      Some(round.(touched := round.touched[room := if room in round.touched && round.touched[room] > at then round.touched[room] else at]))
  }

  function Dropped(open: Option<OpenRound>): Option<OpenRound> {
    if open.None? || open.value.callers <= 1 then None else Some(open.value.(callers := open.value.callers - 1))
  }

  function TouchedRooms(open: Option<OpenRound>): map<Room, nat> { if open.Some? then open.value.touched else map[] }

  function Of<K, V>(m: map<K, V>, k: K): Option<V> { if k in m then Some(m[k]) else None }

  /** Which rounds are open, per account. */
  class InviteRounds {
    var open: map<Account, OpenRound>

    constructor ()
      ensures open == map[]
    {
      open := map[];
    }

    method Begin(me: Account)
      modifies this
      ensures Of(open, me) == Some(Begun(Of(old(open), me))) && open - {me} == old(open) - {me}
    {
      open := open[me := if me in open then open[me].(callers := open[me].callers + 1) else OpenRound(1, map[])];
    }

    method MarkTouched(me: Account, room: Room, at: nat)
      modifies this
      ensures Of(open, me) == Touched(Of(old(open), me), room, at) && open - {me} == old(open) - {me}
    {
      if me in open {
        var newest := at;
        if room in open[me].touched && open[me].touched[room] > at { newest := open[me].touched[room]; }
        open := open[me := open[me].(touched := open[me].touched[room := newest])];
      }
    }

    method ListTouched(me: Account) returns (touched: map<Room, nat>)
      ensures touched == TouchedRooms(Of(open, me))
    {
      touched := if me in open then open[me].touched else map[];
    }

    /** One round is over, however it ended; the last one takes the touched rooms with it. */
    method DropGuard(me: Account)
      modifies this
      ensures Of(open, me) == Dropped(Of(old(open), me)) && open - {me} == old(open) - {me}
    {
      if me in open {
        if open[me].callers <= 1 {
          open := open - {me};
        } else {
          open := open[me := open[me].(callers := open[me].callers - 1)];
        }
      }
    }
  }

  // ---- writing a snapshot ----

  /** What a room's local membership becomes when a snapshot is written: an item not newer than a push that touched the room
      is skipped; a local invite that is neither in the snapshot nor touched is over. */
  function Applied(local: map<Room, Membership>, round: map<Room, nat>, touched: map<Room, nat>,
      departed: map<Room, Membership>, room: Room): Option<Membership>
  {
    if room in round then
      if room in touched && touched[room] >= round[room] then Of(local, room) else Some(Invite)
    else if room in local && local[room].Invite? && room !in touched then
      Some(if room in departed && !departed[room].Invite? then departed[room] else Leave)
    else Of(local, room)
  }

  /** A push at least as new as the item of the round touched the room. */
  predicate IsSkipped(round: map<Room, nat>, touched: map<Room, nat>, room: Room) {
    room in round && room in touched && touched[room] >= round[room]
  }

  /** Invited here, and nobody says so any more. */
  predicate IsOver(local: map<Room, Membership>, round: map<Room, nat>, touched: map<Room, nat>, room: Room) {
    Of(local, room) == Some(Invite) && room !in round && room !in touched
  }

  /** One transaction: first the items of the round, then the invites that are gone. Invited is who the round says, unless a newer
      push touched the room; whose invite is over has joined or was banned if that is known, and has left otherwise; every other
      room is as it was. */
  method ApplyInviteRound(local: map<Room, Membership>, round: map<Room, nat>, touched: map<Room, nat>,
      departed: map<Room, Membership>) returns (after: map<Room, Membership>)
    ensures forall room :: Of(after, room) == Applied(local, round, touched, departed, room)
    ensures forall room :: room in round && !IsSkipped(round, touched, room) ==> Of(after, room) == Some(Invite)
    ensures forall room :: IsOver(local, round, touched, room) ==>
              var known := Of(departed, room);
              Of(after, room) == if known == Some(Join) || known == Some(Ban) then known else Some(Leave)
    ensures forall room :: (room in round ==> IsSkipped(round, touched, room)) && !IsOver(local, round, touched, room) ==>
              Of(after, room) == Of(local, room)
  {
    after := WriteItems(local, round, touched);
    after := EndGone(after, round, touched, departed);
  }

  method WriteItems(local: map<Room, Membership>, round: map<Room, nat>, touched: map<Room, nat>)
    returns (after: map<Room, Membership>)
    ensures forall room :: room !in round ==> Of(after, room) == Of(local, room)
    ensures forall room :: room in round ==> Of(after, room) == Applied(local, round, touched, map[], room)
  {
    after := local;
    var todo := round.Keys;
    while todo != {}
      invariant todo <= round.Keys
      invariant forall room :: room !in round || room in todo ==> Of(after, room) == Of(local, room)
      invariant forall room :: room in round && room !in todo ==> Of(after, room) == Applied(local, round, touched, map[], room)
      decreases |todo|
    {
      var room :| room in todo;
      if !(room in touched && touched[room] >= round[room]) { after := after[room := Invite]; }
      todo := todo - {room};
    }
  }

  method EndGone(local: map<Room, Membership>, round: map<Room, nat>, touched: map<Room, nat>, departed: map<Room, Membership>)
    returns (after: map<Room, Membership>)
    ensures forall room :: room in round ==> Of(after, room) == Of(local, room)
    ensures forall room :: room !in round ==> Of(after, room) == Applied(local, round, touched, departed, room)
  {
    after := local;
    var gone := set room | room in local && local[room].Invite? && room !in round && room !in touched;
    ghost var all := gone;
    while gone != {}
      invariant gone <= all && forall room :: room in all <==> room in local && local[room].Invite? && room !in round && room !in touched
      invariant forall room :: room !in all || room in gone ==> Of(after, room) == Of(local, room)
      invariant forall room :: room in all && room !in gone ==> Of(after, room) == Applied(local, round, touched, departed, room)
      decreases |gone|
    {
      var room :| room in gone;
      after := after[room := if room in departed && !departed[room].Invite? then departed[room] else Leave];
      gone := gone - {room};
    }
  }
}
