/** The room-key worker of one account (key_share.rs): it merges what it is asked for, distributes keys over the `Keys`
    line when that is open, and retries what failed with a growing pause. What it did is kept as a log. */
module KeyShare {
  import opened Wrappers

  const RETRY_FIRST: nat := 30
  const RETRY_MAX: nat := 300

  datatype Room = Room(number: int)
  datatype Want = Want(version: nat, members: set<int>, discardFirst: bool)
  datatype Work = Prepare(room: Room, want: Want) | AfterSend(room: Room, want: Want) | UploadOwnKeys | LineOpened

  datatype KeyState = Ready(due: bool) | NotReady

  /** Which calls for a room work this time: the discard, asking for the room's rules, the distribution, and reading the key's state
      after that, which then is `state`. */
  datatype Calls = Calls(discardWorks: bool, askWorks: bool, sendWorks: bool, readWorks: bool, state: KeyState)

  /** One round as the world answers it: what is read after a message, what works for a room, whether the own keys go up. */
  datatype Answers = Answers(read: Room -> Option<KeyState>, calls: Room -> Calls, uploadWorks: bool)

  /** Everything that preparing the room's key takes works. */
  predicate Works(c: Calls, discardFirst: bool) {
    (discardFirst ==> c.discardWorks) && c.askWorks && c.sendWorks && c.readWorks && c.state.Ready?
  }

  /** What a message sent in a room makes of its key: to be rotated, to be prepared, or fine as it is. */
  function AskAfterSend(room: Room, want: Want, state: Option<KeyState>): seq<Entry> {
    match state
    case None => []
    case Some(NotReady) => [Asked(room, want)]
    case Some(Ready(due)) => if due then [Asked(room, want.(discardFirst := true))] else []
  }

  /** What happened to a room's key, in order. `Asked` is a want taken over (with or without a discard). */
  datatype Entry =
    | Asked(room: Room, want: Want)
    | Discarded(room: Room)
    | Distributed(room: Room, want: Want, state: KeyState)
    | RecordedReady(room: Room, version: nat)

  /** A discard was asked for and has not been done since. */
  predicate Owed(log: seq<Entry>, room: Room) {
    if log == [] then false
    else
      var last := log[|log| - 1];
      if last.Asked? && last.room == room && last.want.discardFirst then true
      else if last == Discarded(room) then false
      else Owed(log[..|log| - 1], room)
  }

  /** What the room was asked for last, if it was not ready since. */
  function Wanted(log: seq<Entry>, room: Room): Option<Want> {
    if log == [] then None
    else
      var last := log[|log| - 1];
      if last.Asked? && last.room == room then Some(last.want.(discardFirst := Owed(log, room)))
      else if last == Discarded(room) then
        match Wanted(log[..|log| - 1], room)
        case None => None
        case Some(want) => Some(want.(discardFirst := false))
      else if last.RecordedReady? && last.room == room then None
      else Wanted(log[..|log| - 1], room)
  }

  /** A well-run log: a discard only when one is owed; a room is recorded ready only for the version last wanted, with no
      discard owed, right after a distribution for just that want ended ready. */
  predicate WellRun(log: seq<Entry>) {
    log == [] ||
    (var before := log[..|log| - 1];
     WellRun(before) &&
     match log[|log| - 1]
     case Asked(_, _) => true
     case Discarded(room) => Owed(before, room)
     case Distributed(room, want, _) => Wanted(before, room) == Some(want) && !Owed(before, room)
     case RecordedReady(room, version) =>
       && |before| > 0 && before[|before| - 1].Distributed? && before[|before| - 1].room == room
       && before[|before| - 1].want.version == version && before[|before| - 1].state.Ready?
       && Wanted(before, room) == Some(before[|before| - 1].want) && !Owed(before, room))
  }

  /** The last record of a room's readiness. */
  function LastReady(log: seq<Entry>, room: Room): Option<nat> {
    if log == [] then None
    else if log[|log| - 1].RecordedReady? && log[|log| - 1].room == room then Some(log[|log| - 1].version)
    else LastReady(log[..|log| - 1], room)
  }

  lemma Step(log: seq<Entry>, e: Entry)
    ensures (log + [e])[..|log + [e]| - 1] == log && (log + [e])[|log + [e]| - 1] == e
  {
  }

  class KeyShareTask {
    var rooms: map<Room, Want>
    var used: map<Room, Want>
    var uploadOwnKeys: bool
    var retryIn: nat
    var retryAt: Option<nat>
    var ready: map<Room, nat>
    ghost var log: seq<Entry>

    /** The tables are what the log says, and the pause between retries stays between its bounds. */
    ghost predicate Valid()
      reads this
    {
      && WellRun(log)
      && (forall room :: room in rooms <==> Wanted(log, room).Some?)
      && (forall room :: room in rooms ==> rooms[room] == Wanted(log, room).value)
      && (forall room :: room in rooms ==> rooms[room].discardFirst == Owed(log, room))
      && (forall room :: Owed(log, room) ==> room in rooms)
      && (forall room :: (room in ready <==> LastReady(log, room).Some?) && (room in ready ==> ready[room] == LastReady(log, room).value))
      && RETRY_FIRST <= retryIn <= RETRY_MAX
    }

    /** Between two rounds: a retry is armed, or the pause is longer than at first, only while there is something to do. */
    predicate Settled()
      reads this
    {
      retryIn > RETRY_FIRST || retryAt.Some? ==> HasWork()
    }

    predicate HasWork()
      reads this
    {
      rooms != map[] || uploadOwnKeys
    }

    constructor ()
      ensures Valid() && log == [] && rooms == map[] && used == map[] && !uploadOwnKeys && retryAt == None
    {
      rooms, used, uploadOwnKeys, retryIn, retryAt, ready, log := map[], map[], false, RETRY_FIRST, None, map[], [];
    }

    /** One want per room: the newest, but a discard asked for before stays asked for. */
    method MergeWant(room: Room, want: Want)
      requires Valid()
      modifies this`rooms, this`log
      ensures Valid() && log == old(log) + [Asked(room, want)]
      ensures rooms == old(rooms)[room := want.(discardFirst := want.discardFirst || (room in old(rooms) && old(rooms)[room].discardFirst))]
    {
      Step(log, Asked(room, want));
      rooms := rooms[room := want.(discardFirst := want.discardFirst || (room in rooms && rooms[room].discardFirst))];
      log := log + [Asked(room, want)];
    }

    /** Discards the current key, if that was asked for, once; then distributes and records the version if the key is ready.
        Done if and only if all of it works; what is left to do stays in `want`. */
    method PrepareRoom(room: Room, c: Calls) returns (done: bool)
      requires Valid() && room in rooms
      modifies this`rooms, this`ready, this`log
      ensures Valid() && old(log) <= log
      ensures done <==> Works(c, old(rooms)[room].discardFirst)
      ensures done ==> rooms == old(rooms) - {room} && ready == old(ready)[room := old(rooms)[room].version]
      ensures !done ==> ready == old(ready)
                        && rooms == old(rooms)[room := old(rooms)[room].(discardFirst := old(rooms)[room].discardFirst && !c.discardWorks)]
    {
      if rooms[room].discardFirst {
        if !c.discardWorks { return false; }
        DiscardKey(room);
      }
      if !c.askWorks || !c.sendWorks { return false; }
      RecordDistribution(room, c.state);
      if !c.readWorks || c.state.NotReady? { return false; }
      RecordReady(room, c.state);
      done := true;
    }

    method DiscardKey(room: Room)
      requires Valid() && room in rooms && rooms[room].discardFirst
      modifies this`rooms, this`log
      ensures Valid() && log == old(log) + [Discarded(room)] && rooms == old(rooms)[room := old(rooms)[room].(discardFirst := false)]
    {
      Step(log, Discarded(room));
      rooms := rooms[room := rooms[room].(discardFirst := false)];
      log := log + [Discarded(room)];
    }

    ghost method RecordDistribution(room: Room, state: KeyState)
      requires Valid() && room in rooms && !rooms[room].discardFirst
      modifies this`log
      ensures Valid() && log == old(log) + [Distributed(room, rooms[room], state)]
    {
      Step(log, Distributed(room, rooms[room], state));
      log := log + [Distributed(room, rooms[room], state)];
    }

    method RecordReady(room: Room, ghost state: KeyState)
      requires Valid() && room in rooms && state.Ready?
      requires |log| > 0 && log[|log| - 1] == Distributed(room, rooms[room], state)
      modifies this`rooms, this`ready, this`log
      ensures Valid() && log == old(log) + [RecordedReady(room, old(rooms)[room].version)]
      ensures rooms == old(rooms) - {room} && ready == old(ready)[room := old(rooms)[room].version]
    {
      Step(log, RecordedReady(room, rooms[room].version));
      ready := ready[room := rooms[room].version];
      log := log + [RecordedReady(room, rooms[room].version)];
      rooms := rooms - {room};
    }

    /** One thing more to do: a want is merged in, a sent message is remembered, an upload is due again. */
    method TakeWork(work: Work)
      requires Valid()
      modifies this`rooms, this`used, this`uploadOwnKeys, this`log
      ensures Valid() && (old(HasWork()) ==> HasWork()) && (old(uploadOwnKeys) ==> uploadOwnKeys)
      ensures log == if work.Prepare? then old(log) + [Asked(work.room, work.want)] else old(log)
      ensures work.Prepare? ==> work.room in rooms
      ensures used == if work.AfterSend? then old(used)[work.room := work.want] else old(used)
      ensures work.UploadOwnKeys? ==> uploadOwnKeys
    {
      match work
      case Prepare(room, want) => MergeWant(room, want);
      case AfterSend(room, want) => used := used[room := want];
      case UploadOwnKeys => uploadOwnKeys := true;
      case LineOpened =>
    }

    method TakeAll(works: seq<Work>)
      requires Valid()
      modifies this`rooms, this`used, this`uploadOwnKeys, this`log
      ensures Valid() && old(log) <= log && (old(HasWork()) ==> HasWork())
      ensures forall e :: e in log[|old(log)|..] <==> exists i :: 0 <= i < |works| && works[i].Prepare? && e == Asked(works[i].room, works[i].want)
      ensures forall i :: 0 <= i < |works| && works[i].UploadOwnKeys? ==> uploadOwnKeys
      ensures used == UsedNow(old(used), works)
    {
      var i := 0;
      while i < |works|
        invariant 0 <= i <= |works| && Valid() && old(log) <= log && (old(HasWork()) ==> HasWork())
        invariant forall e :: e in log[|old(log)|..] <==>
                    exists j :: 0 <= j < i && works[j].Prepare? && e == Asked(works[j].room, works[j].want)
        invariant forall j :: 0 <= j < i && works[j].UploadOwnKeys? ==> uploadOwnKeys
        invariant UsedNow(used, works[i..]) == UsedNow(old(used), works)
      {
        ghost var was := log[|old(log)|..];
        TakeWork(works[i]);
        assert works[i..][1..] == works[i + 1..];
        assert log[|old(log)|..] == was + if works[i].Prepare? then [Asked(works[i].room, works[i].want)] else [];
        i := i + 1;
      }
    }

    /** After a message: a key due for rotation is asked for with a discard, one that is not ready is asked for, a good one is
        left alone, and so is one whose state cannot be read. */
    method CheckAfterSend(room: Room, want: Want, state: Option<KeyState>)
      requires Valid()
      modifies this`rooms, this`log
      ensures Valid() && (old(HasWork()) ==> HasWork())
      ensures log == old(log) + AskAfterSend(room, want, state)
    {
      if state.Some? {
        match state.value
        case Ready(due) => if due { MergeWant(room, want.(discardFirst := true)); }
        case NotReady => MergeWant(room, want);
      }
    }

    /** Every room a message was sent in is looked at, once, and asked for if its key needs it; nothing else is asked for. */
    method CheckAll(read: Room -> Option<KeyState>)
      requires Valid()
      modifies this`rooms, this`used, this`log
      ensures Valid() && old(log) <= log && used == map[] && (old(HasWork()) ==> HasWork())
      ensures forall e :: e in log[|old(log)|..] <==> exists room :: room in old(used) && e in AskAfterSend(room, old(used)[room], read(room))
    {
      ghost var were := used;
      while used != map[]
        invariant Valid() && old(log) <= log && (old(HasWork()) ==> HasWork())
        invariant used.Keys <= were.Keys && forall room :: room in used ==> used[room] == were[room]
        invariant forall e :: e in log[|old(log)|..] <==>
                    exists room :: room in were && room !in used && e in AskAfterSend(room, were[room], read(room))
        decreases |used|
      {
        var room :| room in used.Keys;
        var want := used[room];
        ghost var before, asked := used, log[|old(log)|..];
        used := used - {room};
        CheckAfterSend(room, want, read(room));
        assert log[|old(log)|..] == asked + AskAfterSend(room, want, read(room));
        LookedAt(were, before, room, read, asked);
      }
    }

    /** One room tried. */
    method PrepareOne(room: Room, c: Calls) returns (done: bool)
      requires Valid() && room in rooms
      modifies this`rooms, this`ready, this`log
      ensures Valid() && old(log) <= log && rooms.Keys == if done then old(rooms).Keys - {room} else old(rooms).Keys
      ensures TriesOne(old(rooms), old(ready), room, c, rooms, ready)
    {
      done := PrepareRoom(room, c);
    }

    /** Every pending room is tried once; those for which everything works are recorded ready and go, the others stay. */
    method PrepareAll(calls: Room -> Calls) returns (failed: bool)
      requires Valid()
      modifies this`rooms, this`ready, this`log
      ensures Valid() && old(log) <= log && rooms.Keys <= old(rooms).Keys
      ensures failed <==> rooms != map[]
      ensures forall room :: room in old(rooms) ==> IsTried(room, old(rooms)[room], calls(room), rooms, ready)
    {
      ghost var were := rooms;
      var pending := rooms.Keys;
      failed := false;
      while pending != {}
        invariant Valid() && old(log) <= log && pending <= rooms.Keys <= were.Keys
        invariant failed <==> rooms.Keys != pending
        invariant TriedSoFar(were, pending, calls, rooms, ready)
        decreases |pending|
      {
        ghost var was, readyThen := rooms, ready;
        var room :| room in pending;
        var done := PrepareOne(room, calls(room));
        TriedMore(were, pending, calls, was, readyThen, room, rooms, ready);
        failed, pending := failed || !done, pending - {room};
      }
      assert rooms.Keys == {} <==> rooms == map[];
    }

    /** The device's own keys go up, if that is still due; true if it failed. */
    method UploadKeys(works: bool) returns (failed: bool)
      modifies this`uploadOwnKeys
      ensures failed <==> old(uploadOwnKeys) && !works
      ensures uploadOwnKeys == failed
    {
      failed := uploadOwnKeys && !works;
      uploadOwnKeys := failed;
    }

    /** One round of the loop: what came in is taken over and the rooms used since are looked at (`taken` is the log then); after
        that everything pending is tried if the line is open, and each room is recorded ready if all of it works. It waits with
        something to do and no retry armed only when the line is not open; the pause doubles with every failure up to its
        bound and starts over when nothing failed. */
    method Round(works: seq<Work>, lineOpen: bool, now: nat, answers: Answers) returns (ghost taken: seq<Entry>)
      requires Valid() && Settled()
      modifies this
      ensures Valid() && Settled() && old(log) <= taken <= log && used == map[]
      ensures forall e :: e in taken[|old(log)|..] ==> e.Asked?
      ensures AllAsked(works, taken[|old(log)|..])
      ensures var sent := UsedNow(old(used), works);
              forall room, e :: room in sent && e in AskAfterSend(room, sent[room], answers.read(room)) ==> e in taken[|old(log)|..]
      ensures lineOpen ==> forall room :: Wanted(taken, room).Some? ==> IsTried(room, Wanted(taken, room).value, answers.calls(room), rooms, ready)
      ensures HasWork() && retryAt.None? ==> !lineOpen
      ensures retryAt.Some? ==> retryAt == Some(now + old(retryIn)) && retryIn == Doubled(old(retryIn))
      ensures retryAt.None? && lineOpen ==> retryIn == RETRY_FIRST
    {
      TakeAll(works);
      ghost var first := log;
      CheckAll(answers.read);
      taken := log;
      assert taken[|old(log)|..] == first[|old(log)|..] + taken[|first|..];
      if !HasWork() || !lineOpen {
        retryAt := None;
        return;
      }
      TryEverything(now, answers);
    }

    method TryEverything(now: nat, answers: Answers)
      requires Valid() && HasWork()
      modifies this`rooms, this`ready, this`log, this`uploadOwnKeys, this`retryAt, this`retryIn
      ensures Valid() && Settled() && old(log) <= log
      ensures forall room :: room in old(rooms) ==> IsTried(room, old(rooms)[room], answers.calls(room), rooms, ready)
      ensures retryAt.None? ==> !HasWork() && retryIn == RETRY_FIRST
      ensures retryAt.Some? ==> retryAt == Some(now + old(retryIn)) && retryIn == Doubled(old(retryIn))
    {
      var uploadFailed := UploadKeys(answers.uploadWorks);
      var prepareFailed := PrepareAll(answers.calls);
      if uploadFailed || prepareFailed {
        retryAt := Some(now + retryIn);
        retryIn := if retryIn * 2 < RETRY_MAX then retryIn * 2 else RETRY_MAX;
      } else {
        retryAt := None;
        retryIn := RETRY_FIRST;
      }
    }

    /** The worker's whole life, round after round. */
    method Run(inputs: seq<(seq<Work>, bool, nat, Answers)>)
      requires Valid() && Settled()
      modifies this
      ensures Valid() && Settled() && old(log) <= log
      ensures forall k :: 0 <= k < |inputs| ==> AllAsked(inputs[k].0, log[|old(log)|..])
    {
      var i := 0;
      while i < |inputs|
        invariant 0 <= i <= |inputs| && Valid() && Settled() && old(log) <= log
        invariant forall k :: 0 <= k < i ==> AllAsked(inputs[k].0, log[|old(log)|..])
      {
        ghost var was := log;
        ghost var taken := Round(inputs[i].0, inputs[i].1, inputs[i].2, inputs[i].3);
        assert log[|old(log)|..] == was[|old(log)|..] + log[|was|..];
        assert taken[|was|..] <= log[|was|..];
        i := i + 1;
      }
    }
  }

  /** The room was recorded ready and is gone, if everything worked for it; otherwise it is still there. */
  predicate IsTried(room: Room, was: Want, c: Calls, rooms: map<Room, Want>, ready: map<Room, nat>) {
    if Works(c, was.discardFirst) then room !in rooms && room in ready && ready[room] == was.version else room in rooms
  }

  /** One room was tried and the others are as they were. */
  predicate TriesOne(was: map<Room, Want>, readyThen: map<Room, nat>, room: Room, c: Calls, rooms: map<Room, Want>, ready: map<Room, nat>)
    requires room in was
  {
    && IsTried(room, was[room], c, rooms, ready)
    && (forall other :: other != room && other in was ==> other in rooms && rooms[other] == was[other])
    && (forall other :: other != room && other !in was ==> other !in rooms)
    && (forall other :: other != room && other in readyThen ==> other in ready && ready[other] == readyThen[other])
  }

  /** Those still pending are as they were, the others were tried. */
  predicate TriedSoFar(were: map<Room, Want>, pending: set<Room>, calls: Room -> Calls, rooms: map<Room, Want>, ready: map<Room, nat>) {
    forall room :: room in were ==>
      if room in pending then room in rooms && rooms[room] == were[room]
      else IsTried(room, were[room], calls(room), rooms, ready)
  }

  lemma TriedMore(were: map<Room, Want>, pending: set<Room>, calls: Room -> Calls, was: map<Room, Want>, readyThen: map<Room, nat>,
      room: Room, rooms: map<Room, Want>, ready: map<Room, nat>)
    requires room in pending && room in was && pending <= was.Keys <= were.Keys
    requires TriedSoFar(were, pending, calls, was, readyThen) && TriesOne(was, readyThen, room, calls(room), rooms, ready)
    ensures TriedSoFar(were, pending - {room}, calls, rooms, ready)
  {
  }

  /** All that was to be prepared was asked for. */
  predicate AllAsked(works: seq<Work>, log: seq<Entry>) {
    forall i :: 0 <= i < |works| && works[i].Prepare? ==> Asked(works[i].room, works[i].want) in log
  }

  /** The rooms a message was sent in, as of the last of these: each with its newest want. */
  function UsedNow(used: map<Room, Want>, works: seq<Work>): map<Room, Want>
    decreases |works|
  {
    if works == [] then used
    else UsedNow(if works[0].AfterSend? then used[works[0].room := works[0].want] else used, works[1..])
  }

  lemma LookedAt(were: map<Room, Want>, used: map<Room, Want>, room: Room, read: Room -> Option<KeyState>, asked: seq<Entry>)
    requires room in used && used.Keys <= were.Keys && used[room] == were[room]
    requires forall e :: e in asked <==> exists r :: r in were && r !in used && e in AskAfterSend(r, were[r], read(r))
    ensures forall e :: e in asked + AskAfterSend(room, were[room], read(room)) <==>
              exists r :: r in were && r !in used - {room} && e in AskAfterSend(r, were[r], read(r))
  {
    forall e ensures e in asked + AskAfterSend(room, were[room], read(room)) <==>
                     exists r :: r in were && r !in used - {room} && e in AskAfterSend(r, were[r], read(r))
    {
      if r :| r in were && r !in used - {room} && e in AskAfterSend(r, were[r], read(r)) {
        assert r == room || (r in were && r !in used);
      }
      if e in AskAfterSend(room, were[room], read(room)) {
        assert room in were && room !in used - {room};
      }
      if r :| r in were && r !in used && e in AskAfterSend(r, were[r], read(r)) {
        assert r !in used - {room};
      }
    }
  }

  function Doubled(pause: nat): nat { if pause * 2 < RETRY_MAX then pause * 2 else RETRY_MAX }

  // ---- what a well-run log says ----

  lemma {:induction false} Prefix(log: seq<Entry>, n: nat)
    requires WellRun(log) && n <= |log|
    ensures WellRun(log[..n])
    decreases |log|
  {
    if n < |log| {
      Prefix(log[..|log| - 1], n);
      assert log[..|log| - 1][..n] == log[..n];
    } else {
      assert log[..n] == log;
    }
  }

  /** The last thing asked of a room before entry `j`. */
  ghost predicate IsLastAsk(log: seq<Entry>, room: Room, i: nat, j: nat) {
    && i < j <= |log| && log[i].Asked? && log[i].room == room
    && forall k :: i < k < j ==> !(log[k].Asked? && log[k].room == room)
  }

  /** What is wanted has the version and members last asked for. */
  lemma {:induction false} WantedIsLastAsk(log: seq<Entry>, room: Room) returns (i: nat)
    requires Wanted(log, room).Some?
    ensures IsLastAsk(log, room, i, |log|)
    ensures log[i].want.version == Wanted(log, room).value.version && log[i].want.members == Wanted(log, room).value.members
  {
    var before := log[..|log| - 1];
    var last := log[|log| - 1];
    if last.Asked? && last.room == room {
      i := |log| - 1;
    } else {
      i := WantedIsLastAsk(before, room);
    }
  }

  /** A room is recorded ready for a version only right after a distribution for that version, to its members, ended ready;
      and that version is the newest that was asked for. */
  lemma {:induction false} ReadyIsDistributed(log: seq<Entry>, j: nat) returns (i: nat)
    requires WellRun(log) && j < |log| && log[j].RecordedReady?
    ensures j > 0 && log[j - 1].Distributed? && log[j - 1].room == log[j].room && log[j - 1].state.Ready?
    ensures log[j - 1].want.version == log[j].version
    ensures IsLastAsk(log, log[j].room, i, j) && log[i].want.version == log[j].version && log[i].want.members == log[j - 1].want.members
  {
    Prefix(log, j + 1);
    assert log[..j + 1][..j] == log[..j];
    i := WantedIsLastAsk(log[..j], log[j].room);
  }

  /** Nothing asked for is dropped: a room stays wanted until it is recorded ready. */
  lemma {:induction false} AskedStaysWanted(log: seq<Entry>, i: nat)
    requires i < |log| && log[i].Asked?
    requires forall j :: i < j < |log| ==> !(log[j].RecordedReady? && log[j].room == log[i].room)
    ensures Wanted(log, log[i].room).Some?
    decreases |log|
  {
    var last := |log| - 1;
    if i < last {
      assert log[..last][i] == log[i];
      AskedStaysWanted(log[..last], i);
    }
  }

  /** Nothing owed at `j` although a discard was asked for at `i`: it was done in between. */
  lemma {:induction false} PaidBetween(log: seq<Entry>, room: Room, i: nat) returns (k: nat)
    requires i < |log| && log[i].Asked? && log[i].room == room && log[i].want.discardFirst && !Owed(log, room)
    ensures i < k < |log| && log[k] == Discarded(room)
    decreases |log|
  {
    var last := |log| - 1;
    if log[last] == Discarded(room) {
      k := last;
    } else {
      k := PaidBetween(log[..last], room, i);
    }
  }

  /** A discard that was asked for runs before the room is recorded ready again. */
  lemma {:induction false} DiscardBeforeReady(log: seq<Entry>, i: nat, j: nat) returns (k: nat)
    requires WellRun(log) && i < j < |log| && log[i].Asked? && log[i].want.discardFirst
    requires log[j].RecordedReady? && log[j].room == log[i].room
    ensures i < k < j && log[k] == Discarded(log[i].room)
  {
    Prefix(log, j + 1);
    assert log[..j + 1][..j] == log[..j];
    k := PaidBetween(log[..j], log[i].room, i);
  }

  lemma {:induction false} OwedWasAsked(log: seq<Entry>, room: Room, from: nat) returns (k: nat)
    requires Owed(log, room) && from < |log| && log[from] == Discarded(room)
    ensures from < k < |log| && log[k].Asked? && log[k].room == room && log[k].want.discardFirst
    decreases |log|
  {
    var last := |log| - 1;
    if log[last].Asked? && log[last].room == room && log[last].want.discardFirst {
      k := last;
    } else {
      k := OwedWasAsked(log[..last], room, from);
    }
  }

  /** Retries do not discard again: between two discards of a room another one was asked for. */
  lemma {:induction false} NoSecondDiscard(log: seq<Entry>, i: nat, j: nat) returns (k: nat)
    requires WellRun(log) && i < j < |log| && log[i].Discarded? && log[j] == log[i]
    ensures i < k < j && log[k].Asked? && log[k].room == log[i].room && log[k].want.discardFirst
  {
    Prefix(log, j + 1);
    assert log[..j + 1][..j] == log[..j];
    k := OwedWasAsked(log[..j], log[i].room, i);
  }
}
