/** The whole pool of one account (link_pool.rs): a registry of slots by role, commands that look a slot up and then work on it,
    and `close_all`, which takes every slot out of the registry and closes one after the other. A command may still be working on
    a slot that was taken out, or come to it only then. */
module LinkRegistry {
  import opened Wrappers
  import opened LinkPool

  datatype Role = Misc | Upload | Download | Rooms | Keys

  type SlotId = nat

  /** `slots` are all slots there ever were, with their roles; `closing` says which slots a `close_all` has still to come to. */
  datatype Pool = Pool(slots: seq<Slot>, roles: seq<Role>, registry: map<Role, SlotId>, closing: map<Command, set<SlotId>>)

  const NO_SLOTS: Pool := Pool([], [], map[], map[])

  datatype PoolStep =
    | Call(role: Role, step: Step)         // a command looks its slot up and begins there
    | Work(id: SlotId, step: Step)         // a command goes on where it began, or a line dies
    | TakeOut(c: Command)                  // `close_all` empties the registry
    | CloseNext(c: Command, id: SlotId)    // and comes to the next slot

  predicate Begins(step: Step) { step.Arrive? || step.Reuse? || step.AskClose? }

  function Registered(p: Pool, role: Role): Pool {
    if role in p.registry then p
    else p.(slots := p.slots + [EMPTY], roles := p.roles + [role], registry := p.registry[role := |p.slots|])
  }

  predicate IsPool(p: Pool) {
    |p.roles| == |p.slots| && forall r :: r in p.registry ==> p.registry[r] < |p.slots| && p.roles[p.registry[r]] == r
  }

  /** `close_all` waits for one slot at a time. */
  predicate Waits(p: Pool, c: Command) { exists i :: 0 <= i < |p.slots| && At(p.slots[i], c, WantsClosing) }

  ghost predicate Can(p: Pool, e: PoolStep)
    requires IsPool(p)
  {
    match e
    case Call(role, step) => Begins(step) && Enabled(Registered(p, role).slots[Registered(p, role).registry[role]], step)
    case Work(id, step) => id < |p.slots| && !Begins(step) && Enabled(p.slots[id], step)
    case TakeOut(c) => c !in p.closing
    case CloseNext(c, id) =>
      c in p.closing && id in p.closing[c] && id < |p.slots| && !Waits(p, c) && Enabled(p.slots[id], AskClose(c))
  }

  function OnSlot(p: Pool, id: SlotId, step: Step): Pool
    requires id < |p.slots| && Enabled(p.slots[id], step)
  {
    p.(slots := p.slots[id := Next(p.slots[id], step)])
  }

  ghost function Post(p: Pool, e: PoolStep): Pool
    requires IsPool(p) && Can(p, e)
  {
    match e
    case Call(role, step) => var q := Registered(p, role); OnSlot(q, q.registry[role], step)
    case Work(id, step) => OnSlot(p, id, step)
    case TakeOut(c) => p.(registry := map[], closing := p.closing[c := p.registry.Values])
    case CloseNext(c, id) => OnSlot(p, id, AskClose(c)).(closing := p.closing[c := p.closing[c] - {id}])
  }

  // ---- every slot, registered or taken out ----

  /** The steps done on each slot so far lead from the empty slot to it. */
  ghost predicate RunsRight(p: Pool, runs: seq<seq<Step>>) {
    |runs| == |p.slots| && forall i :: 0 <= i < |runs| ==> RunsTo(p.slots[i], runs[i])
  }

  ghost predicate RunsTo(s: Slot, steps: seq<Step>) { IsRun(EMPTY, steps) && EndOf(EMPTY, steps) == s }

  lemma {:induction false} RunAppend(s: Slot, steps: seq<Step>, step: Step)
    requires IsRun(s, steps) && Enabled(EndOf(s, steps), step)
    ensures IsRun(s, steps + [step]) && EndOf(s, steps + [step]) == Next(EndOf(s, steps), step)
    decreases |steps|
  {
    if steps == [] {
      assert [] + [step] == [step] && [step][1..] == [];
    } else {
      RunAppend(Next(s, steps[0]), steps[1..], step);
      assert steps + [step] == [steps[0]] + (steps[1..] + [step]);
    }
  }

  lemma {:induction false} OnSlotRuns(p: Pool, runs: seq<seq<Step>>, id: SlotId, step: Step)
    requires IsPool(p) && RunsRight(p, runs) && id < |p.slots| && Enabled(p.slots[id], step)
    ensures IsPool(OnSlot(p, id, step)) && RunsRight(OnSlot(p, id, step), runs[id := runs[id] + [step]])
  {
    assert RunsTo(p.slots[id], runs[id]);
    RunAppend(EMPTY, runs[id], step);
  }

  lemma {:induction false} RegisteredRuns(p: Pool, runs: seq<seq<Step>>, role: Role)
    requires IsPool(p) && RunsRight(p, runs)
    ensures IsPool(Registered(p, role)) && RunsRight(Registered(p, role), if role in p.registry then runs else runs + [[]])
  {
    assert RunsTo(EMPTY, []);
  }

  ghost predicate IsPoolRun(p: Pool, events: seq<PoolStep>)
    decreases |events|
  {
    IsPool(p) && (events == [] || (Can(p, events[0]) && IsPoolRun(Post(p, events[0]), events[1..])))
  }

  ghost function PoolEnd(p: Pool, events: seq<PoolStep>): Pool
    requires IsPoolRun(p, events)
    decreases |events|
  {
    if events == [] then p else PoolEnd(Post(p, events[0]), events[1..])
  }

  lemma {:induction false} PostRuns(p: Pool, runs: seq<seq<Step>>, e: PoolStep) returns (runs2: seq<seq<Step>>)
    requires IsPool(p) && RunsRight(p, runs) && Can(p, e)
    ensures IsPool(Post(p, e)) && RunsRight(Post(p, e), runs2)
  {
    match e
    case Call(role, step) =>
      var q := Registered(p, role);
      RegisteredRuns(p, runs, role);
      var runs1 := if role in p.registry then runs else runs + [[]];
      OnSlotRuns(q, runs1, q.registry[role], step);
      runs2 := runs1[q.registry[role] := runs1[q.registry[role]] + [step]];
    case Work(id, step) =>
      OnSlotRuns(p, runs, id, step);
      runs2 := runs[id := runs[id] + [step]];
    case TakeOut(_) => runs2 := runs;
    case CloseNext(c, id) =>
      OnSlotRuns(p, runs, id, AskClose(c));
      runs2 := runs[id := runs[id] + [AskClose(c)]];
  }

  lemma {:induction false} PoolRuns(p: Pool, runs: seq<seq<Step>>, events: seq<PoolStep>) returns (runs2: seq<seq<Step>>)
    requires IsPoolRun(p, events) && RunsRight(p, runs)
    ensures RunsRight(PoolEnd(p, events), runs2)
    decreases |events|
  {
    if events == [] {
      runs2 := runs;
    } else {
      var runs1 := PostRuns(p, runs, events[0]);
      runs2 := PoolRuns(Post(p, events[0]), runs1, events[1..]);
    }
  }

  /** However commands, `close` and `close_all` interleave: in every slot there ever was, registered or taken out, `Opened` and
      `Closed` take turns, whoever uses a line uses the one that is there, and the line goes only when no command uses it. */
  lemma {:induction false} EverySlotIsRight(events: seq<PoolStep>, id: SlotId, step: Step, c: Command)
    requires IsPoolRun(NO_SLOTS, events) && id < |PoolEnd(NO_SLOTS, events).slots|
    requires Enabled(PoolEnd(NO_SLOTS, events).slots[id], step)
    ensures var s := PoolEnd(NO_SLOTS, events).slots[id];
            && EventsRight(s)
            && (c in s.stage && s.stage[c].Using? ==> s.line == Some(s.stage[c].line))
            && (s.line.Some? && Next(s, step).line != s.line ==> !(c in s.stage && s.stage[c].Using?))
  {
    var runs := PoolRuns(NO_SLOTS, [], events);
    assert RunsTo(PoolEnd(NO_SLOTS, events).slots[id], runs[id]);
    EventsAlternate(runs[id]);
    LineGoesUnused(runs[id], step, c);
  }

  // ---- `close_all` ----

  /** `close_all` has still to come to this slot, or waits for it. */
  ghost predicate Faces(p: Pool, c: Command, id: SlotId) {
    c in p.closing && id < |p.slots| && (id in p.closing[c] || At(p.slots[id], c, WantsClosing))
  }

  predicate Leaves(e: PoolStep, c: Command) { e.Work? && e.step == GiveUp(c) }

  lemma {:induction false} FacesStays(p: Pool, e: PoolStep, c: Command, id: SlotId)
    requires IsPool(p) && Can(p, e) && Faces(p, c, id) && !Leaves(e, c) && e != Work(id, CloseLine(c))
    ensures Faces(Post(p, e), c, id)
  {
    if id !in p.closing[c] && !e.TakeOut? {
      match e
      case Call(role, step) => if Registered(p, role).registry[role] == id { StillWaits(p.slots[id], step, c); }
      case Work(at, step) => if at == id { StillWaits(p.slots[id], step, c); }
      case CloseNext(d, at) => if at == id { StillWaits(p.slots[id], AskClose(d), c); }
      case TakeOut(_) =>
    }
  }

  lemma {:induction false} StillWaits(s: Slot, step: Step, c: Command)
    requires Enabled(s, step) && At(s, c, WantsClosing) && step != GiveUp(c) && step != CloseLine(c)
    ensures At(Next(s, step), c, WantsClosing)
  {
  }

  lemma {:induction false} FacesInRun(p: Pool, events: seq<PoolStep>, c: Command, id: SlotId)
    requires IsPoolRun(p, events) && Faces(p, c, id) && forall i :: 0 <= i < |events| ==> !Leaves(events[i], c)
    ensures Faces(PoolEnd(p, events), c, id) || Work(id, CloseLine(c)) in events
    decreases |events|
  {
    if events != [] && events[0] != Work(id, CloseLine(c)) {
      FacesStays(p, events[0], c, id);
      assert forall i :: 0 <= i < |events[1..]| ==> events[1..][i] == events[i + 1];
      FacesInRun(Post(p, events[0]), events[1..], c, id);
      assert events == [events[0]] + events[1..];
    } else if events != [] {
      assert events[0] in events;
    }
  }

  /** `close_all`, once it has come to every slot and waits for none, has closed the line of each slot that was registered when it
      began, whatever commands did in the meantime; unless it was dropped itself. */
  lemma {:induction false} CloseAllClosesAll(p: Pool, c: Command, events: seq<PoolStep>, role: Role)
    requires IsPool(p) && Can(p, TakeOut(c)) && role in p.registry && IsPoolRun(Post(p, TakeOut(c)), events)
    requires forall i :: 0 <= i < |events| ==> !Leaves(events[i], c)
    requires var p2 := PoolEnd(Post(p, TakeOut(c)), events); !Waits(p2, c) && (c in p2.closing ==> p2.closing[c] == {})
    ensures Work(p.registry[role], CloseLine(c)) in events
  {
    assert p.registry[role] in p.registry.Values;
    FacesInRun(Post(p, TakeOut(c)), events, c, p.registry[role]);
  }

  /** And then there was no client of it, and it is gone with one `Closed`. */
  lemma {:induction false} ClosedUnused(events: seq<PoolStep>, id: SlotId, c: Command, d: Command)
    requires IsPoolRun(NO_SLOTS, events) && id < |PoolEnd(NO_SLOTS, events).slots|
    requires Enabled(PoolEnd(NO_SLOTS, events).slots[id], CloseLine(c))
    ensures var s := PoolEnd(NO_SLOTS, events).slots[id];
            var s2 := Next(s, CloseLine(c));
            && !(d in s.stage && s.stage[d].Using?) && s2.line == None && EventsRight(s2)
            && s2.events == if s.line.Some? then s.events + [Closed] else s.events
  {
    var runs := PoolRuns(NO_SLOTS, [], events);
    assert RunsTo(PoolEnd(NO_SLOTS, events).slots[id], runs[id]);
    RunKeepsInv(EMPTY, runs[id]);
    StepKeepsInv(EndOf(EMPTY, runs[id]), CloseLine(c));
  }

  // ---- how many slots a role has ----

  function SlotsOf(roles: seq<Role>, role: Role): nat {
    if roles == [] then 0 else SlotsOf(roles[..|roles| - 1], role) + if roles[|roles| - 1] == role then 1 else 0
  }

  function TakeOuts(events: seq<PoolStep>): nat {
    if events == [] then 0 else (if events[0].TakeOut? then 1 else 0) + TakeOuts(events[1..])
  }

  /** The slots a role had so far, and the one it would get if a command came now. */
  function SlotsToCome(p: Pool, role: Role): nat { SlotsOf(p.roles, role) + if role in p.registry then 0 else 1 }

  lemma {:induction false} StepSlots(p: Pool, e: PoolStep, role: Role)
    requires IsPool(p) && Can(p, e)
    ensures SlotsToCome(Post(p, e), role) <= SlotsToCome(p, role) + if e.TakeOut? then 1 else 0
  {
    if e.Call? && e.role !in p.registry {
      assert (p.roles + [e.role])[..|p.roles|] == p.roles;
    }
  }

  lemma {:induction false} SlotsInRun(p: Pool, events: seq<PoolStep>, role: Role)
    requires IsPoolRun(p, events)
    ensures SlotsToCome(PoolEnd(p, events), role) <= SlotsToCome(p, role) + TakeOuts(events)
    decreases |events|
  {
    if events != [] {
      StepSlots(p, events[0], role);
      SlotsInRun(Post(p, events[0]), events[1..], role);
    }
  }

  /** All commands of a role share one slot: over any run there were no more slots of it than one, and one more for each time
      `close_all` emptied the registry. */
  lemma {:induction false} OneSlotPerRole(events: seq<PoolStep>, role: Role)
    requires IsPoolRun(NO_SLOTS, events)
    ensures SlotsOf(PoolEnd(NO_SLOTS, events).roles, role) <= 1 + TakeOuts(events)
  {
    SlotsInRun(NO_SLOTS, events, role);
  }
}
