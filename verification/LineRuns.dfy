/** Whole runs of one line: every request pushed is accounted for, and the silence timeout is sound. */
module LineRuns {
  import opened Wrappers
  import opened Lines

  /** What the owner and the sender do, in any order. */
  datatype LineEvent<A> =
    | Back(action: A)
    | Front(action: A)
    | Out(out: set<A>)
    | Deliver
    | Sender(step: SenderStep)

  /** The line together with what happened to requests so far. */
  datatype Books<A> = Books(
    line: Line<A>,
    pushed: multiset<A>,
    withdrawn: multiset<A>,
    delivered: multiset<A>)

  ghost predicate Can<A>(b: Books<A>, e: LineEvent<A>, silence: nat) {
    match e
    case Back(_) => true
    case Front(_) => true
    case Out(_) => true
    case Deliver => b.line.replies != []
    case Sender(step) => Enabled(b.line, step, silence)
  }

  ghost function Post<A>(b: Books<A>, e: LineEvent<A>, silence: nat): Books<A>
    requires Can(b, e, silence)
  {
    match e
    case Back(a) => b.(line := PushBack(b.line, a), pushed := b.pushed + multiset{a})
    case Front(a) => b.(line := PushFront(b.line, a), pushed := b.pushed + multiset{a})
    case Out(out) =>
      b.(line := Withdraw(b.line, out),
         withdrawn := b.withdrawn + (multiset(b.line.queued) - multiset(Without(b.line.queued, out))))
    case Deliver => b.(line := TakeReply(b.line), delivered := b.delivered + multiset{b.line.replies[0].action})
    case Sender(step) => b.(line := Apply(b.line, step, silence))
  }

  /** Every request pushed is still in the line, or was withdrawn, delivered with its answer, or lost: once each. */
  ghost predicate Balanced<A(!new)>(b: Books<A>) {
    forall a: A :: b.pushed[a] == Copies(b.line, a) + b.withdrawn[a] + b.delivered[a] + b.line.lost[a]
  }

  lemma {:induction false} PostBalances<A(!new)>(b: Books<A>, e: LineEvent<A>, silence: nat)
    requires Balanced(b) && Can(b, e, silence)
    ensures Balanced(Post(b, e, silence))
  {
    var b2 := Post(b, e, silence);
    forall a: A ensures b2.pushed[a] == Copies(b2.line, a) + b2.withdrawn[a] + b2.delivered[a] + b2.line.lost[a] {
      assert b.pushed[a] == Copies(b.line, a) + b.withdrawn[a] + b.delivered[a] + b.line.lost[a];
      match e
      case Back(r) => PushCounts(b.line, r, a);
      case Front(r) => PushCounts(b.line, r, a);
      case Out(out) => WithdrawCounts(b.line, out, a);
      case Deliver => DeliverCounts(b.line, a);
      case Sender(step) => SenderKeepsCopies(b.line, step, silence, a);
    }
  }

  ghost predicate CanRun<A>(b: Books<A>, events: seq<LineEvent<A>>, silence: nat)
    decreases |events|
  {
    events == [] || (Can(b, events[0], silence) && CanRun(Post(b, events[0], silence), events[1..], silence))
  }

  ghost function RunLine<A>(b: Books<A>, events: seq<LineEvent<A>>, silence: nat): Books<A>
    requires CanRun(b, events, silence)
    decreases |events|
  {
    if events == [] then b else RunLine(Post(b, events[0], silence), events[1..], silence)
  }

  function Opening<A>(): Books<A> { Books(Fresh(), multiset{}, multiset{}, multiset{}) }

  lemma {:induction false} RunBalances<A(!new)>(b: Books<A>, events: seq<LineEvent<A>>, silence: nat)
    requires Balanced(b) && CanRun(b, events, silence)
    ensures Balanced(RunLine(b, events, silence))
    decreases |events|
  {
    if events != [] {
      PostBalances(b, events[0], silence);
      RunBalances(Post(b, events[0], silence), events[1..], silence);
    }
  }

  /** Exactly once, over every run of a new line. */
  lemma {:induction false} EveryRequestAccounted<A(!new)>(events: seq<LineEvent<A>>, silence: nat)
    requires CanRun(Opening<A>(), events, silence)
    ensures Balanced(RunLine(Opening<A>(), events, silence))
  {
    EmptyWire<A>();
    assert Balanced(Opening<A>());
    RunBalances(Opening(), events, silence);
  }

  /** The link hands out a number that is still on the wire table. */
  predicate Reuses<A>(l: Line<A>, e: LineEvent<A>) {
    e.Sender? && e.step.Send? && l.hand.Some? && !Collides(l, e.step.number) && e.step.number in l.wire
  }

  ghost predicate NeverReuses<A>(b: Books<A>, events: seq<LineEvent<A>>, silence: nat)
    requires CanRun(b, events, silence)
    decreases |events|
  {
    events == [] || (!Reuses(b.line, events[0]) && NeverReuses(Post(b, events[0], silence), events[1..], silence))
  }

  lemma {:induction false} PushedOffOnlyByReuse<A>(b: Books<A>, events: seq<LineEvent<A>>, silence: nat)
    requires CanRun(b, events, silence)
    ensures RunLine(b, events, silence).line.lost == b.line.lost <==> NeverReuses(b, events, silence)
    ensures b.line.lost <= RunLine(b, events, silence).line.lost
    decreases |events|
  {
    if events != [] {
      var b2 := Post(b, events[0], silence);
      PushedOffOnlyByReuse(b2, events[1..], silence);
      PushedOffNow(b, events[0], silence);
    }
  }

  lemma {:induction false} PushedOffNow<A>(b: Books<A>, e: LineEvent<A>, silence: nat)
    requires Can(b, e, silence)
    ensures b.line.lost <= Post(b, e, silence).line.lost && (Post(b, e, silence).line.lost == b.line.lost <==> !Reuses(b.line, e))
  {
    if Reuses(b.line, e) {
      var a := b.line.wire[e.step.number];
      assert Post(b, e, silence).line.lost[a] == b.line.lost[a] + 1;
    }
  }

  /** Every copy pushed is in the line, withdrawn, or delivered with its answer. */
  ghost predicate NothingMissing<A(!new)>(b: Books<A>) {
    forall a: A :: b.pushed[a] == Copies(b.line, a) + b.withdrawn[a] + b.delivered[a]
  }

  lemma {:induction false} MissingIsLost<A(!new)>(b: Books<A>)
    requires Balanced(b)
    ensures NothingMissing(b) <==> b.line.lost == multiset{}
  {
    if NothingMissing(b) {
      forall a: A ensures b.line.lost[a] == 0 {
        assert b.pushed[a] == Copies(b.line, a) + b.withdrawn[a] + b.delivered[a] + b.line.lost[a];
      }
    }
  }

  /** A new line has every copy it was ever given, or gave it out again, if and only if no link ever hands out a number the wire
      table still has. */
  lemma {:induction false} LosesOnlyByReuse<A(!new)>(events: seq<LineEvent<A>>, silence: nat)
    requires CanRun(Opening<A>(), events, silence)
    ensures NothingMissing(RunLine(Opening<A>(), events, silence)) <==> NeverReuses(Opening<A>(), events, silence)
  {
    EveryRequestAccounted(events, silence);
    MissingIsLost(RunLine(Opening<A>(), events, silence));
    PushedOffOnlyByReuse(Opening<A>(), events, silence);
  }

  /** A request comes in and is sent as number 1, and the run goes on. */
  function SendThen(a: int, rest: seq<LineEvent<int>>): seq<LineEvent<int>> {
    [Back(a)] + ([Sender(Take)] + ([Sender(Send(1))] + rest))
  }

  function ReuseRun(first: int, second: int): seq<LineEvent<int>> { SendThen(first, [Sender(NewLink)] + SendThen(second, [])) }

  /** Nothing waits, and the link is not waiting for number 1. */
  predicate MaySend(l: Line<int>) { l.queued == [] && l.hand.None? && !Collides(l, 1) }

  function Sent(b: Books<int>, a: int): Books<int> {
    var l := b.line;
    b.(pushed := b.pushed + multiset{a},
       line := l.(heardAt := if l.wire == map[] then l.now else l.heardAt, wire := l.wire[1 := a],
                  waits := l.waits + {Wait(l.link, 1)}, lost := l.lost + if 1 in l.wire then multiset{l.wire[1]} else multiset{}))
  }

  lemma {:induction false} SendsThen(b: Books<int>, a: int, rest: seq<LineEvent<int>>, silence: nat)
    requires MaySend(b.line) && CanRun(Sent(b, a), rest, silence)
    ensures CanRun(b, SendThen(a, rest), silence) && RunLine(b, SendThen(a, rest), silence) == RunLine(Sent(b, a), rest, silence)
  {
    assert b.line.queued + [a] == [a] && [a][1..] == [];
    var b1 := Post(b, Back(a), silence);
    var b2 := Post(b1, Sender(Take), silence);
    assert Post(b2, Sender(Send(1)), silence) == Sent(b, a);
    RunUnfolds(b2, Sender(Send(1)), rest, silence);
    RunUnfolds(b1, Sender(Take), [Sender(Send(1))] + rest, silence);
    RunUnfolds(b, Back(a), [Sender(Take)] + ([Sender(Send(1))] + rest), silence);
  }

  /** Two links, one number: of the two requests pushed only the second is left, and none was answered. */
  lemma {:induction false} ReuseLoses(first: int, second: int, silence: nat)
    ensures CanRun(Opening<int>(), ReuseRun(first, second), silence)
    ensures var b := RunLine(Opening<int>(), ReuseRun(first, second), silence);
            && b.pushed == multiset{first, second} && b.withdrawn == multiset{} && b.delivered == multiset{}
            && forall a :: Copies(b.line, a) == multiset{second}[a]
  {
    var b1 := Sent(Opening<int>(), first);
    var b2 := b1.(line := b1.line.(link := 1));
    var b3 := Sent(b2, second);
    SendsThen(b2, second, [], silence);
    RunUnfolds(b1, Sender(NewLink), SendThen(second, []), silence);
    SendsThen(Opening<int>(), first, [Sender(NewLink)] + SendThen(second, []), silence);
    EveryRequestAccounted(ReuseRun(first, second), silence);
    OnlyFirstGoes(first, second);
    SecondIsLeft(b3, first, second);
  }

  lemma OnlyFirstGoes(first: int, second: int)
    ensures var b1 := Sent(Opening<int>(), first);
            var b3 := Sent(b1.(line := b1.line.(link := 1)), second);
            b3.pushed == multiset{first, second} && b3.line.lost == multiset{first}
  {
  }

  lemma {:induction false} SecondIsLeft(b: Books<int>, first: int, second: int)
    requires Balanced(b) && b.pushed == multiset{first, second} && b.withdrawn == multiset{} && b.delivered == multiset{}
    requires b.line.lost == multiset{first}
    ensures forall a :: Copies(b.line, a) == multiset{second}[a]
  {
    forall a ensures Copies(b.line, a) == multiset{second}[a] {
      assert b.pushed[a] == Copies(b.line, a) + b.withdrawn[a] + b.delivered[a] + b.line.lost[a];
    }
  }

  lemma {:induction false} RunUnfolds<A>(b: Books<A>, e: LineEvent<A>, rest: seq<LineEvent<A>>, silence: nat)
    requires Can(b, e, silence) && CanRun(Post(b, e, silence), rest, silence)
    ensures CanRun(b, [e] + rest, silence) && RunLine(b, [e] + rest, silence) == RunLine(Post(b, e, silence), rest, silence)
  {
    assert ([e] + rest)[1..] == rest;
  }

  // ---- the silence timeout ----

  ghost predicate SenderRuns<A>(l: Line<A>, steps: seq<SenderStep>, silence: nat)
    decreases |steps|
  {
    steps == [] || (Enabled(l, steps[0], silence) && SenderRuns(Apply(l, steps[0], silence), steps[1..], silence))
  }

  ghost function SenderEnd<A>(l: Line<A>, steps: seq<SenderStep>, silence: nat): Line<A>
    requires SenderRuns(l, steps, silence)
    decreases |steps|
  {
    if steps == [] then l else SenderEnd(Apply(l, steps[0], silence), steps[1..], silence)
  }

  /** `heardAt` and the clock only go forward. */
  lemma {:induction false} ClockForward<A>(l: Line<A>, steps: seq<SenderStep>, silence: nat)
    requires SenderRuns(l, steps, silence) && l.heardAt <= l.now
    ensures var end := SenderEnd(l, steps, silence);
            l.now <= end.now && l.heardAt <= end.heardAt <= end.now
    decreases |steps|
  {
    if steps != [] { ClockForward(Apply(l, steps[0], silence), steps[1..], silence); }
  }

  /** What was heard after `l`: nothing, if the line's last sign of life at the end is older than `l`. Then something was on
      the wire all along. */
  lemma {:induction false} NothingHeardSince<A>(l: Line<A>, steps: seq<SenderStep>, silence: nat)
    requires SenderRuns(l, steps, silence) && l.heardAt <= l.now
    requires SenderEnd(l, steps, silence).heardAt < l.now && SenderEnd(l, steps, silence).wire != map[]
    ensures l.wire != map[]
    ensures forall i :: 0 <= i < |steps| ==> !steps[i].Answer? && !steps[i].Silence?
    decreases |steps|
  {
    if steps != [] {
      var next := Apply(l, steps[0], silence);
      ClockForward(next, steps[1..], silence);
      NothingHeardSince(next, steps[1..], silence);
      assert steps[0].Answer? ==> next.heardAt == l.now;
      forall i | 0 <= i < |steps| ensures !steps[i].Answer? && !steps[i].Silence? {
        if i > 0 { assert steps[i] == steps[1..][i - 1]; }
      }
    }
  }

  /** A silence timeout comes only after a whole window in which something was on the wire at every moment and no answer
      came in. */
  lemma {:induction false} SilenceIsSound<A>(l: Line<A>, steps: seq<SenderStep>, silence: nat, order: seq<nat>)
    requires SenderRuns(l, steps, silence) && l.heardAt <= l.now
    requires Enabled(SenderEnd(l, steps, silence), Silence(order), silence)
    requires SenderEnd(l, steps, silence).now - l.now < silence
    ensures l.wire != map[] && forall i :: 0 <= i < |steps| ==> !steps[i].Answer? && !steps[i].Silence?
  {
    NothingHeardSince(l, steps, silence);
  }

  /** And then all of them time out, each once; of the reply tasks only those are left that have their answer already. */
  lemma {:induction false} SilenceTakesAll<A>(l: Line<A>, order: seq<nat>, silence: nat)
    requires Enabled(l, Silence(order), silence)
    ensures var l2 := Apply(l, Silence(order), silence);
            && l2.wire == map[] && l2.waits == {} && l2.late == l.late && l.replies <= l2.replies
            && Replied(l2.replies[|l.replies|..]) == OnWire(l.wire)
            && (forall i :: |l.replies| <= i < |l2.replies| ==> l2.replies[i].result == Refused(Timeout))
  {
    var timedOut := TimedOut(l.wire, order);
    TimedOutIsWire(l.wire, order);
    AllTimeouts(l.wire, order);
    assert (l.replies + timedOut)[|l.replies|..] == timedOut;
  }

  lemma {:induction false} AllTimeouts<A>(wire: map<nat, A>, order: seq<nat>)
    ensures forall i :: 0 <= i < |TimedOut(wire, order)| ==> TimedOut(wire, order)[i].result == Refused(Timeout)
    decreases |order|
  {
    if order != [] && order[0] in wire { AllTimeouts(wire - {order[0]}, order[1..]); }
  }

  // ---- answers ----

  /** How many times a request was answered so far, taken by the owner or not. */
  ghost function Answered<A>(b: Books<A>, a: A): nat { b.delivered[a] + Replied(b.line.replies)[a] }

  /** Never more answers than copies pushed. */
  lemma {:induction false} AtMostOneAnswer<A(!new)>(events: seq<LineEvent<A>>, silence: nat, a: A)
    requires CanRun(Opening<A>(), events, silence)
    ensures var b := RunLine(Opening<A>(), events, silence); Answered(b, a) <= b.pushed[a]
  {
    EveryRequestAccounted(events, silence);
  }

  lemma {:induction false} BooksGrow<A>(b: Books<A>, events: seq<LineEvent<A>>, silence: nat)
    requires CanRun(b, events, silence)
    ensures var b2 := RunLine(b, events, silence);
            b.pushed <= b2.pushed && b.withdrawn <= b2.withdrawn && b.line.lost <= b2.line.lost
    decreases |events|
  {
    if events != [] {
      PostGrows(b, events[0], silence);
      BooksGrow(Post(b, events[0], silence), events[1..], silence);
    }
  }

  lemma {:induction false} PostGrows<A>(b: Books<A>, e: LineEvent<A>, silence: nat)
    requires Can(b, e, silence)
    ensures var b2 := Post(b, e, silence);
            b.pushed <= b2.pushed && b.withdrawn <= b2.withdrawn && b.line.lost <= b2.line.lost
  {
  }

  /** After a silence timeout nothing it timed out is answered again: whatever is answered later was still waiting then, or
      was pushed later. Late reply tasks, new links and reused numbers included. */
  lemma {:induction false} TimedOutOnce<A(!new)>(b: Books<A>, order: seq<nat>, events: seq<LineEvent<A>>, silence: nat, a: A)
    requires Balanced(b) && Can(b, Sender(Silence(order)), silence)
    requires CanRun(Post(b, Sender(Silence(order)), silence), events, silence)
    ensures var quiet := Post(b, Sender(Silence(order)), silence);
            var end := RunLine(quiet, events, silence);
            Answered(end, a) + quiet.pushed[a] <= Answered(quiet, a) + multiset(b.line.queued)[a] + end.pushed[a]
  {
    var quiet := Post(b, Sender(Silence(order)), silence);
    PostBalances(b, Sender(Silence(order)), silence);
    QuietLine(b, order, silence);
    AnsweredMore(quiet, events, silence, a);
  }

  lemma {:induction false} QuietLine<A>(b: Books<A>, order: seq<nat>, silence: nat)
    requires Can(b, Sender(Silence(order)), silence)
    ensures var quiet := Post(b, Sender(Silence(order)), silence).line;
            quiet.queued == b.line.queued && quiet.hand == None && OnWire(quiet.wire) == multiset{}
  {
    EmptyWire<A>();
  }

  /** What is answered in a run was in the line when it began, unanswered, or was pushed in it. */
  lemma {:induction false} AnsweredMore<A(!new)>(b: Books<A>, events: seq<LineEvent<A>>, silence: nat, a: A)
    requires Balanced(b) && CanRun(b, events, silence)
    ensures var end := RunLine(b, events, silence);
            Answered(end, a) + b.pushed[a]
            <= Answered(b, a) + multiset(b.line.queued)[a] + Held(b.line.hand)[a] + OnWire(b.line.wire)[a] + end.pushed[a]
  {
    RunBalances(b, events, silence);
    BooksGrow(b, events, silence);
    BalanceOf(b, a);
    BalanceOf(RunLine(b, events, silence), a);
  }

  lemma BalanceOf<A(!new)>(b: Books<A>, a: A)
    requires Balanced(b)
    ensures b.pushed[a] == multiset(b.line.queued)[a] + Held(b.line.hand)[a] + OnWire(b.line.wire)[a] + Answered(b, a)
                           + b.withdrawn[a] + b.line.lost[a]
  {
    assert b.pushed[a] == Copies(b.line, a) + b.withdrawn[a] + b.delivered[a] + b.line.lost[a];
  }

  /** A number that is on the table and was not before was handed out in between. */
  lemma {:induction false} OnTheTableWasSent<A>(b: Books<A>, events: seq<LineEvent<A>>, silence: nat, number: nat)
    requires CanRun(b, events, silence) && number !in b.line.wire
    requires number in RunLine(b, events, silence).line.wire
    ensures Sender(Send(number)) in events
    decreases |events|
  {
    var b2 := Post(b, events[0], silence);
    if number !in b2.line.wire { OnTheTableWasSent(b2, events[1..], silence, number); }
    else { PutOnTheTable(b, events[0], silence, number); }
  }

  lemma {:induction false} PutOnTheTable<A>(b: Books<A>, e: LineEvent<A>, silence: nat, number: nat)
    requires Can(b, e, silence) && number !in b.line.wire && number in Post(b, e, silence).line.wire
    ensures e == Sender(Send(number))
  {
  }

  /** The answer to a request that timed out comes too late: it is told to nobody, unless its number was handed out again in
      the meantime. */
  lemma {:induction false} LateAnswerIsNothing<A>(b: Books<A>, order: seq<nat>, events: seq<LineEvent<A>>, silence: nat,
      wait: Wait, result: LineResult)
    requires Can(b, Sender(Silence(order)), silence)
    requires CanRun(Post(b, Sender(Silence(order)), silence), events, silence)
    requires var end := RunLine(Post(b, Sender(Silence(order)), silence), events, silence);
             Can(end, Sender(Answer(wait, result)), silence)
    ensures var end := RunLine(Post(b, Sender(Silence(order)), silence), events, silence);
            var line := Post(end, Sender(Answer(wait, result)), silence).line;
            line.replies != end.line.replies || line.wire != end.line.wire ==> Sender(Send(wait.number)) in events
  {
    var quiet := Post(b, Sender(Silence(order)), silence);
    var end := RunLine(quiet, events, silence);
    if wait.number in end.line.wire { OnTheTableWasSent(quiet, events, silence, wait.number); }
  }
}
