/** Which answer a request gets, over whole runs of one line: the result of the reply task, the send error or the silence timeout
    that took it off. The task looks the request up by number alone, so it is the request's own task unless a number was sent while
    a task for it still lived. */
module LineAnswers {
  import opened Wrappers
  import opened Lines
  import opened LineRuns

  /** The line, and beside it: who was taken off with which result, what the owner was handed, on which link each number of the
      wire table was sent, and what each reply task was started for. */
  datatype Ledger<A> = Ledger(
    books: Books<A>,
    took: seq<LineReply<A>>,
    handed: seq<LineReply<A>>,
    links: map<nat, nat>,
    started: map<Wait, A>)

  /** Who an event takes off, with what result. */
  ghost function Takes<A>(l: Line<A>, e: LineEvent<A>, silence: nat): seq<LineReply<A>>
    requires e.Sender? ==> Enabled(l, e.step, silence)
  {
    if !e.Sender? then []
    else
      match e.step
      case SendError(error) => [LineReply(l.hand.value, Refused(error))]
      case Answer(wait, result) => if wait.number in l.wire then [LineReply(l.wire[wait.number], result)] else []
      case Silence(order) => seq(|order|, i requires 0 <= i < |order| => LineReply(l.wire[order[i]], Refused(Timeout)))
      case _ => []
  }

  /** The event sends a request, and the link takes it. */
  predicate SendsNow<A>(l: Line<A>, e: LineEvent<A>) {
    e.Sender? && e.step.Send? && l.hand.Some? && !Collides(l, e.step.number)
  }

  ghost function Write<A>(g: Ledger<A>, e: LineEvent<A>, silence: nat): Ledger<A>
    requires Can(g.books, e, silence)
  {
    var l := g.books.line;
    Ledger(Post(g.books, e, silence),
           g.took + Takes(l, e, silence),
           if e.Deliver? then g.handed + [l.replies[0]] else g.handed,
           if SendsNow(l, e) then g.links[e.step.number := l.link] else g.links,
           if SendsNow(l, e) then g.started[Wait(l.link, e.step.number) := l.hand.value] else g.started)
  }

  function NewLedger<A>(): Ledger<A> { Ledger(Opening(), [], [], map[], map[]) }

  ghost predicate Runs<A>(g: Ledger<A>, events: seq<LineEvent<A>>, silence: nat)
    decreases |events|
  {
    events == [] || (Can(g.books, events[0], silence) && Runs(Write(g, events[0], silence), events[1..], silence))
  }

  ghost function EndOf<A>(g: Ledger<A>, events: seq<LineEvent<A>>, silence: nat): Ledger<A>
    requires Runs(g, events, silence)
    decreases |events|
  {
    if events == [] then g else EndOf(Write(g, events[0], silence), events[1..], silence)
  }

  // ---- the result is the one it was taken off with ----

  /** What was taken off is handed out, and in that order; the rest waits. */
  predicate HandsOn<A(==)>(g: Ledger<A>) { g.handed + g.books.line.replies == g.took }

  lemma {:induction false} StepTakes<A>(l: Line<A>, step: SenderStep, silence: nat)
    requires Enabled(l, step, silence)
    ensures Apply(l, step, silence).replies == l.replies + Takes(l, Sender(step), silence)
  {
    if step.Silence? {
      TimedOutAll(l.wire, step.order);
      assert TimedOut(l.wire, step.order) == Takes(l, Sender(step), silence);
    }
  }

  lemma {:induction false} WriteHandsOn<A>(g: Ledger<A>, e: LineEvent<A>, silence: nat)
    requires HandsOn(g) && Can(g.books, e, silence)
    ensures HandsOn(Write(g, e, silence))
  {
    var l := g.books.line;
    match e
    case Sender(step) =>
      StepTakes(l, step, silence);
      assert g.handed + (l.replies + Takes(l, e, silence)) == g.handed + l.replies + Takes(l, e, silence);
    case Deliver =>
      assert g.handed + [l.replies[0]] + l.replies[1..] == g.handed + l.replies;
    case _ =>
  }

  lemma {:induction false} HandsOnInRun<A>(g: Ledger<A>, events: seq<LineEvent<A>>, silence: nat)
    requires HandsOn(g) && Runs(g, events, silence)
    ensures HandsOn(EndOf(g, events, silence))
    decreases |events|
  {
    if events != [] {
      WriteHandsOn(g, events[0], silence);
      HandsOnInRun(Write(g, events[0], silence), events[1..], silence);
    }
  }

  /** Over every run of a new line: the replies handed out, and those still waiting, are exactly the requests taken off so far, in
      that order, each with the result of the reply task, the send error or the silence timeout that took it. */
  lemma {:induction false} AnswersAreTaken<A>(events: seq<LineEvent<A>>, silence: nat)
    requires Runs(NewLedger<A>(), events, silence)
    ensures var g := EndOf(NewLedger<A>(), events, silence); g.handed + g.books.line.replies == g.took
  {
    HandsOnInRun(NewLedger(), events, silence);
  }

  // ---- and it is the answer to this very request ----

  /** The reply tasks that still live. */
  ghost function Tasks<A>(l: Line<A>): multiset<Wait> { multiset(l.waits) + l.late }

  /** Every request on the wire has the reply task that was started for it. */
  ghost predicate HasOwn<A(!new)>(g: Ledger<A>) {
    forall n :: n in g.books.line.wire ==>
      && n in g.links && Wait(g.links[n], n) in Tasks(g.books.line)
      && Wait(g.links[n], n) in g.started && g.started[Wait(g.links[n], n)] == g.books.line.wire[n]
  }

  /** No other task lives that could take a request on the wire. */
  ghost predicate Clear<A(!new)>(g: Ledger<A>) {
    forall w :: w in Tasks(g.books.line) && w.number in g.books.line.wire ==>
      w.number in g.links && w.link == g.links[w.number] && Tasks(g.books.line)[w] == 1
  }

  /** The link hands out a number for which a reply task, of whatever link, still lives. */
  ghost predicate SendsOver<A>(l: Line<A>, e: LineEvent<A>) {
    SendsNow(l, e) && exists w :: w in Tasks(l) && w.number == e.step.number
  }

  lemma {:induction false} SendOwns<A(!new)>(g: Ledger<A>, number: nat, silence: nat)
    requires HasOwn(g) && SendsNow(g.books.line, Sender(Send(number)))
    ensures HasOwn(Write(g, Sender(Send(number)), silence))
  {
    var g2 := Write(g, Sender(Send(number)), silence);
    var l, l2 := g.books.line, g2.books.line;
    assert forall w :: Tasks(l2)[w] == Tasks(l)[w] + if w == Wait(l.link, number) then 1 else 0;
  }

  lemma {:induction false} AnswerOwns<A(!new)>(g: Ledger<A>, wait: Wait, result: LineResult, silence: nat)
    requires HasOwn(g) && wait in g.books.line.late
    ensures HasOwn(Write(g, Sender(Answer(wait, result)), silence))
  {
    var g2 := Write(g, Sender(Answer(wait, result)), silence);
    assert forall w :: Tasks(g2.books.line)[w] == Tasks(g.books.line)[w] - if w == wait then 1 else 0;
  }

  lemma {:induction false} WriteOwns<A(!new)>(g: Ledger<A>, e: LineEvent<A>, silence: nat)
    requires HasOwn(g) && Can(g.books, e, silence)
    ensures HasOwn(Write(g, e, silence))
  {
    if SendsNow(g.books.line, e) {
      SendOwns(g, e.step.number, silence);
    } else if e.Sender? && e.step.Answer? {
      AnswerOwns(g, e.step.wait, e.step.result, silence);
    } else {
      QuietOwns(g, e, silence);
    }
  }

  lemma {:induction false} QuietOwns<A(!new)>(g: Ledger<A>, e: LineEvent<A>, silence: nat)
    requires HasOwn(g) && Can(g.books, e, silence) && !SendsNow(g.books.line, e) && !(e.Sender? && e.step.Answer?)
    ensures HasOwn(Write(g, e, silence))
  {
    QuietTasks(g.books.line, e, silence);
  }

  /** Hearing an answer ends no task, and all but a silence timeout leave the wire table. */
  lemma {:induction false} QuietTasks<A>(l: Line<A>, e: LineEvent<A>, silence: nat)
    requires e.Sender? ==> Enabled(l, e.step, silence) && !e.step.Answer?
    requires e.Deliver? ==> l.replies != []
    requires !SendsNow(l, e)
    ensures var l2 := LineAfter(l, e, silence);
            l2.wire == map[] || (l2.wire == l.wire && Tasks(l2) == Tasks(l))
  {
  }

  ghost function LineAfter<A>(l: Line<A>, e: LineEvent<A>, silence: nat): Line<A>
    requires e.Sender? ==> Enabled(l, e.step, silence)
    requires e.Deliver? ==> l.replies != []
  {
    Post(Books(l, multiset{}, multiset{}, multiset{}), e, silence).line
  }

  /** The table stays clear of other tasks exactly as long as no number is handed out for which one lives. */
  lemma {:induction false} WriteClears<A(!new)>(g: Ledger<A>, e: LineEvent<A>, silence: nat)
    requires HasOwn(g) && Clear(g) && Can(g.books, e, silence)
    ensures Clear(Write(g, e, silence)) <==> !SendsOver(g.books.line, e)
  {
    if SendsNow(g.books.line, e) { SendClears(g, e.step.number, silence); }
    else if e.Sender? && e.step.Answer? { AnswerClears(g, e.step.wait, e.step.result, silence); }
    else { QuietClears(g, e, silence); }
  }

  lemma {:induction false} AnswerClears<A(!new)>(g: Ledger<A>, wait: Wait, result: LineResult, silence: nat)
    requires Clear(g) && wait in g.books.line.late
    ensures Clear(Write(g, Sender(Answer(wait, result)), silence))
  {
    var g2 := Write(g, Sender(Answer(wait, result)), silence);
    assert forall w :: Tasks(g2.books.line)[w] == Tasks(g.books.line)[w] - if w == wait then 1 else 0;
  }

  lemma {:induction false} QuietClears<A(!new)>(g: Ledger<A>, e: LineEvent<A>, silence: nat)
    requires Clear(g) && Can(g.books, e, silence) && !SendsNow(g.books.line, e) && !(e.Sender? && e.step.Answer?)
    ensures Clear(Write(g, e, silence))
  {
    QuietTasks(g.books.line, e, silence);
  }

  lemma {:induction false} SendClears<A(!new)>(g: Ledger<A>, number: nat, silence: nat)
    requires Clear(g) && SendsNow(g.books.line, Sender(Send(number)))
    ensures Clear(Write(g, Sender(Send(number)), silence)) <==> !SendsOver(g.books.line, Sender(Send(number)))
  {
    var e: LineEvent<A> := Sender(Send(number));
    var l, l2 := g.books.line, Write(g, e, silence).books.line;
    var own := Wait(l.link, number);
    assert forall w :: Tasks(l2)[w] == Tasks(l)[w] + if w == own then 1 else 0;
    if w :| w in Tasks(l) && w.number == number {
      assert w in Tasks(l2) && w.number in l2.wire;
      assert w == own ==> Tasks(l2)[w] > 1;
    }
  }

  ghost predicate NeverSendsOver<A>(g: Ledger<A>, events: seq<LineEvent<A>>, silence: nat)
    requires Runs(g, events, silence)
    decreases |events|
  {
    events == [] || (!SendsOver(g.books.line, events[0]) && NeverSendsOver(Write(g, events[0], silence), events[1..], silence))
  }

  ghost predicate AlwaysClear<A(!new)>(g: Ledger<A>, events: seq<LineEvent<A>>, silence: nat)
    requires Runs(g, events, silence)
    decreases |events|
  {
    Clear(g) && (events == [] || AlwaysClear(Write(g, events[0], silence), events[1..], silence))
  }

  lemma {:induction false} ClearInRun<A(!new)>(g: Ledger<A>, events: seq<LineEvent<A>>, silence: nat)
    requires HasOwn(g) && Clear(g) && Runs(g, events, silence)
    ensures AlwaysClear(g, events, silence) <==> NeverSendsOver(g, events, silence)
    decreases |events|
  {
    if events != [] {
      var g2 := Write(g, events[0], silence);
      WriteOwns(g, events[0], silence);
      WriteClears(g, events[0], silence);
      if Clear(g2) {
        ClearInRun(g2, events[1..], silence);
      } else if events[1..] != [] {
        assert !AlwaysClear(g2, events[1..], silence);
      }
    }
  }

  /** Over every run of a new line: at no moment could a reply task take another request than the one it was started for, if and
      only if no number is ever handed out for which a task still lives. */
  lemma {:induction false} ClearIff<A(!new)>(events: seq<LineEvent<A>>, silence: nat)
    requires Runs(NewLedger<A>(), events, silence)
    ensures AlwaysClear(NewLedger<A>(), events, silence) <==> NeverSendsOver(NewLedger<A>(), events, silence)
  {
    ClearInRun(NewLedger(), events, silence);
  }

  /** With the table clear, the request a reply task takes is the one it was started for. */
  lemma {:induction false} TakesOwn<A(!new)>(g: Ledger<A>, wait: Wait, result: LineResult, silence: nat)
    requires HasOwn(g) && Clear(g) && wait in g.books.line.late && wait.number in g.books.line.wire
    ensures wait in g.started && Takes(g.books.line, Sender(Answer(wait, result)), silence) == [LineReply(g.started[wait], result)]
  {
    assert wait in Tasks(g.books.line);
  }

  lemma {:induction false} OwnAnswerInRun<A(!new)>(g: Ledger<A>, events: seq<LineEvent<A>>, silence: nat)
    requires HasOwn(g) && Clear(g) && Runs(g, events, silence) && NeverSendsOver(g, events, silence)
    ensures HasOwn(EndOf(g, events, silence)) && Clear(EndOf(g, events, silence))
    decreases |events|
  {
    if events != [] {
      WriteOwns(g, events[0], silence);
      WriteClears(g, events[0], silence);
      OwnAnswerInRun(Write(g, events[0], silence), events[1..], silence);
    }
  }

  /** As long as no number was handed out for which a task lives, a request gets the answer to itself and to no other. */
  lemma {:induction false} OwnAnswer<A(!new)>(events: seq<LineEvent<A>>, silence: nat, wait: Wait, result: LineResult)
    requires Runs(NewLedger<A>(), events, silence) && NeverSendsOver(NewLedger<A>(), events, silence)
    requires var l := EndOf(NewLedger<A>(), events, silence).books.line; wait in l.late && wait.number in l.wire
    ensures var g := EndOf(NewLedger<A>(), events, silence);
            && wait in g.started
            && Takes(g.books.line, Sender(Answer(wait, result)), silence) == [LineReply(g.started[wait], result)]
  {
    OwnAnswerInRun(NewLedger(), events, silence);
    TakesOwn(EndOf(NewLedger<A>(), events, silence), wait, result, silence);
  }

  // ---- a run in which a request gets the answer to another ----

  /** A request comes in and is sent as number 1. */
  function SendOne(a: int): seq<LineEvent<int>> { [Back(a), Sender(Take), Sender(Send(1))] }

  lemma {:induction false} RunsThen<A>(g: Ledger<A>, first: seq<LineEvent<A>>, rest: seq<LineEvent<A>>, silence: nat)
    requires Runs(g, first, silence) && Runs(EndOf(g, first, silence), rest, silence)
    ensures Runs(g, first + rest, silence) && EndOf(g, first + rest, silence) == EndOf(EndOf(g, first, silence), rest, silence)
    decreases |first|
  {
    if first == [] {
      assert first + rest == rest;
    } else {
      assert (first + rest)[0] == first[0] && (first + rest)[1..] == first[1..] + rest;
      RunsThen(Write(g, first[0], silence), first[1..], rest, silence);
    }
  }

  lemma {:induction false} RunsOne<A>(g: Ledger<A>, e: LineEvent<A>, silence: nat)
    requires Can(g.books, e, silence)
    ensures Runs(g, [e], silence) && EndOf(g, [e], silence) == Write(g, e, silence)
  {
    assert [e][1..] == [];
  }

  /** Sending one request on a line that is free. */
  lemma {:induction false} SendsOne(g: Ledger<int>, a: int, silence: nat)
    requires g.books.line.queued == [] && g.books.line.hand.None? && Wait(g.books.line.link, 1) !in g.books.line.waits
    ensures Runs(g, SendOne(a), silence)
    ensures var l, g2 := g.books.line, EndOf(g, SendOne(a), silence);
            && g2.books.line.queued == [] && g2.books.line.hand.None? && g2.books.line.wire == l.wire[1 := a]
            && g2.books.line.link == l.link && g2.books.line.waits == l.waits + {Wait(l.link, 1)} && g2.books.line.late == l.late
            && g2.books.line.now == l.now && g2.books.line.heardAt <= l.now + l.heardAt && g2.took == g.took
            && g2.started == g.started[Wait(l.link, 1) := a]
            && (l.wire == map[] ==> g2.books.line.heardAt == l.now)
  {
    var g1 := Write(g, Back(a), silence);
    var g2 := Write(g1, Sender(Take), silence);
    RunsOne(g, Back(a), silence);
    RunsOne(g1, Sender(Take), silence);
    RunsOne(g2, Sender(Send(1)), silence);
    RunsThen(g1, [Sender(Take)], [Sender(Send(1))], silence);
    RunsThen(g, [Back(a)], [Sender(Take)] + [Sender(Send(1))], silence);
    assert SendOne(a) == [Back(a)] + ([Sender(Take)] + [Sender(Send(1))]);
  }

  /** A new link sends another request as number 1, and then the old task gets the lock. */
  function NewLinkThen(second: int): seq<LineEvent<int>> {
    [Sender(NewLink)] + (SendOne(second) + [Sender(Answer(Wait(0, 1), Ack))])
  }

  /** The link has the answer to number 1 when the line falls silent. */
  function MixUp(first: int, second: int, silence: nat): seq<LineEvent<int>> {
    SendOne(first)
    + ([Sender(Heard(Wait(0, 1)))] + ([Sender(Pass(silence))] + ([Sender(Silence([1]))] + NewLinkThen(second))))
  }

  /** The first request comes back as a timeout, and its answer as the answer to the second. */
  lemma {:induction false} OthersAnswer(first: int, second: int, silence: nat)
    ensures Runs(NewLedger<int>(), MixUp(first, second, silence), silence)
    ensures var g := EndOf(NewLedger<int>(), MixUp(first, second, silence), silence);
            && Wait(0, 1) in g.started && g.started[Wait(0, 1)] == first
            && g.took == [LineReply(first, Refused(Timeout)), LineReply(second, Ack)]
  {
    var g0 := NewLedger<int>();
    SendsOne(g0, first, silence);
    var g1 := EndOf(g0, SendOne(first), silence);
    var g4 := FallsSilent(g1, first, silence);
    TakesOthers(g4, second, silence);
    SilentThen(g1, g4, NewLinkThen(second), silence);
    RunsThen(g0, SendOne(first), [Sender(Heard(Wait(0, 1)))] + ([Sender(Pass(silence))] + ([Sender(Silence([1]))]
             + NewLinkThen(second))), silence);
  }

  lemma {:induction false} TakesOthers(g: Ledger<int>, a: int, silence: nat)
    requires var l := g.books.line;
             l.queued == [] && l.hand.None? && l.wire == map[] && l.waits == {} && l.late == multiset{Wait(0, 1)} && l.link == 0
    ensures Runs(g, NewLinkThen(a), silence)
    ensures var g2 := EndOf(g, NewLinkThen(a), silence);
            g2.took == g.took + [LineReply(a, Ack)] && g2.started == g.started[Wait(1, 1) := a]
  {
    var g1 := Write(g, Sender(NewLink), silence);
    SendsOne(g1, a, silence);
    var g2 := EndOf(g1, SendOne(a), silence);
    RunsOne(g, Sender(NewLink), silence);
    RunsOne(g2, Sender(Answer(Wait(0, 1), Ack)), silence);
    RunsThen(g1, SendOne(a), [Sender(Answer(Wait(0, 1), Ack))], silence);
    RunsThen(g, [Sender(NewLink)], SendOne(a) + [Sender(Answer(Wait(0, 1), Ack))], silence);
  }

  lemma {:induction false} FallsSilent(g: Ledger<int>, a: int, silence: nat) returns (g4: Ledger<int>)
    requires var l := g.books.line;
             l.hand.None? && l.wire == map[1 := a] && l.waits == {Wait(0, 1)} && l.late == multiset{} && l.heardAt <= l.now
    ensures Can(g.books, Sender(Heard(Wait(0, 1))), silence)
    ensures var g2 := Write(g, Sender(Heard(Wait(0, 1))), silence);
            var g3 := Write(g2, Sender(Pass(silence)), silence);
            Can(g2.books, Sender(Pass(silence)), silence) && Can(g3.books, Sender(Silence([1])), silence)
            && g4 == Write(g3, Sender(Silence([1])), silence)
    ensures var l := g4.books.line;
            && l.queued == g.books.line.queued && l.hand.None? && l.wire == map[] && l.waits == {} && l.late == multiset{Wait(0, 1)}
            && l.link == g.books.line.link && g4.started == g.started && g4.took == g.took + [LineReply(a, Refused(Timeout))]
  {
    var g2 := Write(g, Sender(Heard(Wait(0, 1))), silence);
    var g3 := Write(g2, Sender(Pass(silence)), silence);
    assert g3.books.line.wire == map[1 := a] && g3.books.line.wire.Keys == {1};
    assert forall n :: n in [1] <==> n in g3.books.line.wire.Keys;
    g4 := Write(g3, Sender(Silence([1])), silence);
  }

  lemma {:induction false} SilentThen(g: Ledger<int>, g4: Ledger<int>, rest: seq<LineEvent<int>>, silence: nat)
    requires Can(g.books, Sender(Heard(Wait(0, 1))), silence)
    requires var g2 := Write(g, Sender(Heard(Wait(0, 1))), silence);
             var g3 := Write(g2, Sender(Pass(silence)), silence);
             Can(g3.books, Sender(Silence([1])), silence) && g4 == Write(g3, Sender(Silence([1])), silence)
    requires Runs(g4, rest, silence)
    ensures var events := [Sender(Heard(Wait(0, 1)))] + ([Sender(Pass(silence))] + ([Sender(Silence([1]))] + rest));
            Runs(g, events, silence) && EndOf(g, events, silence) == EndOf(g4, rest, silence)
  {
    var g2 := Write(g, Sender(Heard(Wait(0, 1))), silence);
    var g3 := Write(g2, Sender(Pass(silence)), silence);
    RunsOne(g, Sender(Heard(Wait(0, 1))), silence);
    RunsOne(g2, Sender(Pass(silence)), silence);
    RunsOne(g3, Sender(Silence([1])), silence);
    RunsThen(g3, [Sender(Silence([1]))], rest, silence);
    RunsThen(g2, [Sender(Pass(silence))], [Sender(Silence([1]))] + rest, silence);
    RunsThen(g, [Sender(Heard(Wait(0, 1)))], [Sender(Pass(silence))] + ([Sender(Silence([1]))] + rest), silence);
  }
}
