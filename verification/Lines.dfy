/** One line's send queue and sender (link_requests.rs): requests wait in `queued`, one at a time is in the sender's
    hand, sent ones stay on the wire table until a reply task or a silence timeout takes them out.
    The functions are the atomic steps; the class `RequestLine` performs them in place. */
module Lines {
  import opened Wrappers
  import Tally

  datatype LineResult = Ack | Refused(error: Error)
  datatype LineReply<A> = LineReply(action: A, result: LineResult)

  /** A reply task: it waits on one link for one number. */
  datatype Wait = Wait(link: nat, number: nat)

  /** `wire` is keyed by the number alone, while numbers are unique only per link. A reply task is in `waits` until its link has
      its answer, and then in `late` until it gets the lock: no abort stops it any more. `lost` records what a reused number
      pushed off the table. */
  datatype Line<A> = Line(
    queued: seq<A>,
    hand: Option<A>,
    link: nat,
    wire: map<nat, A>,
    waits: set<Wait>,
    late: multiset<Wait>,
    heardAt: nat,
    now: nat,
    replies: seq<LineReply<A>>,
    lost: multiset<A>)

  function Fresh<A>(): Line<A> { Line([], None, 0, map[], {}, multiset{}, 0, 0, [], multiset{}) }

  // ---- the owner's side ----

  function PushBack<A>(l: Line<A>, a: A): Line<A> { l.(queued := l.queued + [a]) }

  function PushFront<A>(l: Line<A>, a: A): Line<A> { l.(queued := [a] + l.queued) }

  /** The queue without the listed requests. */
  function Without<A(==)>(queued: seq<A>, out: set<A>): seq<A> {
    if queued == [] then []
    else if queued[0] in out then Without(queued[1..], out)
    else [queued[0]] + Without(queued[1..], out)
  }

  function Withdraw<A(==)>(l: Line<A>, out: set<A>): Line<A> { l.(queued := Without(l.queued, out)) }

  function TakeReply<A>(l: Line<A>): Line<A>
    requires l.replies != []
  {
    l.(replies := l.replies[1..])
  }

  // ---- the sender's side ----

  datatype SenderStep =
    | Take                                          // pop the front of the queue
    | NoLink                                        // no open line: put it back
    | NewLink                                       // the pool has another line now
    | Send(number: nat)                             // the link hands out this number
    | SendError(error: Error)                       // the link could not send
    | Heard(wait: Wait)                             // the link has an answer: its number is free, its reply task goes on
    | Answer(wait: Wait, result: LineResult)        // a reply task gets the lock and ends
    | Silence(order: seq<nat>)                      // nothing heard for a whole window
    | Pass(time: nat)                               // time goes by

  ghost predicate Enabled<A>(l: Line<A>, step: SenderStep, silence: nat) {
    match step
    case Take => l.hand.None? && l.queued != []
    case NoLink => l.hand.Some?
    case NewLink => true
    case Send(_) => l.hand.Some?
    case SendError(_) => l.hand.Some?
    case Heard(wait) => wait in l.waits
    case Answer(wait, _) => wait in l.late
    case Silence(order) =>
      l.hand.None? && l.wire != map[] && l.now - l.heardAt >= silence && Lists(order, l.wire.Keys)
    case Pass(_) => true
  }

  /** The sequence gives every key once. */
  ghost predicate Lists<K(!new)>(order: seq<K>, keys: set<K>) {
    && (forall k :: k in order <==> k in keys)
    && (forall i, j :: 0 <= i < j < |order| ==> order[i] != order[j])
  }

  lemma {:induction false} ListsMore<K(!new)>(order: seq<K>, keys: set<K>, k: K)
    requires Lists(order, keys) && k !in keys
    ensures Lists(order + [k], keys + {k})
  {
  }

  /** Draining the wire table in the given order: every request comes back as a timeout. */
  function TimedOut<A>(wire: map<nat, A>, order: seq<nat>): seq<LineReply<A>>
    decreases |order|
  {
    if order == [] || order[0] !in wire then []
    else [LineReply(wire[order[0]], Refused(Timeout))] + TimedOut(wire - {order[0]}, order[1..])
  }

  /** The number is waited for on this very link: the link refuses, the request goes back. */
  predicate Collides<A>(l: Line<A>, number: nat) { Wait(l.link, number) in l.waits }

  /** The request a `Send` pushes off the wire table, if any: an earlier one under the same number. */
  function Overwritten<A>(l: Line<A>, step: SenderStep): multiset<A> {
    if step.Send? && l.hand.Some? && !Collides(l, step.number) && step.number in l.wire
    then multiset{l.wire[step.number]} else multiset{}
  }

  function Apply<A>(l: Line<A>, step: SenderStep, silence: nat): Line<A>
    requires Enabled(l, step, silence)
  {
    match step
    case Take => l.(hand := Some(l.queued[0]), queued := l.queued[1..])
    case NoLink => l.(hand := None, queued := [l.hand.value] + l.queued)
    case NewLink => l.(link := l.link + 1)
    case Send(number) =>
      if Collides(l, number) then l.(hand := None, queued := [l.hand.value] + l.queued)
      else l.(hand := None,
              heardAt := if l.wire == map[] then l.now else l.heardAt,
              wire := l.wire[number := l.hand.value],
              waits := l.waits + {Wait(l.link, number)},
              lost := l.lost + Overwritten(l, step))
    case SendError(error) =>
      l.(hand := None, replies := l.replies + [LineReply(l.hand.value, Refused(error))])
    case Heard(wait) => l.(waits := l.waits - {wait}, late := l.late + multiset{wait})
    case Answer(wait, result) =>
      var heard := l.(heardAt := l.now, late := l.late - multiset{wait});
      if wait.number in l.wire
      then heard.(wire := l.wire - {wait.number}, replies := l.replies + [LineReply(l.wire[wait.number], result)])
      else heard
    case Silence(order) =>
      l.(wire := map[], waits := {}, replies := l.replies + TimedOut(l.wire, order))
    case Pass(time) => l.(now := l.now + time)
  }

  // ---- where a request can be ----

  ghost function Held<A>(hand: Option<A>): multiset<A> { if hand.Some? then multiset{hand.value} else multiset{} }

  function Singles<A>(wire: map<nat, A>): map<nat, multiset<A>> {
    map k | k in wire :: multiset{wire[k]}
  }

  ghost function OnWire<A>(wire: map<nat, A>): multiset<A> { Tally.Sum(Singles(wire)) }

  ghost function Replied<A>(replies: seq<LineReply<A>>): multiset<A> {
    if replies == [] then multiset{} else multiset{replies[0].action} + Replied(replies[1..])
  }

  /** How many copies of a request the line still has: waiting, in the sender's hand, on the wire, or answered and
      not yet taken. */
  ghost function Copies<A>(l: Line<A>, a: A): nat {
    multiset(l.queued)[a] + Held(l.hand)[a] + OnWire(l.wire)[a] + Replied(l.replies)[a]
  }

  lemma {:induction false} RepliedAppend<A>(a: seq<LineReply<A>>, b: seq<LineReply<A>>)
    ensures Replied(a + b) == Replied(a) + Replied(b)
  {
    if a == [] {
      assert a + b == b;
    } else {
      assert (a + b)[0] == a[0] && (a + b)[1..] == a[1..] + b;
      RepliedAppend(a[1..], b);
    }
  }

  lemma RepliedPush<A>(replies: seq<LineReply<A>>, reply: LineReply<A>)
    ensures Replied(replies + [reply]) == Replied(replies) + multiset{reply.action}
  {
    RepliedAppend(replies, [reply]);
    assert Replied([reply]) == multiset{reply.action};
  }

  lemma OnWirePut<A>(wire: map<nat, A>, number: nat, a: A)
    ensures number !in wire ==> OnWire(wire[number := a]) == OnWire(wire) + multiset{a}
    ensures number in wire ==> OnWire(wire[number := a]) + multiset{wire[number]} == OnWire(wire) + multiset{a}
  {
    SinglesPut(wire, number, a);
    Tally.SumUpdate(Singles(wire), number, multiset{a});
  }

  lemma SinglesPut<A>(wire: map<nat, A>, number: nat, a: A)
    ensures Singles(wire[number := a]) == Singles(wire)[number := multiset{a}]
  {
  }

  lemma OnWireDrop<A>(wire: map<nat, A>, number: nat)
    requires number in wire
    ensures OnWire(wire) == OnWire(wire - {number}) + multiset{wire[number]}
  {
    SinglesDrop(wire, number);
    Tally.SumRemove(Singles(wire), number);
  }

  lemma SinglesDrop<A>(wire: map<nat, A>, number: nat)
    ensures Singles(wire - {number}) == Singles(wire) - {number}
  {
  }

  lemma ListsRest(order: seq<nat>, keys: set<nat>)
    requires Lists(order, keys) && order != []
    ensures order[0] in keys && Lists(order[1..], keys - {order[0]})
  {
    forall k ensures k in order[1..] <==> k in keys - {order[0]} {
      assert order == [order[0]] + order[1..];
    }
  }

  /** A silence timeout answers everything on the wire, each once. */
  lemma {:induction false} TimedOutIsWire<A>(wire: map<nat, A>, order: seq<nat>)
    requires Lists(order, wire.Keys)
    ensures Replied(TimedOut(wire, order)) == OnWire(wire)
    decreases |order|
  {
    if order == [] {
      assert wire.Keys == {};
      assert Singles(wire) == map[];
    } else {
      var rest := wire - {order[0]};
      assert rest.Keys == wire.Keys - {order[0]};
      ListsRest(order, wire.Keys);
      TimedOutIsWire(rest, order[1..]);
      OnWireDrop(wire, order[0]);
      RepliedAppend([LineReply(wire[order[0]], Refused(Timeout))], TimedOut(rest, order[1..]));
    }
  }

  /** Draining gives a timeout for each number listed, in that order. */
  lemma {:induction false} TimedOutAll<A>(wire: map<nat, A>, order: seq<nat>)
    requires Lists(order, wire.Keys)
    ensures |TimedOut(wire, order)| == |order|
    ensures forall i :: 0 <= i < |order| ==> TimedOut(wire, order)[i] == LineReply(wire[order[i]], Refused(Timeout))
    decreases |order|
  {
    if order != [] {
      ListsRest(order, wire.Keys);
      var rest := wire - {order[0]};
      assert rest.Keys == wire.Keys - {order[0]};
      TimedOutAll(rest, order[1..]);
      forall i | 0 < i < |order| ensures TimedOut(wire, order)[i] == LineReply(wire[order[i]], Refused(Timeout)) {
        assert order[1..][i - 1] == order[i] && order[i] in rest;
      }
    }
  }

  lemma {:induction false} WithoutCounts<A>(queued: seq<A>, out: set<A>, a: A)
    ensures multiset(Without(queued, out))[a] == if a in out then 0 else multiset(queued)[a]
  {
    if queued != [] {
      WithoutCounts(queued[1..], out, a);
      assert queued == [queued[0]] + queued[1..];
      var rest := Without(queued[1..], out);
      if queued[0] !in out {
        assert multiset([queued[0]] + rest) == multiset{queued[0]} + multiset(rest);
      }
    }
  }

  /** A step of the sender moves copies about and loses only what a reused number overwrites. */
  lemma {:induction false} SenderKeepsCopies<A>(l: Line<A>, step: SenderStep, silence: nat, a: A)
    requires Enabled(l, step, silence)
    ensures Copies(Apply(l, step, silence), a) + Overwritten(l, step)[a] == Copies(l, a)
    ensures Apply(l, step, silence).lost == l.lost + Overwritten(l, step)
  {
    match step
    case Take => TakeKeepsCopies(l, silence, a);
    case NoLink => PutBackCounts(l.queued, l.hand.value);
    case NewLink =>
    case Heard(_) =>
    case Send(number) => SendKeepsCopies(l, number, silence, a);
    case SendError(error) => SendErrorKeepsCopies(l, error, silence, a);
    case Answer(wait, result) => AnswerKeepsCopies(l, wait, result, silence, a);
    case Silence(order) => SilenceKeepsCopies(l, order, a);
    case Pass(_) =>
  }

  /** The step pushes the last copy of the request off the wire table. */
  ghost predicate TakesLast<A>(l: Line<A>, step: SenderStep, a: A) { Copies(l, a) == 1 && Overwritten(l, step) == multiset{a} }

  /** A step of the sender leaves a request without a copy if and only if it had none or this takes the last one. */
  lemma {:induction false} GoneOnlyByReuse<A>(l: Line<A>, step: SenderStep, silence: nat, a: A)
    requires Enabled(l, step, silence)
    ensures Copies(Apply(l, step, silence), a) == 0 <==> Copies(l, a) == 0 || TakesLast(l, step, a)
  {
    SenderKeepsCopies(l, step, silence, a);
  }

  /** Every copy there was is still in the line or was pushed off the table, and `more` came in. */
  ghost predicate Accounts<A(!new)>(l: Line<A>, l2: Line<A>, more: multiset<A>) {
    forall a: A :: Copies(l2, a) + l2.lost[a] == Copies(l, a) + l.lost[a] + more[a]
  }

  lemma {:induction false} SenderAccounts<A(!new)>(l: Line<A>, step: SenderStep, silence: nat)
    requires Enabled(l, step, silence)
    ensures Accounts(l, Apply(l, step, silence), multiset{})
  {
    forall a: A { SenderKeepsCopies(l, step, silence, a); }
  }

  lemma AccountsTwice<A(!new)>(a: Line<A>, b: Line<A>, c: Line<A>, more: multiset<A>, evenMore: multiset<A>)
    requires Accounts(a, b, more) && Accounts(b, c, evenMore)
    ensures Accounts(a, c, more + evenMore)
  {
  }

  lemma {:induction false} TakeKeepsCopies<A>(l: Line<A>, silence: nat, a: A)
    requires l.hand.None? && l.queued != []
    ensures Copies(Apply(l, Take, silence), a) == Copies(l, a)
  {
    assert l.queued == [l.queued[0]] + l.queued[1..];
    PutBackCounts(l.queued[1..], l.queued[0]);
  }

  lemma {:induction false} SendErrorKeepsCopies<A>(l: Line<A>, error: Error, silence: nat, a: A)
    requires l.hand.Some?
    ensures Copies(Apply(l, SendError(error), silence), a) == Copies(l, a)
  {
    var reply := LineReply(l.hand.value, Refused(error));
    var next := Apply(l, SendError(error), silence);
    assert next.queued == l.queued && next.hand == None && next.wire == l.wire && next.replies == l.replies + [reply];
    RepliedPush(l.replies, reply);
  }

  lemma PutBackCounts<A>(queued: seq<A>, a: A)
    ensures multiset([a] + queued) == multiset{a} + multiset(queued)
  {
  }

  lemma {:induction false} SendKeepsCopies<A>(l: Line<A>, number: nat, silence: nat, a: A)
    requires l.hand.Some?
    ensures Copies(Apply(l, Send(number), silence), a) + Overwritten(l, Send(number))[a] == Copies(l, a)
  {
    var next := Apply(l, Send(number), silence);
    if Collides(l, number) {
      PutBackCounts(l.queued, l.hand.value);
    } else {
      assert next.wire == l.wire[number := l.hand.value] && next.queued == l.queued && next.replies == l.replies;
      OnWirePut(l.wire, number, l.hand.value);
      assert number in l.wire ==>
          (OnWire(next.wire) + multiset{l.wire[number]})[a] == (OnWire(l.wire) + multiset{l.hand.value})[a];
    }
  }

  lemma {:induction false} AnswerKeepsCopies<A>(l: Line<A>, wait: Wait, result: LineResult, silence: nat, a: A)
    requires wait in l.late
    ensures Copies(Apply(l, Answer(wait, result), silence), a) == Copies(l, a)
  {
    var next := Apply(l, Answer(wait, result), silence);
    if wait.number in l.wire {
      var reply := LineReply(l.wire[wait.number], result);
      assert next.queued == l.queued && next.hand == l.hand && next.wire == l.wire - {wait.number}
          && next.replies == l.replies + [reply];
      OnWireDrop(l.wire, wait.number);
      RepliedPush(l.replies, reply);
    }
  }

  lemma {:induction false} SilenceKeepsCopies<A>(l: Line<A>, order: seq<nat>, a: A)
    requires Lists(order, l.wire.Keys)
    ensures Copies(l.(wire := map[], waits := {}, replies := l.replies + TimedOut(l.wire, order)), a) == Copies(l, a)
  {
    var timedOut := TimedOut(l.wire, order);
    assert Replied(timedOut) == OnWire(l.wire) by { TimedOutIsWire(l.wire, order); }
    RepliedAppend(l.replies, timedOut);
    EmptyWire<A>();
  }

  lemma EmptyWire<A>()
    ensures OnWire<A>(map[]) == multiset{}
  {
    assert Singles<A>(map[]) == map[];
  }

  // ---- what the owner's moves do to the copies of a request ----

  lemma {:induction false} PushCounts<A>(l: Line<A>, r: A, a: A)
    ensures Copies(PushBack(l, r), a) == Copies(l, a) + multiset{r}[a]
    ensures Copies(PushFront(l, r), a) == Copies(l, a) + multiset{r}[a]
  {
    PutBackCounts(l.queued, r);
    assert multiset(l.queued + [r]) == multiset(l.queued) + multiset{r};
  }

  lemma {:induction false} WithdrawCounts<A>(l: Line<A>, out: set<A>, a: A)
    ensures Copies(Withdraw(l, out), a) + (multiset(l.queued) - multiset(Without(l.queued, out)))[a] == Copies(l, a)
    ensures a !in out ==> Copies(Withdraw(l, out), a) == Copies(l, a)
  {
    WithoutCounts(l.queued, out, a);
  }

  lemma {:induction false} DeliverCounts<A>(l: Line<A>, a: A)
    requires l.replies != []
    ensures Copies(TakeReply(l), a) + multiset{l.replies[0].action}[a] == Copies(l, a)
  {
  }
}
