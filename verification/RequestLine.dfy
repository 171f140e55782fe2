/** The send queue and its sender as the repository keeps them: fields updated in place, one method per step between two
    awaits. Every method does exactly what the function of the same name in `Lines` says. */
module RequestLines {
  import opened Wrappers
  import opened Lines

  class RequestLine<A(==, !new)> {
    var queued: seq<A>
    var hand: Option<A>
    var link: nat
    var wire: map<nat, A>
    var waits: set<Wait>
    var late: multiset<Wait>
    var heardAt: nat
    var now: nat
    var replies: seq<LineReply<A>>
    ghost var lost: multiset<A>

    ghost function View(): Line<A>
      reads this
    {
      Line(queued, hand, link, wire, waits, late, heardAt, now, replies, lost)
    }

    constructor ()
      ensures View() == Fresh()
    {
      queued, hand, link, wire, waits, late := [], None, 0, map[], {}, multiset{};
      heardAt, now, replies, lost := 0, 0, [], multiset{};
    }

    method PushBack(action: A)
      modifies this`queued
      ensures View() == Lines.PushBack(old(View()), action)
    {
      queued := queued + [action];
    }

    method PushFront(action: A)
      modifies this`queued
      ensures View() == Lines.PushFront(old(View()), action)
    {
      queued := [action] + queued;
    }

    /** Takes out every copy that still waits; says whether there was one. */
    method Withdraw(action: A) returns (found: bool)
      modifies this`queued
      ensures View() == Lines.Withdraw(old(View()), {action})
      ensures found == (action in old(queued))
    {
      var kept: seq<A> := [];
      var i := 0;
      while i < |queued|
        invariant 0 <= i <= |queued| && queued == old(queued)
        invariant kept + Without(queued[i..], {action}) == Without(queued, {action})
        invariant |kept| <= i && (|kept| == i <==> action !in queued[..i])
      {
        assert queued[..i + 1] == queued[..i] + [queued[i]];
        assert queued[i..][1..] == queued[i + 1..];
        if queued[i] != action {
          assert kept + ([queued[i]] + Without(queued[i + 1..], {action})) == (kept + [queued[i]]) + Without(queued[i + 1..], {action});
          kept := kept + [queued[i]];
        }
        i := i + 1;
      }
      assert queued[..i] == queued && kept + [] == kept;
      found := |kept| != |queued|;
      queued := kept;
    }

    method TakeReply() returns (reply: LineReply<A>)
      requires replies != []
      modifies this`replies
      ensures reply == old(replies)[0] && View() == Lines.TakeReply(old(View()))
    {
      reply := replies[0];
      replies := replies[1..];
    }

    // ---- the sender ----

    method TakeNext(ghost silence: nat) returns (taken: bool)
      requires hand.None?
      modifies this`queued, this`hand
      ensures taken == (old(queued) != [])
      ensures if taken then Enabled(old(View()), Take, silence) && View() == Apply(old(View()), Take, silence)
              else View() == old(View())
    {
      taken := queued != [];
      if taken {
        hand := Some(queued[0]);
        queued := queued[1..];
      }
    }

    /** No line is open, or the link refuses the number: the request goes back to the front. */
    method PutBack(ghost silence: nat)
      requires hand.Some?
      modifies this`queued, this`hand
      ensures Enabled(old(View()), NoLink, silence) && View() == Apply(old(View()), NoLink, silence)
    {
      queued := [hand.value] + queued;
      hand := None;
    }

    method UseNewLink(ghost silence: nat)
      modifies this`link
      ensures Enabled(old(View()), NewLink, silence) && View() == Apply(old(View()), NewLink, silence)
    {
      link := link + 1;
    }

    /** The request goes out under `number` and onto the wire table, unless the link still waits for that number. */
    method SendInHand(number: nat, ghost silence: nat)
      requires hand.Some?
      modifies this`queued, this`hand, this`lost, this`heardAt, this`wire, this`waits
      ensures Enabled(old(View()), Send(number), silence) && View() == Apply(old(View()), Send(number), silence)
    {
      if Wait(link, number) in waits {
        PutBack(silence);
      } else {
        lost := lost + if number in wire then multiset{wire[number]} else multiset{};
        if wire == map[] { heardAt := now; }
        wire, waits, hand := wire[number := hand.value], waits + {Wait(link, number)}, None;
      }
    }

    method SendFails(error: Error, ghost silence: nat)
      requires hand.Some?
      modifies this`hand, this`replies
      ensures Enabled(old(View()), SendError(error), silence) && View() == Apply(old(View()), SendError(error), silence)
      ensures replies == old(replies) + [LineReply(old(hand).value, Refused(error))]
    {
      replies := replies + [LineReply(hand.value, Refused(error))];
      hand := None;
    }

    /** The link has an answer: nothing stops its reply task now. */
    method AnswerComes(wait: Wait, ghost silence: nat)
      requires wait in waits
      modifies this`waits, this`late
      ensures Enabled(old(View()), Heard(wait), silence) && View() == Apply(old(View()), Heard(wait), silence)
    {
      waits := waits - {wait};
      late := late + multiset{wait};
    }

    method TakeOff(number: nat, result: LineResult)
      requires number in wire
      modifies this`replies, this`wire
      ensures replies == old(replies) + [LineReply(old(wire)[number], result)] && wire == old(wire) - {number}
    {
      replies := replies + [LineReply(wire[number], result)];
      wire := wire - {number};
    }

    /** A reply task ends: whoever takes the request off the table first answers for it. */
    method AnswerArrives(wait: Wait, result: LineResult, ghost silence: nat)
      requires wait in late
      modifies this`heardAt, this`late, this`replies, this`wire
      ensures Enabled(old(View()), Answer(wait, result), silence) && View() == Apply(old(View()), Answer(wait, result), silence)
      ensures replies == old(replies) + if wait.number in old(wire) then [LineReply(old(wire)[wait.number], result)] else []
      ensures wire == old(wire) - {wait.number}
    {
      heardAt := now;
      late := late - multiset{wait};
      if wait.number in wire { TakeOff(wait.number, result); }
    }

    /** Everything on the wire times out once the line was silent for a whole window, in whatever order the table is
        drained; otherwise nothing happens. */
    method TimeOutIfSilent(silence: nat) returns (silent: bool, ghost order: seq<nat>)
      requires hand.None? && heardAt <= now
      modifies this`wire, this`waits, this`replies
      ensures silent == (old(wire) != map[] && now - heardAt >= silence)
      ensures if silent then Enabled(old(View()), Silence(order), silence) && View() == Apply(old(View()), Silence(order), silence)
              else View() == old(View())
      ensures silent ==> wire == map[] && old(replies) <= replies
      ensures silent ==>
                forall number :: number in old(wire) ==> LineReply(old(wire)[number], Refused(Timeout)) in replies[|old(replies)|..]
    {
      order := [];
      silent := wire != map[] && now - heardAt >= silence;
      if silent {
        var drained;
        drained, order := Drain(wire);
        DrainedAll(wire, order);
        wire := map[];
        waits := {};
        replies := replies + drained;
      }
    }

    method TimePasses(time: nat, ghost silence: nat)
      modifies this`now
      ensures Enabled(old(View()), Pass(time), silence) && View() == Apply(old(View()), Pass(time), silence)
    {
      now := now + time;
    }

    // ---- the sender's loop ----

    method PushAll(actions: seq<A>)
      modifies this`queued
      ensures Accounts(old(View()), View(), multiset(actions))
    {
      ghost var was := queued;
      queued := queued + actions;
      assert multiset(was + actions) == multiset(was) + multiset(actions);
    }

    /** An answer comes, or a reply task that has one ends. */
    method HearOrAnswer(wait: Wait, ends: Option<LineResult>, ghost silence: nat)
      requires heardAt <= now
      modifies this
      ensures heardAt <= now == old(now) && hand == old(hand)
      ensures Accounts(old(View()), View(), multiset{})
    {
      if ends.None? {
        if wait in waits {
          AnswerComes(wait, silence);
          SenderAccounts(old(View()), Heard(wait), silence);
        }
      } else if wait in late {
        AnswerArrives(wait, ends.value, silence);
        SenderAccounts(old(View()), Answer(wait, ends.value), silence);
      }
    }

    /** What the others do while the sender waits: the owner pushes, links answer, reply tasks end, time goes by. */
    method Meanwhile(round: Round<A>, ghost silence: nat)
      requires heardAt <= now
      modifies this
      ensures heardAt <= now && hand == old(hand)
      ensures Accounts(old(View()), View(), multiset(round.pushed))
    {
      PushAll(round.pushed);
      var i := 0;
      while i < |round.answers|
        invariant heardAt <= now && hand == old(hand)
        invariant Accounts(old(View()), View(), multiset(round.pushed))
      {
        ghost var was := View();
        HearOrAnswer(round.answers[i].0, round.answers[i].1, silence);
        AccountsTwice(old(View()), was, View(), multiset(round.pushed), multiset{});
        assert multiset(round.pushed) + multiset{} == multiset(round.pushed);
        i := i + 1;
      }
      now := now + round.time;
    }

    /** What a turn did with the front request, `rest` being queued behind it and `waited` the reply tasks there were: nothing without
        an open line, an error if the link could not send, otherwise out it went under the number the link handed out, unless that
        very link still waited for the number. */
    ghost predicate SendsFront(front: A, rest: seq<A>, waited: set<Wait>, round: Round<A>)
      reads this
    {
      if !round.linkOpen then queued == [front] + rest
      else if round.error.Some? then
        queued == rest && replies != [] && replies[|replies| - 1] == LineReply(front, Refused(round.error.value))
      else if Wait(link, round.number) in waited then queued == [front] + rest
      else
        && queued == rest && round.number in wire && wire[round.number] == front
        && waits == waited + {Wait(link, round.number)}
    }

    /** One turn of the sender: what is overdue times out, the front request is sent, refused or put back. Nothing is lost but
        what a reused number pushes off the table. */
    method Turn(round: Round<A>, silence: nat)
      requires hand.None? && heardAt <= now
      modifies this
      ensures hand.None? && heardAt <= now
      ensures link == old(link) + if old(queued) != [] && round.newLink then 1 else 0
      ensures var silent := old(wire) != map[] && old(now) - old(heardAt) >= silence;
              if old(queued) == [] then queued == []
              else SendsFront(old(queued)[0], old(queued)[1..], if silent then {} else old(waits), round)
      ensures Accounts(old(View()), View(), multiset{})
    {
      ghost var was := View();
      var silent, order := TimeOutIfSilent(silence);
      if silent { SenderAccounts(was, Silence(order), silence); }
      assert Accounts(was, View(), multiset{});
      ghost var quiet := View();
      SendNext(round, silence);
      AccountsTwice(was, quiet, View(), multiset{}, multiset{});
    }

    method SendNext(round: Round<A>, ghost silence: nat)
      requires hand.None? && heardAt <= now
      modifies this
      ensures hand.None? && heardAt <= now
      ensures link == old(link) + if old(queued) != [] && round.newLink then 1 else 0
      ensures if old(queued) == [] then queued == [] else SendsFront(old(queued)[0], old(queued)[1..], old(waits), round)
      ensures Accounts(old(View()), View(), multiset{})
    {
      var taken := TakeNext(silence);
      if taken {
        SenderAccounts(old(View()), Take, silence);
        ghost var took := View();
        if round.newLink { UseNewLink(silence); }
        ghost var held := View();
        assert Accounts(took, held, multiset{});
        SendHeld(round, silence);
        AccountsTwice(took, held, View(), multiset{}, multiset{});
        AccountsTwice(old(View()), took, View(), multiset{}, multiset{});
      }
    }

    method SendHeld(round: Round<A>, ghost silence: nat)
      requires hand.Some? && heardAt <= now
      modifies this
      ensures hand.None? && heardAt <= now && link == old(link)
      ensures SendsFront(old(hand).value, old(queued), old(waits), round)
      ensures Accounts(old(View()), View(), multiset{})
    {
      if !round.linkOpen {
        PutBack(silence);
        SenderAccounts(old(View()), NoLink, silence);
      } else if round.error.Some? {
        SendFails(round.error.value, silence);
        SenderAccounts(old(View()), SendError(round.error.value), silence);
      } else {
        SendInHand(round.number, silence);
        SenderAccounts(old(View()), Send(round.number), silence);
      }
    }

    method TurnAndWait(round: Round<A>, silence: nat)
      requires hand.None? && heardAt <= now
      modifies this
      ensures hand.None? && heardAt <= now
      ensures Accounts(old(View()), View(), multiset(round.pushed))
    {
      Turn(round, silence);
      ghost var turned := View();
      Meanwhile(round, silence);
      AccountsTwice(old(View()), turned, View(), multiset{}, multiset(round.pushed));
      assert multiset{} + multiset(round.pushed) == multiset(round.pushed);
    }

    /** The endless loop, as long as it is looked at: over any number of turns, with anything happening in between, every request
        pushed is still queued, in hand, on the wire or answered, or was pushed off the table by a reused number. */
    method SendQueued(rounds: seq<Round<A>>, silence: nat)
      requires hand.None? && heardAt <= now
      modifies this
      ensures hand.None? && heardAt <= now
      ensures Accounts(old(View()), View(), AllPushed(rounds))
    {
      ghost var pushed := multiset{};
      var rest := rounds;
      while rest != []
        invariant hand.None? && heardAt <= now && pushed + AllPushed(rest) == AllPushed(rounds)
        invariant Accounts(old(View()), View(), pushed)
        decreases |rest|
      {
        ghost var was := View();
        TurnAndWait(rest[0], silence);
        AccountsTwice(old(View()), was, View(), pushed, multiset(rest[0].pushed));
        assert pushed + (multiset(rest[0].pushed) + AllPushed(rest[1..])) == pushed + multiset(rest[0].pushed) + AllPushed(rest[1..]);
        pushed := pushed + multiset(rest[0].pushed);
        rest := rest[1..];
      }
      assert pushed + multiset{} == pushed;
    }
  }

  /** One turn of the sender as the world answers it: whether a line is open, whether it is a new one, the number it hands out
      or why it cannot send; and what happens until the next turn. */
  datatype Round<A> = Round(linkOpen: bool, newLink: bool, number: nat, error: Option<Error>,
                            pushed: seq<A>, answers: seq<(Wait, Option<LineResult>)>, time: nat)

  function AllPushed<A>(rounds: seq<Round<A>>): multiset<A> {
    if rounds == [] then multiset{} else multiset(rounds[0].pushed) + AllPushed(rounds[1..])
  }

  /** Empties a wire table, in whatever order it gives its entries: a timeout for each. */
  method Drain<A(!new)>(wire: map<nat, A>) returns (drained: seq<LineReply<A>>, ghost order: seq<nat>)
    ensures Lists(order, wire.Keys) && drained == TimedOut(wire, order)
  {
    var todo := wire.Keys;
    ghost var gone: set<nat> := {};
    drained, order := [], [];
    while todo != {}
      invariant gone <= wire.Keys && todo == wire.Keys - gone && Lists(order, gone)
      invariant drained == TimedOut(wire, order)
      decreases |todo|
    {
      var number :| number in todo;
      TimedOutAppend(wire, order, number);
      ListsMore(order, gone, number);
      drained := drained + [LineReply(wire[number], Refused(Timeout))];
      order := order + [number];
      gone, todo := gone + {number}, todo - {number};
    }
    assert gone == wire.Keys;
  }

  /** Draining one more number from the table. */
  lemma {:induction false} TimedOutAppend<A>(wire: map<nat, A>, order: seq<nat>, number: nat)
    requires number in wire && number !in order && (forall k :: k in order ==> k in wire)
    requires forall i, j :: 0 <= i < j < |order| ==> order[i] != order[j]
    ensures TimedOut(wire, order + [number]) == TimedOut(wire, order) + [LineReply(wire[number], Refused(Timeout))]
    decreases |order|
  {
    if order == [] {
      assert [] + [number] == [number] && [number][1..] == [];
    } else {
      assert (order + [number])[0] == order[0] && (order + [number])[1..] == order[1..] + [number];
      TimedOutAppend(wire - {order[0]}, order[1..], number);
    }
  }

  /** Every request of the table is among those drained. */
  lemma DrainedAll<A>(wire: map<nat, A>, order: seq<nat>)
    requires Lists(order, wire.Keys)
    ensures forall number :: number in wire ==> LineReply(wire[number], Refused(Timeout)) in TimedOut(wire, order)
  {
    TimedOutAll(wire, order);
    forall number | number in wire ensures LineReply(wire[number], Refused(Timeout)) in TimedOut(wire, order) {
      assert number in order;
      var i :| 0 <= i < |order| && order[i] == number;
      assert TimedOut(wire, order)[i] == LineReply(wire[number], Refused(Timeout));
    }
  }
}
