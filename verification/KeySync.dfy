/** The to-device subscription that brings keys (key_sync.rs). The server keeps an item until the client destroys it; the
    client destroys only what it has stored; and whatever it did not get by a push it pulls from the head of the queue. */
module KeySync {
  import opened Lines

  datatype Item = Item(number: int)

  /** A message of the subscription not read yet. A bad one cannot be parsed; what it carried is still queued. */
  datatype Message = Push(gap: bool, items: seq<Item>) | CryptoState(gap: bool) | Bad | Acknowledged | Ended

  /** Everything that can happen, in any order. */
  datatype Happening =
    | ItemArrives(item: Item, pushed: bool)
    | StateTold
    | InboxOverflows
    | MessageBreaks(index: nat)
    | SubscriptionEnds
    | GapLookedAt
    | NextRound
    | Logout
    | Reopening

  lemma {:induction false} InWithout(queue: seq<Item>, out: set<Item>, x: Item)
    ensures x in Without(queue, out) <==> x in queue && x !in out
  {
    if queue != [] {
      InWithout(queue[1..], out, x);
      assert queue == [queue[0]] + queue[1..];
    }
  }

  class KeySyncTask {
    // the server's side
    var queue: seq<Item>
    var owedGap: bool
    // the subscription's inbox
    var inbox: seq<Message>
    var localGap: bool
    // the client
    var store: set<Item>
    var needsPull: bool
    var running: bool
    /** Every item the server ever took for this device. */
    ghost var arrived: set<Item>
    /** How often something failed: the line was gone, the store or the server refused, an answer was lost. */
    ghost var failures: nat

    /** The item is in a push still to be handled, or something says that the queue has to be pulled. */
    ghost predicate Covered(item: Item)
      reads this`needsPull, this`localGap, this`owedGap, this`inbox
    {
      needsPull || IsOnItsWay(item)
    }

    ghost predicate IsOnItsWay(item: Item)
      reads this`localGap, this`owedGap, this`inbox
    {
      || localGap || owedGap
      || exists i :: 0 <= i < |inbox| && Tells(inbox[i], item)
    }

    static ghost predicate Tells(m: Message, item: Item) {
      m.Bad? || m.Ended? || (m.CryptoState? && m.gap) || (m.Push? && (m.gap || item in m.items))
    }

    /** Nothing is lost: an item is queued until it is stored. */
    ghost predicate NothingLost()
      reads this`arrived, this`queue, this`store
    {
      forall item :: item in arrived ==> item in queue || item in store
    }

    /** While the subscription task runs, a queued item with no push still to be handled means a pull is due or will be. */
    ghost predicate Valid()
      reads this
    {
      NothingLost() && (running ==> forall item :: item in queue ==> Covered(item))
    }

    constructor ()
      ensures Valid() && !running && arrived == {} && queue == [] && store == {}
    {
      queue, owedGap, inbox, localGap, store, needsPull, running := [], false, [], false, {}, false, false;
      arrived, failures := {}, 0;
    }

    // ---- the server ----

    /** An item for this device: queued, and pushed if the server can; if not it owes a gap. */
    method Arrives(item: Item, pushed: bool)
      modifies this`queue, this`inbox, this`owedGap, this`arrived
      ensures queue == old(queue) + [item] && arrived == old(arrived) + {item}
      ensures old(NothingLost()) ==> NothingLost()
      ensures IsOnItsWay(item) && forall x :: old(IsOnItsWay(x)) ==> IsOnItsWay(x)
      ensures old(inbox) <= inbox
    {
      queue := queue + [item];
      arrived := arrived + {item};
      if pushed { Sends(Push(owedGap, [item])); } else { owedGap := true; }
    }

    /** The server says how many one-time keys are left; an owed gap is told with it. */
    method TellsState()
      modifies this`inbox, this`owedGap
      ensures forall x :: old(IsOnItsWay(x)) ==> IsOnItsWay(x)
    {
      Sends(CryptoState(owedGap));
    }

    method Sends(m: Message)
      requires (m.Push? || m.CryptoState?) && m.gap == owedGap
      modifies this`inbox, this`owedGap
      ensures !owedGap && inbox == old(inbox) + [m]
      ensures forall x :: old(IsOnItsWay(x)) || Tells(m, x) ==> IsOnItsWay(x)
    {
      inbox := inbox + [m];
      owedGap := false;
      assert inbox[|inbox| - 1] == m;
      assert forall i :: 0 <= i < |old(inbox)| ==> inbox[i] == old(inbox)[i];
    }

    /** The local inbox was full: the last message is dropped. */
    method Overflows()
      requires inbox != [] && !inbox[|inbox| - 1].Ended?
      modifies this`inbox, this`localGap
      ensures forall x :: IsOnItsWay(x)
    {
      inbox := inbox[..|inbox| - 1];
      localGap := true;
    }

    /** The message at `i` arrives broken. */
    method Breaks(i: nat)
      requires i < |inbox| && !inbox[i].Ended?
      modifies this`inbox
      ensures forall x :: IsOnItsWay(x)
    {
      inbox := inbox[i := Bad];
      assert Tells(inbox[i], Item(0));
      assert forall x :: Tells(inbox[i], x);
    }

    /** Another device took the subscription over, or the link died. */
    method Ends()
      modifies this`inbox
      ensures inbox == old(inbox) + [Ended] && forall x :: IsOnItsWay(x)
    {
      inbox := inbox + [Ended];
      ghost var last := inbox[|inbox| - 1];
      assert forall x :: Tells(last, x);
    }

    /** Any number of items while the client waits for an answer. */
    method Meanwhile()
      modifies this`queue, this`inbox, this`owedGap, this`arrived
      ensures old(queue) <= queue && old(arrived) <= arrived
      ensures old(NothingLost()) ==> NothingLost()
      ensures forall x :: old(IsOnItsWay(x)) ==> IsOnItsWay(x)
      ensures forall i :: |old(queue)| <= i < |queue| ==> IsOnItsWay(queue[i])
      ensures old(inbox) <= inbox
    {
      var more: nat := *;
      while more > 0
        invariant old(queue) <= queue && old(arrived) <= arrived
        invariant old(NothingLost()) ==> NothingLost()
        invariant forall x :: old(IsOnItsWay(x)) ==> IsOnItsWay(x)
        invariant forall i :: |old(queue)| <= i < |queue| ==> IsOnItsWay(queue[i])
        invariant old(inbox) <= inbox
      {
        var item: Item := *;
        var pushed: bool := *;
        Arrives(item, pushed);
        more := more - 1;
      }
    }

    // ---- the client ----

    /** Something fails, or not. */
    method Fails() returns (fails: bool)
      modifies this`failures
      ensures failures == old(failures) + if fails then 1 else 0
    {
      fails := *;
      if fails { failures := failures + 1; }
    }

    /** Stores the items, then destroys them on the server; either may fail, and the answer to the second may be lost. */
    method ImportItems(items: seq<Item>) returns (imported: bool)
      modifies this`queue, this`inbox, this`owedGap, this`arrived, this`store, this`failures
      ensures old(inbox) <= inbox
      ensures (imported <==> failures == old(failures)) && failures >= old(failures)
      ensures old(NothingLost()) ==> NothingLost()
      ensures old(store) <= store && old(arrived) <= arrived
      ensures forall x :: old(IsOnItsWay(x)) ==> IsOnItsWay(x)
      ensures forall x :: x in old(queue) && x !in queue ==> x in store
      ensures forall x :: x in queue && x !in old(queue) ==> IsOnItsWay(x)
      ensures imported ==> forall x :: x in items ==> x in store && (x in queue ==> IsOnItsWay(x))
    {
      var storeFails := Fails();
      if storeFails { return false; }
      store := store + set x | x in items;
      Meanwhile();
      var refused := Fails();
      if !refused { Destroy(items); }
      var answerLost := Fails();
      imported := !refused && !answerLost;
    }

    /** The server forgets what the client says it has stored. */
    method Destroy(items: seq<Item>)
      requires forall x :: x in items ==> x in store
      modifies this`queue
      ensures forall x :: x in queue <==> x in old(queue) && x !in items
    {
      var out := set x | x in items;
      forall x ensures x in Without(queue, out) <==> x in queue && x !in items { InWithout(queue, out, x); }
      queue := Without(queue, out);
    }

    /** Window after window from the head of the queue, until the server says there is no more or a window fails. Done, if and only
        if nothing failed: all that was queued when it began is stored, and what is queued now is on its way by a push or owed. */
    method Pull(maxWindows: nat) returns (done: bool)
      modifies this`queue, this`inbox, this`owedGap, this`arrived, this`store, this`failures
      ensures (done <==> failures == old(failures)) && failures >= old(failures) && old(inbox) <= inbox
      ensures old(NothingLost()) ==> NothingLost()
      ensures old(store) <= store && old(arrived) <= arrived
      ensures forall x :: old(IsOnItsWay(x)) ==> IsOnItsWay(x)
      ensures done ==> (forall x :: x in old(queue) ==> x in store) && (forall x :: x in queue ==> IsOnItsWay(x))
    {
      var lineGone := Fails();
      if lineGone { return false; }
      var windows := 0;
      while windows < maxWindows
        invariant failures == old(failures) && old(inbox) <= inbox
        invariant old(NothingLost()) ==> NothingLost()
        invariant old(store) <= store && old(arrived) <= arrived
        invariant forall x :: old(IsOnItsWay(x)) ==> IsOnItsWay(x)
        invariant forall x :: x in old(queue) ==> x in queue || x in store
      {
        var more, imported := OneWindow();
        if !imported { return false; }
        if !more { return true; }
        windows := windows + 1;
      }
      failures := failures + 1;
      done := false;
    }

    method OneWindow() returns (more: bool, imported: bool)
      modifies this`queue, this`inbox, this`owedGap, this`arrived, this`store, this`failures
      ensures old(NothingLost()) ==> NothingLost()
      ensures old(store) <= store && old(arrived) <= arrived
      ensures (imported <==> failures == old(failures)) && failures >= old(failures) && old(inbox) <= inbox
      ensures forall x :: old(IsOnItsWay(x)) ==> IsOnItsWay(x)
      ensures forall x :: x in old(queue) ==> x in queue || x in store
      ensures imported && !more ==> (forall x :: x in old(queue) ==> x in store) && (forall x :: x in queue ==> IsOnItsWay(x))
    {
      var n: nat :| n <= |queue| && (n == 0 ==> |queue| == 0);
      var window := queue[..n];
      more := n < |queue|;
      ghost var all := queue;
      imported := ImportItems(window);
      assert !more ==> window == all;
    }

    /** The local inbox dropped something since the last look. */
    method TakeGap()
      requires Valid()
      modifies this`needsPull, this`localGap
      ensures Valid() && !localGap && (needsPull <==> old(needsPull) || old(localGap))
    {
      if localGap { needsPull := true; }
      localGap := false;
    }

    /** The next message, or none for a while. The subscription ends only with its message; what was queued is pulled, if that was due,
        unless something fails. */
    method Round(maxWindows: nat)
      requires Valid() && running
      modifies this
      ensures Valid() && old(store) <= store && old(arrived) <= arrived
      ensures old(inbox) != [] && old(inbox)[0].Ended? <==> !running
      ensures running && !needsPull && old(needsPull) ==> forall x :: x in old(queue) ==> x in store
      ensures failures >= old(failures) && (running && needsPull ==> failures > old(failures))
      ensures old(inbox) != [] ==> old(inbox)[1..] <= inbox
      ensures old(inbox) != [] && old(inbox)[0].Push? && !old(inbox)[0].gap && failures == old(failures) ==>
                forall x :: x in old(inbox)[0].items ==> x in store
    {
      var ended := false;
      ghost var q0 := queue;
      if inbox != [] { ended := HandleMessage(); }
      if ended {
        running := false;
        return;
      }
      if needsPull {
        var done := Pull(maxWindows);
        needsPull := !done;
      }
    }

    /** One message; true if the subscription is over. */
    method HandleMessage() returns (ended: bool)
      requires Valid() && running && inbox != []
      modifies this`queue, this`inbox, this`owedGap, this`arrived, this`store, this`needsPull, this`failures
      ensures NothingLost() && old(store) <= store && old(arrived) <= arrived && failures >= old(failures)
      ensures needsPull <==> old(needsPull) || AsksForPull(old(inbox)[0]) || failures > old(failures)
      ensures old(inbox)[0].Push? && !old(inbox)[0].gap && failures == old(failures) ==> forall x :: x in old(inbox)[0].items ==> x in store
      ensures old(inbox)[1..] <= inbox
      ensures ended == old(inbox)[0].Ended?
      ensures !ended ==> Valid()
      ensures forall x :: x in old(queue) ==> x in queue || x in store
    {
      var m := inbox[0];
      inbox := inbox[1..];
      ended := m.Ended?;
      StillTold(old(inbox), m);
      match m
      case Push(gap, items) =>
        if gap {
          needsPull := true;
        } else {
          var lineGone := Fails();
          var imported := false;
          if !lineGone { imported := ImportItems(items); }
          if !imported { needsPull := true; }
        }
      case CryptoState(gap) => if gap { needsPull := true; }
      case Bad => needsPull := true;
      case Acknowledged =>
      case Ended =>
    }

    /** The message itself says that the queue has to be pulled. */
    static predicate AsksForPull(m: Message) { m.Bad? || (m.Push? && m.gap) || (m.CryptoState? && m.gap) }

    /** With the first message gone, what another one tells is still told. */
    lemma StillTold(was: seq<Message>, first: Message)
      requires was == [first] + inbox
      ensures forall x :: (exists i :: 0 <= i < |was| && Tells(was[i], x)) ==> Tells(first, x) || exists i :: 0 <= i < |inbox| && Tells(inbox[i], x)
    {
      forall x | exists i :: 0 <= i < |was| && Tells(was[i], x)
        ensures Tells(first, x) || exists i :: 0 <= i < |inbox| && Tells(inbox[i], x)
      {
        var i :| 0 <= i < |was| && Tells(was[i], x);
        if i > 0 { assert Tells(inbox[i - 1], x); }
      }
    }

    /** Logged out: the subscription task stops; what is queued stays queued. */
    method Stops()
      requires Valid()
      modifies this`running
      ensures Valid() && !running
    {
      running := false;
    }

    /** The line is opened again: a new subscription, then the queue from its head. Open: all that was queued is stored. */
    method Reopens(maxWindows: nat)
      requires Valid() && !running
      modifies this
      ensures Valid() && old(store) <= store && old(arrived) <= arrived
      ensures running ==> forall x :: x in old(queue) ==> x in store
      ensures (running <==> failures == old(failures)) && failures >= old(failures)
    {
      inbox, owedGap, localGap := [], false, false;
      var done := Pull(maxWindows);
      if done { running, needsPull := true, false; }
    }

    method Happens(e: Happening, maxWindows: nat)
      requires Valid()
      modifies this
      ensures Valid() && old(store) <= store && old(arrived) <= arrived && failures >= old(failures)
      ensures e.ItemArrives? ==> e.item in arrived
      ensures e.Logout? ==> !running
      ensures e.Reopening? ==> (running <==> old(running) || failures == old(failures))
      ensures e.GapLookedAt? ==> (needsPull <==> old(needsPull) || old(localGap))
      ensures e.NextRound? && old(running) ==> (running <==> !(old(inbox) != [] && old(inbox)[0].Ended?))
      ensures e.NextRound? && running && needsPull ==> failures > old(failures)
    {
      match e
      case ItemArrives(item, pushed) => Arrives(item, pushed);
      case StateTold => TellsState();
      case InboxOverflows => if inbox != [] && !inbox[|inbox| - 1].Ended? { Overflows(); }
      case MessageBreaks(index) => if index < |inbox| && !inbox[index].Ended? { Breaks(index); }
      case SubscriptionEnds => Ends();
      case GapLookedAt => TakeGap();
      case NextRound => if running { Round(maxWindows); }
      case Logout => Stops();
      case Reopening => if !running { Reopens(maxWindows); }
    }

    /** No key is lost, whatever happens in whatever order: every item that ever arrived is queued or stored, and while the
        task runs every queued one is in a push to come or will be pulled. */
    method AnyRun(events: seq<Happening>, maxWindows: nat)
      requires Valid()
      modifies this
      ensures Valid() && old(store) <= store && old(arrived) <= arrived
      ensures forall item :: item in old(arrived) ==> item in queue || item in store
      ensures forall i :: 0 <= i < |events| && events[i].ItemArrives? ==> events[i].item in queue || events[i].item in store
    {
      var i := 0;
      while i < |events|
        invariant 0 <= i <= |events| && Valid() && old(store) <= store && old(arrived) <= arrived
        invariant forall k :: 0 <= k < i && events[k].ItemArrives? ==> events[k].item in arrived
      {
        Happens(events[i], maxWindows);
        i := i + 1;
      }
    }
  }
}
