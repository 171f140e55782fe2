/** The handler object driven through whole runs: every move of the state machine is one call of its methods, and so keeps
    every invariant. */
module DownloadDrive {
  import opened Files
  import Tally
  import opened Wrappers
  import opened Lines
  import opened Download
  import opened DownloadInv
  import DownloadJobs
  import opened DownloadMoves
  import opened DownloadHandlers
  import opened RequestLines

  /** What the object did, asked for `move`: just that. A silence timeout may drain the wire table in another order, and whether
      and where a flagged file has its main request is for the object to find. */
  predicate Like(move: Move, did: Move) {
    did == move || (move.SenderMove? && move.step.Silence? && did.SenderMove? && did.step.Silence?)
  }

  /** The one move asked for, done in place. */
  method Step(o: DownloadHandler, ghost w: World, move: Move) returns (ghost did: Move)
    requires Inv(w, o.View(), None, multiset{}) && May(w, o.View(), move)
    modifies o, o.shared, o.claims, o.store, o.line
    ensures Like(move, did) && old(May(w, o.View(), did))
    ensures o.View() == old(Act(w, o.View(), did)) && Inv(w, o.View(), None, multiset{})
  {
    ghost var s := o.View();
    did := Done(o, w, move);
    ActKeepsInv(w, s, did);
  }

  method Done(o: DownloadHandler, ghost w: World, move: Move) returns (ghost did: Move)
    requires Inv(w, o.View(), None, multiset{}) && May(w, o.View(), move)
    modifies o, o.shared, o.claims, o.store, o.line
    ensures Like(move, did) && old(May(w, o.View(), did)) && o.View() == old(Act(w, o.View(), did))
  {
    did := move;
    if move.SenderMove? {
      did := SenderStepOf(o, w, move.step, move.silence);
    } else if move.CancelMove? || move.AskMove? || move.StopMove? {
      FromOutside(o, w, move);
    } else if move.LookedMove? || move.OpenedMove? || move.CancelCheckMove? || move.StartJobMove? || move.FinishPreparingMove? {
      Prepare(o, w, move);
    } else {
      BetweenEvents(o, w, move);
    }
  }

  method Prepare(o: DownloadHandler, ghost w: World, move: Move)
    requires Inv(w, o.View(), None, multiset{}) && May(w, o.View(), move)
    requires move.LookedMove? || move.OpenedMove? || move.CancelCheckMove? || move.StartJobMove? || move.FinishPreparingMove?
    modifies o, o.shared, o.claims, o.store, o.line
    ensures o.View() == old(Act(w, o.View(), move))
  {
    match move
    case LookedMove(found) => { var handOver := o.PrepareDownload(found, false); }
    case OpenedMove(media) => o.FileOpened(media);
    case CancelCheckMove => o.LookAtFlag();
    case StartJobMove(disk) => o.StartJob(disk);
    case FinishPreparingMove => o.DonePreparing();
    case _ =>
  }

  method BetweenEvents(o: DownloadHandler, ghost w: World, move: Move)
    requires Inv(w, o.View(), None, multiset{}) && May(w, o.View(), move)
    requires move.TakeSeekMove? || move.TakeReplyMove? || move.TakeJobMove? || move.CancelOneMove? || move.CloseIdleMove?
             || move.ForgetMove? || move.SeekLookedMove? || move.RecordedMove? || move.AnsweredMove?
    modifies o, o.shared, o.claims, o.store, o.line
    ensures o.View() == old(Act(w, o.View(), move))
  {
    match move
    case TakeSeekMove(local) => o.ProcessSeek(local);
    case TakeReplyMove(v, local) => o.HandleReply(v, local);
    case TakeJobMove => o.NextJob();
    case CancelOneMove(mxc, main) => CancelFile(o, w, mxc, main);
    case CloseIdleMove(mxc) => CloseFile(o, mxc);
    case ForgetMove(mxc) => o.ForgetOne(mxc);
    case SeekLookedMove(found, local) => o.SeekFoundOrNot(found, local);
    case RecordedMove(failed) => o.RowRecorded(failed);
    case AnsweredMove(found, unread) => o.AnswerFromPool(found, unread);
    case _ =>
  }

  /** A running job has one main request, so the one the object finds is the one there is. */
  method CancelFile(o: DownloadHandler, ghost w: World, mxc: Mxc, ghost main: Option<Request>)
    requires Inv(w, o.View(), None, multiset{}) && May(w, o.View(), CancelOneMove(mxc, main))
    modifies o, o.shared, o.claims, o.store, o.line
    ensures o.View() == old(CancelOne(o.View(), mxc, main))
  {
    DownloadJobs.RunningHasMain(w, o.View(), mxc);
    var _ := o.CancelFlagged(mxc);
  }

  method CloseFile(o: DownloadHandler, mxc: Mxc)
    requires mxc in o.open
    modifies o, o.claims, o.store
    ensures o.View() == old(CloseIdle(o.View(), mxc))
  {
    ghost var s := o.View();
    CloseSomeNone(s);
    CloseSomeMore(s, {}, mxc);
    o.CloseNext(s, {}, mxc);
  }

  method FromOutside(o: DownloadHandler, ghost w: World, move: Move)
    requires Inv(w, o.View(), None, multiset{}) && May(w, o.View(), move)
    requires move.CancelMove? || move.AskMove? || move.StopMove?
    modifies o, o.shared
    ensures o.View() == old(Act(w, o.View(), move))
  {
    match move
    case CancelMove(mxc) => { var accepted := o.shared.CancelJob(mxc); }
    case AskMove(job) => o.SeekAsked(job);
    case StopMove => o.shared.stopped := true;
    case _ =>
  }

  method SenderStepOf(o: DownloadHandler, ghost w: World, step: SenderStep, silence: nat) returns (ghost did: Move)
    requires Inv(w, o.View(), None, multiset{}) && May(w, o.View(), SenderMove(step, silence))
    modifies o.line
    ensures Like(SenderMove(step, silence), did) && old(May(w, o.View(), did))
    ensures o.View() == old(Act(w, o.View(), did))
  {
    ghost var one := StepOfLine(o.line, step, silence);
    did := SenderMove(one, silence);
  }

  method StepOfLine(line: RequestLine<Request>, step: SenderStep, silence: nat) returns (ghost did: SenderStep)
    requires Enabled(line.View(), step, silence)
    modifies line
    ensures if step.Silence? then did.Silence? else did == step
    ensures old(Enabled(line.View(), did, silence)) && line.View() == old(Apply(line.View(), did, silence))
  {
    did := step;
    match step {
      case Take => { var taken := line.TakeNext(silence); }
      case NoLink => line.PutBack(silence);
      case NewLink => line.UseNewLink(silence);
      case Send(number) => line.SendInHand(number, silence);
      case SendError(error) => line.SendFails(error, silence);
      case Heard(wait) => line.AnswerComes(wait, silence);
      case Answer(wait, result) => line.AnswerArrives(wait, result, silence);
      case Silence(_) => {
        var silent, order := line.TimeOutIfSilent(silence);
        did := Silence(order);
      }
      case Pass(time) => line.TimePasses(time, silence);
    }
  }

  // ---- whole runs ----

  /** Each move can be made when its turn comes, however those before it went. */
  ghost predicate CanAll(w: World, s: State, moves: seq<Move>)
    requires Inv(w, s, None, multiset{})
    decreases |moves|
  {
    moves == [] ||
    (May(w, s, moves[0]) &&
     forall did :: Like(moves[0], did) && May(w, s, did) ==> (ActKeepsInv(w, s, did); CanAll(w, Act(w, s, did), moves[1..])))
  }

  /** The moves lead from `s` to `s2`. */
  ghost predicate LeadsTo(w: World, s: State, moves: seq<Move>, s2: State)
    requires Inv(w, s, None, multiset{})
    decreases |moves|
  {
    if moves == [] then s == s2
    else May(w, s, moves[0]) && (ActKeepsInv(w, s, moves[0]); LeadsTo(w, Act(w, s, moves[0]), moves[1..], s2))
  }

  lemma {:induction false} LeadsFurther(w: World, s: State, moves: seq<Move>, mid: State, move: Move)
    requires Inv(w, s, None, multiset{}) && LeadsTo(w, s, moves, mid)
    requires Inv(w, mid, None, multiset{}) && May(w, mid, move)
    ensures LeadsTo(w, s, moves + [move], Act(w, mid, move))
    decreases |moves|
  {
    if moves == [] {
      Tally.AppendedOne(move);
    } else {
      ActKeepsInv(w, s, moves[0]);
      Tally.AppendedRest(moves, move);
      LeadsFurther(w, Act(w, s, moves[0]), moves[1..], mid, move);
    }
  }

  /** So far the object did what it was asked, up to `rest`, and the rest can be asked. */
  ghost predicate Driven(w: World, start: State, did: seq<Move>, s: State, rest: seq<Move>, moves: seq<Move>)
    requires Inv(w, start, None, multiset{})
  {
    Inv(w, s, None, multiset{}) && CanAll(w, s, rest) && LeadsTo(w, start, did, s) && AsAsked(did, rest, moves)
  }

  predicate AsAsked(did: seq<Move>, rest: seq<Move>, moves: seq<Move>) {
    && |did| + |rest| == |moves| && rest == moves[|did|..]
    && forall i :: 0 <= i < |did| ==> Like(moves[i], did[i])
  }

  lemma AskedFurther(did: seq<Move>, rest: seq<Move>, moves: seq<Move>, one: Move)
    requires AsAsked(did, rest, moves) && rest != [] && Like(rest[0], one)
    ensures AsAsked(did + [one], rest[1..], moves)
  {
    assert moves[|did|] == rest[0];
  }

  lemma {:induction false} DrivenFurther(w: World, start: State, did: seq<Move>, s: State, rest: seq<Move>, moves: seq<Move>, one: Move)
    requires Inv(w, start, None, multiset{}) && Driven(w, start, did, s, rest, moves) && rest != []
    requires Like(rest[0], one) && May(w, s, one)
    ensures Driven(w, start, did + [one], Act(w, s, one), rest[1..], moves)
  {
    ActKeepsInv(w, s, one);
    LeadsFurther(w, start, did, s, one);
    AskedFurther(did, rest, moves, one);
  }

  /** The object's whole life: whatever it is asked to do in turn, it ends where the state machine ends, with every invariant kept. */
  method Drive(o: DownloadHandler, ghost w: World, moves: seq<Move>) returns (ghost did: seq<Move>)
    requires Inv(w, o.View(), None, multiset{}) && CanAll(w, o.View(), moves)
    modifies o, o.shared, o.claims, o.store, o.line
    ensures Inv(w, o.View(), None, multiset{})
    ensures |did| == |moves| && LeadsTo(w, old(o.View()), did, o.View())
    ensures forall i :: 0 <= i < |moves| ==> Like(moves[i], did[i])
  {
    did := [];
    var rest := moves;
    ghost var start := o.View();
    while rest != []
      invariant Driven(w, start, did, o.View(), rest, moves)
      decreases |rest|
    {
      ghost var s := o.View();
      ghost var one := Step(o, w, rest[0]);
      DrivenFurther(w, start, did, s, rest, moves, one);
      did := did + [one];
      rest := rest[1..];
    }
  }
}
