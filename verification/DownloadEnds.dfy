/** Over whole runs of the system: a running job gets only so many answers before it is over. */
module DownloadEnds {
  import opened Files
  import opened Download
  import opened DownloadSystem
  import DownloadShared
  import opened DownloadEvents
  import DownloadRuns
  import opened DownloadProgress

  // ---- a download ends ----

  predicate RunsAt(y: System, id: HandlerId, x: Mxc) { id in y.handlers && IsRunning(y.handlers[id], x) }

  /** The event is an answer to the main request of `x` at handler `id`, and not a lost link. */
  predicate Answers(y: System, e: Event, id: HandlerId, x: Mxc)
    requires id in y.handlers
  {
    e.Run? && e.id == id && Counts(y.handlers[id], e.move, x)
  }

  /** The job of `x` is not over anywhere in the run. */
  ghost predicate RunsThroughout(file: Mxc -> ServerFile, y: System, events: seq<Event>, id: HandlerId, x: Mxc)
    requires SysInv(file, y) && DownloadRuns.IsRun(file, y, events)
    decreases |events|
  {
    RunsAt(y, id, x) &&
    (events != [] ==>
       (DownloadShared.StepKeeps(file, y, events[0]); RunsThroughout(file, After(file, y, events[0]), events[1..], id, x)))
  }

  ghost function AnswersIn(file: Mxc -> ServerFile, y: System, events: seq<Event>, id: HandlerId, x: Mxc): nat
    requires SysInv(file, y) && DownloadRuns.IsRun(file, y, events) && RunsThroughout(file, y, events, id, x)
    decreases |events|
  {
    if events == [] then 0
    else
      DownloadShared.StepKeeps(file, y, events[0]);
      (if Answers(y, events[0], id, x) then 1 else 0) + AnswersIn(file, After(file, y, events[0]), events[1..], id, x)
  }

  lemma {:induction false} SystemRankStep(file: Mxc -> ServerFile, y: System, e: Event, id: HandlerId, x: Mxc)
    requires SysInv(file, y) && Possible(file, y, e) && RunsAt(y, id, x) && RunsAt(After(file, y, e), id, x)
    ensures Rank(After(file, y, e).handlers[id], x) + (if Answers(y, e, id, x) then 1 else 0) <= Rank(y.handlers[id], x)
  {
    if e.Run? && e.id == id {
      RunMakes(file, y, id, e.move);
      RankStep(WorldOf(file, y, id), At(y, id), e.move, x);
    } else if e.Abort? && e.id == id {
      AbortMakes(file, y, id);
    } else {
      OthersMake(file, y, e, id);
      BesideRuns(y, e, id);
    }
  }

  /** However the handlers, the senders, the servers and the users interleave: while a job runs, the answers to its main
      request that count number at most what its measure was. So a job whose link fails finitely often ends. */
  lemma {:induction false} DownloadEnds(file: Mxc -> ServerFile, y: System, events: seq<Event>, id: HandlerId, x: Mxc)
    requires SysInv(file, y) && DownloadRuns.IsRun(file, y, events) && RunsThroughout(file, y, events, id, x)
    ensures AnswersIn(file, y, events, id, x) <= Rank(y.handlers[id], x)
    ensures AnswersIn(file, y, events, id, x) <= 8 * Total(y.handlers[id].open[x]) + 7
    decreases |events|
  {
    assert OneInv(WorldOf(file, y, id), At(y, id));
    RankBounds(WorldOf(file, y, id), At(y, id), x);
    if events != [] {
      var next := After(file, y, events[0]);
      DownloadShared.StepKeeps(file, y, events[0]);
      SystemRankStep(file, y, events[0], id, x);
      DownloadEnds(file, next, events[1..], id, x);
    }
  }
}
