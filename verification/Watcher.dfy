/**
  The watcher of a conversation's stream: an event loop that accumulates streamed text, persists
  it as assistant messages, keeps the route and the task row up to date, and releases the claimed
  instance when the agent ends. Its effects on the database, the routing table and the claim
  manager form a log.
 */
module Watchers {
  import Bridges
  import opened Wrappers

  /** The events of a conversation stream; the kinds the watcher ignores are one here. */
  datatype StreamEvent =
    | AgentStart(agentId: string, podName: string)
    | Delta(content: string)
    | TurnEnd
    | AgentEnd
    | Error(fatal: bool, text: string, message: string)
    | Ignored

  /** What the loop can wake up for. An event comes with what the database would answer: the
      instance that has the announced pod name, and whether an insert succeeds. */
  datatype Signal =
    | Event(event: StreamEvent, instance: Option<nat>, stored: bool)
    | Timeout
    | Cancelled
    | ChannelClosed

  datatype Effect =
    | Persist(agent: string, text: string, stored: bool)
    | SetRoute(instance: nat)
    | SetRunning(instance: nat)
    | Complete
    | Fail(error: string)
    | Release
    | ClearRoute

  datatype Status = Running | Finished | TimedOut | Stopped

  datatype Config = Config(hasDatabase: bool, hasTask: bool, hasClaims: bool)

  datatype State = State(content: string, agent: string, log: seq<Effect>, status: Status)

  const START := State("", "", [], Running)

  /** A flush of the pending text, when there is a database and some text. */
  function Flush(c: Config, s: State, stored: bool): seq<Effect> {
    if c.hasDatabase && s.content != "" then [Persist(s.agent, s.content, stored)] else []
  }

  function Announce(c: Config, e: StreamEvent, instance: Option<nat>): seq<Effect>
    requires e.AgentStart?
  {
    if e.podName != "" && c.hasDatabase && instance.Some? then
      [SetRoute(instance.value)] + if c.hasTask then [SetRunning(instance.value)] else []
    else []
  }

  function Farewell(c: Config): seq<Effect> {
    (if c.hasTask && c.hasDatabase then [Complete] else []) + (if c.hasClaims then [Release] else []) + [ClearRoute]
  }

  function Step(c: Config, s: State, signal: Signal): State {
    if s.status != Running then s
    else match signal
      case Cancelled => s.(status := Stopped)
      case ChannelClosed => s.(status := Stopped)
      case Timeout => s.(log := s.log + [ClearRoute], status := TimedOut)
      case Event(e, instance, stored) =>
        match e
        case AgentStart(id, _) => s.(agent := id, content := "", log := s.log + Announce(c, e, instance))
        case Delta(text) => s.(content := s.content + text)
        case TurnEnd =>
          s.(log := s.log + Flush(c, s, stored), content := if c.hasDatabase then "" else s.content)
        case AgentEnd => s.(log := s.log + Flush(c, s, stored) + Farewell(c), status := Finished)
        case Error(fatal, text, message) =>
          if !(fatal && c.hasTask && c.hasDatabase) then s
          else s.(log := s.log + [Fail(if text == "" then message else text)])
        case Ignored => s
  }

  function After(c: Config, s: State, signals: seq<Signal>): State
    decreases |signals|
  {
    if signals == [] then s else After(c, Step(c, s, signals[0]), signals[1..])
  }

  /** The loop, with its variables. It stops reading at the first signal that ends it. */
  method WatchConvStream(c: Config, signals: seq<Signal>) returns (end: State, read: nat)
    ensures end == After(c, START, signals) && read <= |signals|
    ensures end.status == Running <==> forall k :: 0 <= k < |signals| ==> !Ends(signals[k])
    ensures end.status != Running ==> read > 0 && Ends(signals[read - 1])
    ensures end.status != Running ==> forall k :: 0 <= k < read - 1 ==> !Ends(signals[k])
  {
    var content, agentName, log := "", "", [];
    read := 0;
    while read < |signals|
      invariant read <= |signals|
      invariant forall k :: 0 <= k < read ==> !Ends(signals[k])
      invariant After(c, START, signals) == After(c, State(content, agentName, log, Running), signals[read..])
    {
      var s := State(content, agentName, log, Running);
      var signal := signals[read];
      assert log + [] == log;
      assert signals[read..][1..] == signals[read + 1..];
      read := read + 1;
      match signal {
        case Cancelled =>
          EndedStaysEnded(c, s.(status := Stopped), signals[read..]);
          return s.(status := Stopped), read;
        case ChannelClosed =>
          EndedStaysEnded(c, s.(status := Stopped), signals[read..]);
          return s.(status := Stopped), read;
        case Timeout =>
          log := log + [ClearRoute];
          EndedStaysEnded(c, s.(log := log, status := TimedOut), signals[read..]);
          return s.(log := log, status := TimedOut), read;
        case Event(e, instance, stored) =>
          match e {
            case AgentStart(id, _) =>
              agentName, content := id, "";
              log := log + Announce(c, e, instance);
            case Delta(text) =>
              content := content + text;
            case TurnEnd =>
              if c.hasDatabase && content != "" {
                log := log + [Persist(agentName, content, stored)];
                content := "";
              }
            case AgentEnd =>
              if c.hasDatabase && content != "" {
                log := log + [Persist(agentName, content, stored)];
              }
              log := log + Farewell(c);
              EndedStaysEnded(c, State(content, agentName, log, Finished), signals[read..]);
              return State(content, agentName, log, Finished), read;
            case Error(fatal, text, message) =>
              if fatal && c.hasTask && c.hasDatabase {
                log := log + [Fail(if text == "" then message else text)];
              }
            case Ignored =>
          }
      }
    }
    end := State(content, agentName, log, Running);
  }

  predicate Ends(signal: Signal) { signal.Event? ==> signal.event.AgentEnd? }

  lemma {:induction false} EndedStaysEnded(c: Config, s: State, signals: seq<Signal>)
    requires s.status != Running
    ensures After(c, s, signals) == s
    decreases |signals|
  {
    if signals != [] {
      EndedStaysEnded(c, s, signals[1..]);
    }
  }

  // ---------- Text conservation ----------

  /** The text handed to the database, and the part of it that was stored. */
  function PersistedText(log: seq<Effect>): string {
    if log == [] then ""
    else PersistedText(log[..|log| - 1]) + if log[|log| - 1].Persist? then log[|log| - 1].text else ""
  }

  function StoredText(log: seq<Effect>): string {
    if log == [] then ""
    else
      var last := log[|log| - 1];
      StoredText(log[..|log| - 1]) + if last.Persist? && last.stored then last.text else ""
  }

  /** The text received and not yet handed to the database; none is left once the agent ended. */
  function Pending(s: State): string { if s.status == Finished then "" else s.content }

  /** The next event that resets or flushes the text, if the loop gets that far, is an agent_start. */
  predicate NextIsStart(signals: seq<Signal>)
    decreases |signals|
  {
    if signals == [] || Ends(signals[0]) || signals[0].event.TurnEnd? then false
    else signals[0].event.AgentStart? || NextIsStart(signals[1..])
  }

  /** The text of the deltas that the loop receives, in order, without those whose next reset or
      flush is an agent_start. */
  function KeptText(signals: seq<Signal>): string
    decreases |signals|
  {
    if signals == [] || Ends(signals[0]) then ""
    else (if signals[0].event.Delta? && !NextIsStart(signals[1..]) then signals[0].event.content else "")
         + KeptText(signals[1..])
  }

  lemma PersistedSnoc(log: seq<Effect>, e: Effect)
    ensures PersistedText(log + [e]) == PersistedText(log) + if e.Persist? then e.text else ""
  {
    assert (log + [e])[..|log|] == log;
  }

  lemma FlushPersists(c: Config, s: State, stored: bool)
    requires c.hasDatabase
    ensures PersistedText(s.log + Flush(c, s, stored)) == PersistedText(s.log) + s.content
  {
    if s.content != "" {
      PersistedSnoc(s.log, Persist(s.agent, s.content, stored));
    } else {
      assert s.log + [] == s.log;
    }
  }

  lemma {:induction false} OtherEffectsPersistNothing(log: seq<Effect>, more: seq<Effect>)
    requires forall k :: 0 <= k < |more| ==> !more[k].Persist?
    ensures PersistedText(log + more) == PersistedText(log)
    decreases |more|
  {
    if more == [] {
      assert log + more == log;
    } else {
      var init, last := more[..|more| - 1], more[|more| - 1];
      OtherEffectsPersistNothing(log, init);
      PersistedSnoc(log + init, last);
      assert log + init + [last] == log + more;
    }
  }

  /** The text persisted, pending or still to be received and kept. */
  ghost function Total(s: State, later: seq<Signal>): string {
    if s.status == Running then
      PersistedText(s.log) + (if NextIsStart(later) then "" else s.content) + KeptText(later)
    else PersistedText(s.log) + Pending(s)
  }

  lemma Regroup(p: string, c: string, t: string, k: string)
    ensures (p + c) + (t + k) == (p + (c + t)) + k
  {
  }

  lemma Empties(p: string, k: string)
    ensures p + "" == p && "" + k == k && p + "" + k == p + k
  {
  }

  lemma EndConserves(c: Config, s: State, signal: Signal)
    requires c.hasDatabase && s.status == Running && Ends(signal)
    ensures PersistedText(Step(c, s, signal).log) + Pending(Step(c, s, signal)) == PersistedText(s.log) + s.content
  {
    match signal
    case Timeout => OtherEffectsPersistNothing(s.log, [ClearRoute]);
    case Event(_, _, stored) =>
      FlushPersists(c, s, stored);
      OtherEffectsPersistNothing(s.log + Flush(c, s, stored), Farewell(c));
      Empties(PersistedText(s.log) + s.content, "");
    case _ =>
  }

  /** The log of an event that neither ends the loop nor flushes persists nothing more. */
  lemma QuietLog(c: Config, s: State, signal: Signal)
    requires s.status == Running && !Ends(signal) && !signal.event.TurnEnd?
    ensures PersistedText(Step(c, s, signal).log) == PersistedText(s.log)
  {
    match signal.event
    case AgentStart(_, _) => OtherEffectsPersistNothing(s.log, Announce(c, signal.event, signal.instance));
    case Error(_, text, message) => OtherEffectsPersistNothing(s.log, [Fail(if text == "" then message else text)]);
    case _ =>
  }

  lemma StepConserves(c: Config, s: State, signals: seq<Signal>)
    requires c.hasDatabase && s.status == Running && signals != []
    ensures Total(Step(c, s, signals[0]), signals[1..]) == Total(s, signals)
  {
    var signal, later := signals[0], signals[1..];
    var p, content, kept := PersistedText(s.log), s.content, KeptText(later);
    if Ends(signal) {
      EndConserves(c, s, signal);
      Empties(p + content, "");
    } else {
      var text := if signal.event.Delta? && !NextIsStart(later) then signal.event.content else "";
      assert KeptText(signals) == text + kept;
      match signal.event
      case TurnEnd =>
        FlushPersists(c, s, signal.stored);
        Empties(p + content, kept);
      case AgentStart(_, _) =>
        QuietLog(c, s, signal);
        Empties(p, kept);
      case _ =>
        QuietLog(c, s, signal);
        var carried := if NextIsStart(later) then "" else content;
        Regroup(p, carried, text, kept);
        Empties(carried, "");
    }
  }

  lemma {:induction false} ConservedFrom(c: Config, s: State, signals: seq<Signal>)
    requires c.hasDatabase && s.status == Running
    ensures var end := After(c, s, signals); PersistedText(end.log) + Pending(end) == Total(s, signals)
    decreases |signals|
  {
    if signals != [] {
      var s' := Step(c, s, signals[0]);
      StepConserves(c, s, signals);
      if s'.status == Running {
        ConservedFrom(c, s', signals[1..]);
      } else {
        EndedStaysEnded(c, s', signals[1..]);
      }
    }
  }

  /** At every point of every stream, what was persisted followed by what is pending is the text
      received in order, except the deltas dropped at a later agent_start; and once the agent has
      ended nothing is pending. */
  lemma TextIsConserved(c: Config, signals: seq<Signal>)
    requires c.hasDatabase
    ensures var end := After(c, START, signals);
            && PersistedText(end.log) + Pending(end) == KeptText(signals)
            && (end.status == Finished ==> PersistedText(end.log) == KeptText(signals))
  {
    ConservedFrom(c, START, signals);
    Empties("", KeptText(signals));
    var end := After(c, START, signals);
    Empties(PersistedText(end.log), "");
  }

  // ---------- The log ----------

  ghost predicate NoEmptyMessage(log: seq<Effect>) {
    forall k :: 0 <= k < |log| && log[k].Persist? ==> log[k].text != ""
  }

  ghost predicate IsFinal(e: Effect) { e.Complete? || e.Release? || e.ClearRoute? }

  /** The log of a loop that is still running ends nothing; one that ended with the agent ends with
      the farewell; one that timed out drops the route and releases nothing. */
  ghost predicate LogOk(c: Config, s: State) {
    && NoEmptyMessage(s.log)
    && match s.status
       case Running => forall k :: 0 <= k < |s.log| ==> !IsFinal(s.log[k])
       case Stopped => forall k :: 0 <= k < |s.log| ==> !IsFinal(s.log[k])
       case TimedOut =>
         && |s.log| > 0 && s.log[|s.log| - 1] == ClearRoute
         && forall k :: 0 <= k < |s.log| - 1 ==> !IsFinal(s.log[k])
       case Finished =>
         var n := |s.log| - |Farewell(c)|;
         n >= 0 && s.log[n..] == Farewell(c) && forall k :: 0 <= k < n ==> !IsFinal(s.log[k])
  }

  /** Effects that end nothing and persist no empty message. */
  ghost predicate Ordinary(log: seq<Effect>) {
    NoEmptyMessage(log) && forall k :: 0 <= k < |log| ==> !IsFinal(log[k])
  }

  lemma OrdinaryAppend(log: seq<Effect>, more: seq<Effect>)
    requires Ordinary(log) && Ordinary(more)
    ensures Ordinary(log + more)
  {
  }

  lemma FinishedLog(c: Config, s: State, log: seq<Effect>)
    requires Ordinary(log) && s.status == Finished && s.log == log + Farewell(c)
    ensures LogOk(c, s)
  {
    assert s.log[|log|..] == Farewell(c);
    forall k | 0 <= k < |s.log| ensures s.log[k] == if k < |log| then log[k] else Farewell(c)[k - |log|] {}
  }

  lemma StepKeepsLog(c: Config, s: State, signal: Signal)
    requires LogOk(c, s)
    ensures LogOk(c, Step(c, s, signal))
  {
    if s.status == Running && signal.Event? {
      match signal.event
      case AgentStart(_, _) => OrdinaryAppend(s.log, Announce(c, signal.event, signal.instance));
      case TurnEnd => OrdinaryAppend(s.log, Flush(c, s, signal.stored));
      case AgentEnd =>
        OrdinaryAppend(s.log, Flush(c, s, signal.stored));
        FinishedLog(c, Step(c, s, signal), s.log + Flush(c, s, signal.stored));
      case Error(_, text, message) => OrdinaryAppend(s.log, [Fail(if text == "" then message else text)]);
      case _ =>
    }
  }

  lemma {:induction false} LogFrom(c: Config, s: State, signals: seq<Signal>)
    requires LogOk(c, s)
    ensures LogOk(c, After(c, s, signals))
    decreases |signals|
  {
    if signals != [] {
      StepKeepsLog(c, s, signals[0]);
      LogFrom(c, Step(c, s, signals[0]), signals[1..]);
    }
  }

  ghost predicate Occurs(log: seq<Effect>, e: Effect) { exists k :: 0 <= k < |log| && log[k] == e }

  /** The instance is released exactly when the agent ended and a claim manager is there, at most once,
      and the next effect clears the route. */
  ghost predicate ReleasesOnce(c: Config, s: State) {
    && (Occurs(s.log, Release) <==> s.status == Finished && c.hasClaims)
    && (forall k :: 0 <= k < |s.log| && s.log[k] == Release ==> k + 2 == |s.log| && s.log[k + 1] == ClearRoute)
  }

  /** The route is cleared exactly when the agent ended or the watch timed out, as the last effect. */
  ghost predicate ClearsLast(s: State) {
    && (Occurs(s.log, ClearRoute) <==> s.status == Finished || s.status == TimedOut)
    && (forall k :: 0 <= k < |s.log| && s.log[k] == ClearRoute ==> k + 1 == |s.log|)
  }

  /** The task completes exactly when the agent ended, at most once, after every failure, message and
      announcement. */
  ghost predicate CompletesLast(c: Config, s: State) {
    && (Occurs(s.log, Complete) <==> s.status == Finished && c.hasTask && c.hasDatabase)
    && (forall j, k :: 0 <= j < k < |s.log| && s.log[j] == Complete ==> s.log[k] == Release || s.log[k] == ClearRoute)
  }

  /** Where the final effects of a finished log are. */
  lemma FinalEffects(c: Config, s: State, k: nat)
    requires LogOk(c, s) && s.status == Finished && k < |s.log|
    ensures s.log[k] == ClearRoute <==> k == |s.log| - 1
    ensures s.log[k] == Release <==> c.hasClaims && k == |s.log| - 2
    ensures s.log[k] == Complete <==>
            c.hasTask && c.hasDatabase && k == |s.log| - if c.hasClaims then 3 else 2
  {
    var n := |s.log| - |Farewell(c)|;
    if n <= k {
      assert s.log[k] == s.log[n..][k - n] == Farewell(c)[k - n];
    }
  }

  lemma FarewellFits(c: Config, s: State)
    requires LogOk(c, s) && s.status == Finished
    ensures |s.log| >= 1 + (if c.hasClaims then 1 else 0) + (if c.hasTask && c.hasDatabase then 1 else 0)
  {
  }

  lemma ReleaseOccurs(c: Config, s: State)
    requires LogOk(c, s) && s.status == Finished
    ensures Occurs(s.log, Release) <==> c.hasClaims
  {
    FarewellFits(c, s);
    if c.hasClaims {
      FinalEffects(c, s, |s.log| - 2);
      assert s.log[|s.log| - 2] == Release;
    } else {
      forall k | 0 <= k < |s.log| ensures s.log[k] != Release {
        FinalEffects(c, s, k);
      }
    }
  }

  lemma FinishedReleases(c: Config, s: State)
    requires LogOk(c, s) && s.status == Finished
    ensures ReleasesOnce(c, s)
  {
    ReleaseOccurs(c, s);
    forall k | 0 <= k < |s.log| && s.log[k] == Release ensures k + 2 == |s.log| && s.log[k + 1] == ClearRoute {
      FinalEffects(c, s, k);
      FinalEffects(c, s, |s.log| - 1);
    }
  }

  lemma FinishedClears(c: Config, s: State)
    requires LogOk(c, s) && s.status == Finished
    ensures ClearsLast(s)
  {
    FarewellFits(c, s);
    forall k | 0 <= k < |s.log| ensures s.log[k] == ClearRoute <==> k == |s.log| - 1 {
      FinalEffects(c, s, k);
    }
    assert s.log[|s.log| - 1] == ClearRoute;
  }

  lemma CompleteOccurs(c: Config, s: State)
    requires LogOk(c, s) && s.status == Finished
    ensures Occurs(s.log, Complete) <==> c.hasTask && c.hasDatabase
  {
    FarewellFits(c, s);
    if c.hasTask && c.hasDatabase {
      var last := |s.log| - if c.hasClaims then 3 else 2;
      FinalEffects(c, s, last);
      assert s.log[last] == Complete;
    } else {
      forall k | 0 <= k < |s.log| ensures s.log[k] != Complete {
        FinalEffects(c, s, k);
      }
    }
  }

  lemma AfterComplete(c: Config, s: State, j: nat, k: nat)
    requires LogOk(c, s) && s.status == Finished && j < k < |s.log| && s.log[j] == Complete
    ensures s.log[k] == Release || s.log[k] == ClearRoute
  {
    FinalEffects(c, s, j);
    FinalEffects(c, s, k);
  }

  lemma FinishedCompletes(c: Config, s: State)
    requires LogOk(c, s) && s.status == Finished
    ensures CompletesLast(c, s)
  {
    CompleteOccurs(c, s);
    forall j, k | 0 <= j < k < |s.log| && s.log[j] == Complete ensures s.log[k] == Release || s.log[k] == ClearRoute {
      AfterComplete(c, s, j, k);
    }
  }

  lemma OtherwiseInOrder(c: Config, s: State)
    requires LogOk(c, s) && s.status != Finished
    ensures ReleasesOnce(c, s) && ClearsLast(s) && CompletesLast(c, s)
  {
    if s.status == TimedOut {
      assert s.log[|s.log| - 1] == ClearRoute;
    }
  }

  /** In every run no empty message is persisted; the claimed instance is released exactly when the
      agent ended, at most once and right before the route is cleared; a timeout clears the route
      without releasing; and an agent that ends completes its task after whatever failed before. */
  lemma EffectsAreInOrder(c: Config, signals: seq<Signal>)
    ensures var s := After(c, START, signals);
            NoEmptyMessage(s.log) && ReleasesOnce(c, s) && ClearsLast(s) && CompletesLast(c, s)
  {
    var s := After(c, START, signals);
    LogFrom(c, START, signals);
    if s.status == Finished {
      FinishedReleases(c, s);
      FinishedClears(c, s);
      FinishedCompletes(c, s);
    } else {
      OtherwiseInOrder(c, s);
    }
  }

  /** The agent that was announced last. */
  function LastAgent(signals: seq<Signal>): string {
    if signals == [] then ""
    else
      var last := signals[|signals| - 1];
      if last.Event? && last.event.AgentStart? then last.event.agentId else LastAgent(signals[..|signals| - 1])
  }

  lemma {:induction false} AfterSnoc(c: Config, s: State, signals: seq<Signal>, signal: Signal)
    ensures After(c, s, signals + [signal]) == Step(c, After(c, s, signals), signal)
    decreases |signals|
  {
    if signals == [] {
      assert signals + [signal] == [signal] && [signal][1..] == [];
    } else {
      assert (signals + [signal])[1..] == signals[1..] + [signal];
      AfterSnoc(c, Step(c, s, signals[0]), signals[1..], signal);
    }
  }

  lemma {:induction false} AgentIsLastAnnounced(c: Config, signals: seq<Signal>)
    ensures After(c, START, signals).status == Running ==> After(c, START, signals).agent == LastAgent(signals)
  {
    if signals != [] {
      var init, last := signals[..|signals| - 1], signals[|signals| - 1];
      AgentIsLastAnnounced(c, init);
      AfterSnoc(c, START, init, last);
      assert init + [last] == signals;
    }
  }

  /** Whatever came before, a message is stored under the agent that was announced last, with the
      text pending at that point. */
  lemma MessagesNameTheirAgent(c: Config, signals: seq<Signal>, signal: Signal)
    requires c.hasDatabase && After(c, START, signals).status == Running && After(c, START, signals).content != ""
    requires signal.Event? && (signal.event.TurnEnd? || signal.event.AgentEnd?)
    ensures var before, after := After(c, START, signals), After(c, START, signals + [signal]);
            after.log == before.log + [Persist(LastAgent(signals), before.content, signal.stored)]
                         + if signal.event.AgentEnd? then Farewell(c) else []
  {
    AfterSnoc(c, START, signals, signal);
    AgentIsLastAnnounced(c, signals);
  }

  // ---------- Routes, tasks and endings ----------

  /** Effects on the route and on the task other than those at the end. */
  predicate IsTracking(e: Effect) { e.SetRoute? || e.SetRunning? || e.Fail? }

  ghost predicate Untracked(log: seq<Effect>) { forall k :: 0 <= k < |log| ==> !IsTracking(log[k]) }

  /** What a signal adds to the log after any stream that has not ended. */
  ghost function Added(c: Config, signals: seq<Signal>, signal: Signal): seq<Effect>
  {
    var before, after := After(c, START, signals).log, After(c, START, signals + [signal]).log;
    if |before| <= |after| then after[|before|..] else []
  }

  lemma LogGrows(c: Config, signals: seq<Signal>, signal: Signal)
    ensures After(c, START, signals + [signal]).log == After(c, START, signals).log + Added(c, signals, signal)
    ensures After(c, START, signals).status != Running ==> Added(c, signals, signal) == []
  {
    AfterSnoc(c, START, signals, signal);
  }

  /** An announcement with a pod name that the database knows sets the route to that instance and then marks
      the task, if there is one, as running on it; any other announcement does neither. */
  lemma AnnouncementSetsRoute(c: Config, signals: seq<Signal>, id: string, pod: string, found: Option<nat>,
      stored: bool)
    requires After(c, START, signals).status == Running
    ensures Added(c, signals, Event(AgentStart(id, pod), found, stored)) ==
            if pod == "" || !c.hasDatabase || found.None? then []
            else if c.hasTask then [SetRoute(found.value), SetRunning(found.value)]
            else [SetRoute(found.value)]
  {
    AfterSnoc(c, START, signals, Event(AgentStart(id, pod), found, stored));
  }

  /** A fatal error fails the task with its text, or its message if there is none; an error that is not fatal, or
      without a task and a database, adds nothing. */
  lemma FatalErrorFailsTask(c: Config, signals: seq<Signal>, fatal: bool, text: string, message: string,
      found: Option<nat>, stored: bool)
    requires After(c, START, signals).status == Running
    ensures Added(c, signals, Event(Error(fatal, text, message), found, stored)) ==
            if !fatal || !c.hasTask || !c.hasDatabase then []
            else if text != "" then [Fail(text)]
            else [Fail(message)]
  {
    AfterSnoc(c, START, signals, Event(Error(fatal, text, message), found, stored));
  }

  lemma StepTracksNothing(c: Config, s: State, signal: Signal) returns (more: seq<Effect>)
    requires signal.Event? ==> !signal.event.AgentStart? && !signal.event.Error?
    ensures Step(c, s, signal).log == s.log + more && Untracked(more)
  {
    more := [];
    if s.status == Running {
      if signal == Timeout {
        more := [ClearRoute];
      } else if signal.Event? && signal.event.TurnEnd? {
        more := Flush(c, s, signal.stored);
      } else if signal.Event? && signal.event.AgentEnd? {
        more := Flush(c, s, signal.stored) + Farewell(c);
        assert s.log + Flush(c, s, signal.stored) + Farewell(c) == s.log + more;
      }
    }
    assert more == [] ==> s.log + more == s.log;
  }

  /** No other signal touches the route or the task before the end, and a loop that has ended adds nothing. */
  lemma OtherSignalsTrackNothing(c: Config, signals: seq<Signal>, signal: Signal)
    requires signal.Event? ==> !signal.event.AgentStart? && !signal.event.Error?
    ensures Untracked(Added(c, signals, signal))
  {
    var before := After(c, START, signals);
    AfterSnoc(c, START, signals, signal);
    var more := StepTracksNothing(c, before, signal);
    assert (before.log + more)[|before.log|..] == more;
  }

  /** The loop has seen an announcement whose lookup gave the instance. */
  ghost predicate Announced(signals: seq<Signal>, i: nat) {
    exists j :: 0 <= j < |signals| && AnnouncesAt(signals, j, i)
  }

  predicate AnnouncesAt(signals: seq<Signal>, j: nat, i: nat)
    requires j < |signals|
  {
    var s := signals[j];
    s.Event? && s.event.AgentStart? && s.event.podName != "" && s.instance == Some(i)
  }

  lemma AnnouncedMore(signals: seq<Signal>, signal: Signal, i: nat)
    requires Announced(signals, i) || AnnouncesAt(signals + [signal], |signals|, i)
    ensures Announced(signals + [signal], i)
  {
    if Announced(signals, i) {
      var j :| 0 <= j < |signals| && AnnouncesAt(signals, j, i);
      assert AnnouncesAt(signals + [signal], j, i);
    }
  }

  /** Every route that the log sets, and every instance that a task runs on, comes from an announcement. */
  lemma {:induction false} RoutesAreAnnounced(c: Config, signals: seq<Signal>, i: nat)
    requires Occurs(After(c, START, signals).log, SetRoute(i)) || Occurs(After(c, START, signals).log, SetRunning(i))
    ensures Announced(signals, i)
  {
    var init, last := signals[..|signals| - 1], signals[|signals| - 1];
    assert init + [last] == signals;
    LogGrows(c, init, last);
    AfterSnoc(c, START, init, last);
    if Occurs(After(c, START, init).log, SetRoute(i)) || Occurs(After(c, START, init).log, SetRunning(i)) {
      RoutesAreAnnounced(c, init, i);
    } else {
      if !(last.Event? && last.event.AgentStart?) && !(last.Event? && last.event.Error?) {
        OtherSignalsTrackNothing(c, init, last);
      }
      assert AnnouncesAt(signals, |init|, i);
    }
    AnnouncedMore(init, last, i);
  }

  /** Which signal ends the loop, and how: the end of the agent finishes it, the safety timer times it out, and
      a cancelled context or a closed channel stops it. */
  lemma EndingsAreTold(c: Config, signals: seq<Signal>, signal: Signal)
    requires After(c, START, signals).status == Running
    ensures var status := After(c, START, signals + [signal]).status;
            && (status == Finished <==> signal.Event? && signal.event.AgentEnd?)
            && (status == TimedOut <==> signal == Timeout)
            && (status == Stopped <==> signal == Cancelled || signal == ChannelClosed)
  {
    AfterSnoc(c, START, signals, signal);
  }

  // ---------- What ends up in the database ----------

  lemma DifferAlso(a: string, b: string, t: string)
    requires a != b
    ensures a + t != b + t
  {
    assert (a + t)[..|a|] == a && (b + t)[..|b|] == b;
  }

  lemma {:induction false} StoredWithinPersisted(log: seq<Effect>)
    requires NoEmptyMessage(log)
    ensures |StoredText(log)| <= |PersistedText(log)|
    ensures StoredText(log) == PersistedText(log) <==> forall k :: 0 <= k < |log| && log[k].Persist? ==> log[k].stored
  {
    if log != [] {
      var init, last := log[..|log| - 1], log[|log| - 1];
      StoredWithinPersisted(init);
      if forall k :: 0 <= k < |log| && log[k].Persist? ==> log[k].stored {
        forall k | 0 <= k < |init| && init[k].Persist? ensures init[k].stored { assert init[k] == log[k]; }
      } else if last.Persist? && !last.stored {
        assert |StoredText(log)| < |PersistedText(log)|;
      } else {
        var k :| 0 <= k < |log| && log[k].Persist? && !log[k].stored;
        assert init[k] == log[k];
        var t := if last.Persist? then last.text else "";
        DifferAlso(StoredText(init), PersistedText(init), t);
      }
    }
  }

  /** After the agent ended, the stored messages are the kept text if and only if every insert
      succeeded: a failed insert loses its text for good. */
  lemma StoredExactlyWhenInsertsSucceed(c: Config, signals: seq<Signal>)
    requires c.hasDatabase && After(c, START, signals).status == Finished
    ensures var log := After(c, START, signals).log;
            StoredText(log) == KeptText(signals) <==> forall k :: 0 <= k < |log| && log[k].Persist? ==> log[k].stored
  {
    TextIsConserved(c, signals);
    EffectsAreInOrder(c, signals);
    StoredWithinPersisted(After(c, START, signals).log);
  }

  // ---------- From the agent to the database ----------

  /** The stream of one agent: announced, then anything but another announcement or end, then ended. */
  ghost predicate AgentRun(es: seq<StreamEvent>) {
    && |es| >= 2 && es[0].AgentStart? && es[|es| - 1].AgentEnd?
    && forall k :: 0 < k < |es| - 1 ==> !es[k].AgentStart? && !es[k].AgentEnd?
  }

  function AllText(es: seq<StreamEvent>): string {
    if es == [] then "" else (if es[0].Delta? then es[0].content else "") + AllText(es[1..])
  }

  /** The signals carry these events. */
  ghost predicate Carries(signals: seq<Signal>, es: seq<StreamEvent>) {
    |signals| == |es| && forall k :: 0 <= k < |es| ==> signals[k].Event? && signals[k].event == es[k]
  }

  lemma {:induction false} BodyIsKept(signals: seq<Signal>, es: seq<StreamEvent>)
    requires Carries(signals, es) && es != [] && es[|es| - 1].AgentEnd?
    requires forall k :: 0 <= k < |es| - 1 ==> !es[k].AgentStart? && !es[k].AgentEnd?
    ensures !NextIsStart(signals) && KeptText(signals) == AllText(es)
    ensures forall c, s: State :: s.status == Running ==> After(c, s, signals).status == Finished
    decreases |es|
  {
    if |es| == 1 {
      assert es[1..] == [] && signals[1..] == [];
      forall c, s: State | s.status == Running ensures After(c, s, signals).status == Finished {
        EndedStaysEnded(c, Step(c, s, signals[0]), signals[1..]);
      }
    } else {
      assert Carries(signals[1..], es[1..]);
      BodyIsKept(signals[1..], es[1..]);
      forall c, s: State | s.status == Running ensures After(c, s, signals).status == Finished {
        assert Step(c, s, signals[0]).status == Running;
      }
    }
  }

  ghost predicate AllStored(log: seq<Effect>) {
    forall k :: 0 <= k < |log| && log[k].Persist? ==> log[k].stored
  }

  lemma {:induction false} StoredSignalsStore(c: Config, s: State, signals: seq<Signal>)
    requires AllStored(s.log) && forall k :: 0 <= k < |signals| && signals[k].Event? ==> signals[k].stored
    ensures AllStored(After(c, s, signals).log)
    decreases |signals|
  {
    if signals != [] {
      assert AllStored(Step(c, s, signals[0]).log);
      StoredSignalsStore(c, Step(c, s, signals[0]), signals[1..]);
    }
  }

  /** Under every schedule of the bridge in which the backlog stays within the channel and the
      reader has caught up, the whole text of an agent's run is in the database at the end,
      provided the inserts succeed. */
  lemma WholeTextIsStored(c: Config, h: seq<Bridges.Action<StreamEvent>>, signals: seq<Signal>)
    requires c.hasDatabase && Bridges.NeverOverflows(h) && Bridges.Queue(h) == []
    requires AgentRun(Bridges.Parsed(h)) && Carries(signals, Bridges.Delivered(h))
    requires forall k :: 0 <= k < |signals| ==> signals[k].stored
    ensures After(c, START, signals).status == Finished
    ensures StoredText(After(c, START, signals).log) == AllText(Bridges.Parsed(h))
  {
    Bridges.LosslessExactlyWithinCapacity(h);
    var es := Bridges.Parsed(h);
    assert Bridges.Delivered(h) + [] == Bridges.Delivered(h);
    assert Carries(signals[1..], es[1..]);
    BodyIsKept(signals[1..], es[1..]);
    assert Step(c, START, signals[0]).status == Running;
    Empties("", AllText(es[1..]));
    StoredSignalsStore(c, START, signals);
    StoredExactlyWhenInsertsSucceed(c, signals);
  }
}
