/** What the finalizer guards, told from the calls of the actuator that were made and how they ended. */
module LifecycleEvents {
  import opened Lifecycle
  import LifecycleSafety

  /** Some call of the actuator set the stack up, and no later one took it down without error. */
  ghost predicate Outstanding(events: seq<Event>) {
    exists i :: 0 <= i < |events| && SetUpCall(events[i]) &&
                forall j :: i < j < |events| ==> !TakeDownDone(events[j])
  }

  predicate SetUpCall(e: Event) {
    e.Acted? && (e.path.ReconcilePath? || e.path == RestorePath)
  }

  predicate TakeDownDone(e: Event) {
    e.Acted? && (e.path == DeletePath || e.path == MigratePath) && e.ok
  }

  function EventsOf(history: seq<Finished>): seq<Event> {
    if history == [] then [] else EventsOf(history[..|history| - 1]) + history[|history| - 1].events
  }

  function AllEvents(s: System): seq<Event> {
    EventsOf(s.history) + s.run
  }

  lemma EndsAreKept(s: System, ok: bool)
    ensures AllEvents(End(s, ok)) == AllEvents(s)
  {
    var n := End(s, ok);
    assert n.history[..|n.history| - 1] == s.history;
  }

  lemma OneMoreEvent(events: seq<Event>, e: Event)
    ensures Outstanding(events + [e]) <==> SetUpCall(e) || (Outstanding(events) && !TakeDownDone(e))
  {
    var all := events + [e];
    if SetUpCall(e) {
      assert all[|events|] == e;
    }
    if Outstanding(events) && !TakeDownDone(e) {
      var i :| 0 <= i < |events| && SetUpCall(events[i]) && forall j :: i < j < |events| ==> !TakeDownDone(events[j]);
      assert SetUpCall(all[i]) && forall j :: i < j < |all| ==> !TakeDownDone(all[j]);
    }
    if Outstanding(all) && !SetUpCall(e) {
      var i :| 0 <= i < |all| && SetUpCall(all[i]) && forall j :: i < j < |all| ==> !TakeDownDone(all[j]);
      assert all[|events|] == e;
      assert SetUpCall(events[i]) && forall j :: i < j < |events| ==> events[j] == all[j];
    }
  }

  /** The machine's own mark says what its events say. */
  ghost predicate Marked(s: System) {
    s.dirty <==> Outstanding(AllEvents(s))
  }

  lemma NoEvent(s: System, next: System)
    requires Marked(s) && next.dirty == s.dirty && next.history == s.history && next.run == s.run
    ensures Marked(next) && forall ok :: Marked(End(next, ok))
  {
    forall ok ensures AllEvents(End(next, ok)) == AllEvents(next) {
      EndsAreKept(next, ok);
    }
  }

  lemma OneEvent(s: System, e: Event, next: System)
    requires Marked(s) && next.history == s.history && next.run == s.run + [e]
    requires next.dirty == if SetUpCall(e) then true else if TakeDownDone(e) then false else s.dirty
    ensures Marked(next) && forall ok :: Marked(End(next, ok))
  {
    assert AllEvents(next) == AllEvents(s) + [e];
    OneMoreEvent(AllEvents(s), e);
    forall ok ensures AllEvents(End(next, ok)) == AllEvents(next) {
      EndsAreKept(next, ok);
    }
  }

  lemma ScreenMarked(s: System, t: Turn)
    requires Marked(s)
    ensures Marked(Screen(s, t)) && Marked(Fetch(s, t))
  {
    NoEvent(s, s);
    NoEvent(s, s.(phase := Ready));
    if s.logging.Some? {
      NoEvent(s, s.(phase := Clearing(s.logging.value)));
      NoEvent(s, s.(phase := Fetched(s.logging.value)));
    }
    hide Marked;
  }

  lemma DecideMarked(rules: Rules, s: System, t: Turn, local: Logging)
    requires Marked(s)
    ensures Marked(Decide(rules, s, t, local))
  {
    NoEvent(s, s);
    if Dispatch(rules, local).Some? {
      NoEvent(s, s.(phase := FirstPhase(Dispatch(rules, local).value, local)));
    }
    OneEvent(s, SkippedDelete, Log(s, SkippedDelete));
    hide Marked, Dispatch, FirstPhase;
  }

  lemma RepliedMarked(s: System, reply: Reply, phase: Phase)
    requires Marked(s)
    ensures Marked(Replied(s, reply).(phase := phase)) && forall ok :: Marked(End(Replied(s, reply), ok))
  {
    NoEvent(s, Replied(s, reply));
    NoEvent(s, Replied(s, reply).(phase := phase));
  }

  lemma LoggedMarked(s: System, reply: Reply, e: Event, phase: Phase)
    requires Marked(s) && !e.Acted?
    ensures
      var next := Log(Replied(s, reply), e);
      Marked(next.(phase := phase)) && forall ok :: Marked(End(next, ok))
  {
    OneEvent(s, e, Log(Replied(s, reply), e));
    OneEvent(s, e, Log(Replied(s, reply), e).(phase := phase));
  }

  lemma ReplyMarked(s: System, t: Turn, path: Path, local: Logging)
    requires Marked(s)
    ensures Marked(Clear(s, t, local)) && Marked(Add(s, t, path, local)) && Marked(Unannotate(s, t, local))
  {
    var a := RemoveAnnotation(s.logging, s.clock, local, t.outcome);
    var b := AddFinalizers(s.logging, s.clock, local, t.outcome);
    RepliedMarked(s, a, Ready);
    RepliedMarked(s, b, Announcing(path, b.local));
    hide Marked, RemoveAnnotation, AddFinalizers;
  }

  lemma StatusMarked(s: System, t: Turn, path: Path, local: Logging, acted: bool)
    requires Marked(s)
    ensures Marked(Announce(s, t, path, local)) && Marked(Report(s, t, path, local, acted))
  {
    var begun := LastOperation(RecordedType(path), Processing);
    var a := PatchStatus(s.logging, s.clock, local, t.outcome, begun);
    LoggedMarked(s, a, Status(begun.kind, begun.state, a.ok), Acting(path, a.local));
    var last := if acted then LastOperation(RecordedType(path), Succeeded)
                else LastOperation(RecordedOnError(path), Error);
    var b := PatchStatus(s.logging, s.clock, local, t.outcome, last);
    LoggedMarked(s, b, Status(last.kind, last.state, b.ok), LaterPhase(path, b.local));
    hide Marked, PatchStatus, RecordedType, RecordedOnError, LaterPhase;
  }

  lemma ReleaseMarked(s: System, t: Turn, path: Path, local: Logging)
    requires Marked(s)
    ensures Marked(Release(s, t, path, local))
  {
    var r := if path.MigratePath? then RemoveAllFinalizers(s.logging, s.clock, local, t.outcome)
             else RemoveFinalizers(s.logging, s.clock, local, t.outcome);
    LoggedMarked(s, r, Released, Unannotating(path, r.local));
    hide Marked, RemoveAllFinalizers, RemoveFinalizers;
  }

  lemma PerformMarked(s: System, t: Turn, path: Path, local: Logging)
    requires Marked(s)
    ensures Marked(Perform(s, t, path, local))
  {
    var (objects, ok) := Act(s, path, t);
    OneEvent(s, Acted(s.seed, path, ok), Perform(s, t, path, local));
    hide Marked;
  }

  lemma CallMarked(rules: Rules, s: System, t: Turn)
    requires Marked(s)
    ensures Marked(Call(rules, s, t))
  {
    hide Marked, Screen, Clear, Fetch, Decide, Add, Announce, Perform, Report, Release, Unannotate;
    match s.phase {
      case Idle => ScreenMarked(s, t);
      case Clearing(local) => ReplyMarked(s, t, DeletePath, local);
      case Ready => ScreenMarked(s, t);
      case Fetched(local) => DecideMarked(rules, s, t, local);
      case Adding(path, local) => ReplyMarked(s, t, path, local);
      case Announcing(path, local) => StatusMarked(s, t, path, local, true);
      case Acting(path, local) => PerformMarked(s, t, path, local);
      case Reporting(path, local, acted) => StatusMarked(s, t, path, local, acted);
      case Releasing(path, local) => ReleaseMarked(s, t, path, local);
      case Unannotating(path, local) => ReplyMarked(s, t, path, local);
    }
  }

  lemma {:induction false} TurnsMarked(rules: Rules, s: System, turns: seq<Turn>)
    requires Marked(s)
    ensures Marked(NextAll(rules, s, turns))
    decreases |turns|
  {
    if turns != [] {
      var next := Interfere(s, turns[0].env);
      assert AllEvents(next) == AllEvents(s) && next.dirty == s.dirty;
      CallMarked(rules, next, turns[0]);
      TurnsMarked(rules, Next(rules, s, turns[0]), turns[1..]);
    }
  }

  /**
   In every reachable state: if a reconciliation or restoration called the actuator, and no deletion or migration since
   then called it without error, the object exists and carries the finalizer.
   */
  lemma OutstandingIsGuarded(rules: Rules, s: System, turns: seq<Turn>)
    requires Initial(s)
    ensures
      var r := NextAll(rules, s, turns);
      Outstanding(AllEvents(r)) ==>
        r.logging.Some? && "extensions.gardener.cloud/logging" in r.logging.value.finalizers
  {
    assert AllEvents(s) == [];
    TurnsMarked(rules, s, turns);
    LifecycleSafety.FinalizerGuardsTheStack(rules, s, turns);
    hide NextAll, Outstanding;
  }
}
