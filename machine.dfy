/**
 * The `myMachine` statechart: four flat states, an eventless transition out of
 * `Unprocessed`, two event-driven transitions and one final state.
 */
module Machine {
  import opened Wrappers

  datatype State = Unprocessed | Processing | WaitingInput | Processed

  /** The event alphabet, by `type` tag. */
  datatype Event = Process | Processed | Received

  /** The machine's context is the empty object. */
  datatype Context = Context()

  /** The state's key in the statechart, as `snapshot.value` reports it. */
  function StateName(s: State): string {
    match s
    case Unprocessed => "Unprocessed"
    case Processing => "Processing"
    case WaitingInput => "Waiting Input"
    case Processed => "Processed"
  }

  function ParseState(name: string): (r: Option<State>)
    ensures r.Some? ==> StateName(r.value) == name
  {
    if name == "Unprocessed" then Some(Unprocessed)
    else if name == "Processing" then Some(Processing)
    else if name == "Waiting Input" then Some(WaitingInput)
    else if name == "Processed" then Some(State.Processed)
    else None
  }

  function EventType(e: Event): string {
    match e
    case Process => "process"
    case Processed => "processed"
    case Received => "received"
  }

  /** Reads an event's `type` tag; any other tag is outside the alphabet. */
  function ParseEvent(t: string): (r: Option<Event>)
    ensures r.Some? ==> EventType(r.value) == t
  {
    if t == "process" then Some(Process)
    else if t == "processed" then Some(Event.Processed)
    else if t == "received" then Some(Received)
    else None
  }

  const Initial: State := Unprocessed

  predicate IsFinal(s: State) {
    s == State.Processed
  }

  /** The `always` transition of a state, if it has one. */
  function Eventless(s: State): Option<State> {
    if s == Unprocessed then Some(Processing) else None
  }

  /** How far along the process a state is. */
  function Rank(s: State): nat {
    match s
    case Unprocessed => 0
    case Processing => 1
    case WaitingInput => 2
    case Processed => 3
  }

  /** Follows eventless transitions until a state has none (xstate's microsteps). */
  function Settle(s: State): (r: State)
    ensures Eventless(r).None?
    ensures Rank(r) >= Rank(s)
    ensures Eventless(s).None? ==> r == s
    decreases 3 - Rank(s)
  {
    match Eventless(s)
    case None => s
    case Some(t) => Settle(t)
  }

  /** An entry of an `on` table: target and whether the transition re-enters. */
  datatype Transition = Transition(target: State, reenter: bool)

  /** The `on` tables of the four states. */
  function On(s: State, e: Event): (r: Option<Transition>)
    ensures r.Some? ==> !IsFinal(s) && Rank(r.value.target) == Rank(s) + 1
  {
    match (s, e)
    case (Processing, Processed) => Some(Transition(WaitingInput, true))
    case (WaitingInput, Received) => Some(Transition(State.Processed, false))
    case _ => None
  }

  /** The states a transition exits and enters: a self-transition that does not re-enter runs no exit or entry actions. */
  function ExitsAndEntries(source: State, t: Transition): (seq<State>, seq<State>) {
    if t.target == source && !t.reenter then ([], []) else ([source], [t.target])
  }

  /** One macrostep: take the `on` transition for `e`, then the eventless ones of the target. */
  function Step(s: State, e: Event): (r: Option<State>)
    ensures r.Some? <==> On(s, e).Some?
    ensures r.Some? ==> Eventless(r.value).None? && Rank(r.value) > Rank(s)
  {
    match On(s, e)
    case None => None
    case Some(t) => Some(Settle(t.target))
  }

  /** `snapshot.can(event)`. */
  predicate Can(s: State, e: Event)
    ensures Can(s, e) <==> On(s, e).Some?
    ensures Can(s, e) ==> !IsFinal(s)
  {
    Step(s, e).Some?
  }

  datatype Status = Active | Done

  /** The part of a persisted snapshot the model keeps. */
  datatype Snapshot = Snapshot(value: State, context: Context)

  function StatusOf(snap: Snapshot): Status {
    if IsFinal(snap.value) then Done else Active
  }

  /** The snapshot of a fresh actor after `start()`: the initial state with its eventless transitions taken. */
  function Started(): (r: Snapshot)
    ensures r.value == Processing && r.context == Context()
    ensures StatusOf(r) == Active
  {
    Snapshot(Settle(Initial), Context())
  }

  /** `actor.send(e)`: an event the current state has no transition for leaves it unchanged. */
  function Deliver(s: State, e: Event): (r: State)
    ensures r != s <==> Can(s, e)
    ensures Rank(r) >= Rank(s)
    ensures Eventless(s).None? ==> Eventless(r).None?
  {
    match Step(s, e)
    case None => s
    case Some(t) => t
  }

  /** `actor.send` of each event in turn: a settled state stays settled. */
  function Replay(s: State, es: seq<Event>): (r: State)
    ensures Eventless(s).None? ==> Eventless(r).None?
    decreases |es|
  {
    if es == [] then s else Replay(Deliver(s, es[0]), es[1..])
  }

  // ----- properties of the table -----

  lemma StateNamesRoundTrip(s: State)
    ensures ParseState(StateName(s)) == Some(s)
  {
  }

  /** Exactly `process`, `processed` and `received` are events. */
  lemma EventAlphabet(t: string)
    ensures ParseEvent(t).Some? <==> t == "process" || t == "processed" || t == "received"
    ensures forall e :: ParseEvent(EventType(e)) == Some(e)
  {
  }

  /** A started machine never rests in `Unprocessed`. */
  lemma SettledIsNeverUnprocessed(s: State)
    ensures Settle(s) != Unprocessed
    ensures Settle(Unprocessed) == Processing
  {
  }

  lemma ProcessingTakesProcessed()
    ensures On(Processing, Event.Processed) == Some(Transition(WaitingInput, true))
    ensures Step(Processing, Event.Processed) == Some(WaitingInput)
    ensures ExitsAndEntries(Processing, Transition(WaitingInput, true)) == ([Processing], [WaitingInput])
  {
  }

  lemma WaitingInputTakesReceived()
    ensures Step(WaitingInput, Received) == Some(State.Processed)
  {
  }

  /** `Processed` is final: no event and no eventless transition leaves it. */
  lemma FinalIsTerminal(e: Event)
    ensures IsFinal(State.Processed)
    ensures Step(State.Processed, e).None? && Eventless(State.Processed).None?
  {
  }

  /** No state has a transition for `process`. */
  lemma ProcessIsNeverAccepted(s: State)
    ensures !Can(s, Process)
  {
  }

  /** Each state accepts at most one event, and the accepted pairs are exactly the two table entries. */
  lemma CanExactly(s: State, e: Event)
    ensures Can(s, e) <==> (s == Processing && e == Event.Processed) || (s == WaitingInput && e == Received)
  {
  }

  /** Replaying events from a final state stays there. */
  lemma {:induction false} FinalIsAbsorbing(es: seq<Event>)
    ensures Replay(State.Processed, es) == State.Processed
    decreases |es|
  {
    if es != [] {
      FinalIsAbsorbing(es[1..]);
    }
  }

  /** Events only move a machine forward. */
  lemma {:induction false} ReplayAdvances(s: State, es: seq<Event>)
    ensures Rank(Replay(s, es)) >= Rank(s)
    decreases |es|
  {
    if es != [] {
      ReplayAdvances(Deliver(s, es[0]), es[1..]);
    }
  }

  /** Every state reachable from a started machine is one of the three declared states after `Unprocessed`. */
  lemma ReachableStates(es: seq<Event>)
    ensures Replay(Started().value, es) in {Processing, WaitingInput, State.Processed}
    ensures ParseState(StateName(Replay(Started().value, es))).Some?
  {
    ReplayAdvances(Started().value, es);
  }
}
