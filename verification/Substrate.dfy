/** Substrate as the driver sees it: the actor states, what the three lifecycle
    RPCs do to an actor, and the condition rows the driver derives from a state. */
module Substrate {
  import opened Prelude

  /** How a call comes out. LostReply: it took effect but its answer never arrived,
      which the driver sees as an error. */
  datatype Outcome = Success | Refused | LostReply

  datatype ActorState =
    | Unspecified | Resuming | Running | Suspending | Suspended | Crashed | Deleting | Reverting

  /** The state an accepted SuspendActor leaves; None when it is refused. A
      suspended actor is returned as it is. */
  function SuspendEffect(s: ActorState): Option<ActorState> {
    match s
    case Running => Some(Suspending)
    case Suspended => Some(Suspended)
    case _ => None
  }

  /** ResumeActor is a no-op on an actor that is already up or coming up. */
  function ResumeEffect(s: ActorState): Option<ActorState> {
    match s
    case Suspended => Some(Resuming)
    case Resuming => Some(Resuming)
    case Running => Some(Running)
    case _ => None
  }

  function RevertEffect(s: ActorState): Option<ActorState> {
    match s
    case Crashed => Some(Reverting)
    case Running => Some(Reverting)
    case _ => None
  }

  /** Where a transition that is under way ends; None when nothing is under way. */
  function Completion(s: ActorState): Option<ActorState> {
    match s
    case Resuming => Some(Running)
    case Suspending => Some(Suspended)
    case Reverting => Some(Suspended)
    case _ => None
  }

  datatype Condition = Condition(kind: string, status: string, reason: string)

  const STOPPED_ROWS := [
    Condition("Suspended", "True", "Suspended"),
    Condition("Ready", "False", "ContainerStopped")
  ]
  const STOP_IN_FLIGHT_ROWS := [Condition("Suspended", "False", "PodTerminating")]
  const SUBSTRATE_CHECKPOINT_ROW := Condition("Ready", "False", "DependenciesNotReady")

  function ActorStateConditions(state: ActorState, gatewayStopped: bool): seq<Condition> {
    if gatewayStopped && state in {Running, Resuming, Reverting, Suspended} then
      STOPPED_ROWS
    else if gatewayStopped && state == Suspending then
      STOP_IN_FLIGHT_ROWS
    else match state
      case Running => [Condition("Ready", "True", "ContainerRunning")]
      case Suspending => [SUBSTRATE_CHECKPOINT_ROW]
      case Suspended => [SUBSTRATE_CHECKPOINT_ROW]
      case Resuming =>
        [Condition("Bootstrapping", "True", "Resuming"), Condition("Ready", "False", "ContainerStarting")]
      case Reverting =>
        [Condition("Bootstrapping", "True", "Reverting"), Condition("Ready", "False", "ContainerStarting")]
      case Crashed => [Condition("Ready", "False", "ContainerExited")]
      case Deleting => [Condition("Ready", "False", "ContainerStopped")]
      case Unspecified => [Condition("Ready", "Unknown", "Unspecified")]
  }

  /** What each row of a report says about the actor, and nothing else says it. */
  lemma RowsTell(s: ActorState, marked: bool)
    ensures var rows := ActorStateConditions(s, marked);
      && (Condition("Ready", "True", "ContainerRunning") in rows <==> s == Running && !marked)
      && (Condition("Suspended", "True", "Suspended") in rows <==>
            marked && s in {Running, Resuming, Reverting, Suspended})
      && (Condition("Suspended", "False", "PodTerminating") in rows <==> marked && s == Suspending)
      && (Condition("Ready", "False", "DependenciesNotReady") in rows <==> !marked && s in {Suspending, Suspended})
      && (Condition("Ready", "False", "ContainerStarting") in rows <==> !marked && s in {Resuming, Reverting})
      && (Condition("Bootstrapping", "True", "Resuming") in rows <==> !marked && s == Resuming)
      && (Condition("Bootstrapping", "True", "Reverting") in rows <==> !marked && s == Reverting)
      && (Condition("Ready", "False", "ContainerExited") in rows <==> s == Crashed)
      && (Condition("Ready", "False", "ContainerStopped") in rows <==>
            s == Deleting || (marked && s in {Running, Resuming, Reverting, Suspended}))
      && (Condition("Ready", "Unknown", "Unspecified") in rows <==> s == Unspecified)
      && |rows| == (if s in {Resuming, Reverting} || (marked && s in {Running, Suspended}) then 2 else 1)
  {
  }

  /** The state diagram, edge by edge: where each RPC and each completion takes an
      actor, and that nothing else moves it. */
  lemma EffectsTell(s: ActorState, t: ActorState)
    ensures SuspendEffect(s) == Some(t) <==> (s == Running && t == Suspending) || (s == t == Suspended)
    ensures ResumeEffect(s) == Some(t) <==>
              (s == Suspended && t == Resuming) || (s == t == Resuming) || (s == t == Running)
    ensures RevertEffect(s) == Some(t) <==> s in {Crashed, Running} && t == Reverting
    ensures Completion(s) == Some(t) <==>
              (s == Resuming && t == Running) || (s in {Suspending, Reverting} && t == Suspended)
  {
  }
}
