/**
 A Slots as the rest of an instance sees it: whether it is closed, who of its
 threads is inside the engine, and whether it still has the context's record.
 */
module SlotsView {
  datatype Use = Idle | Own | ByPost(p: nat)
  datatype Phase = Running | Detached | Done
  datatype View = View(closed: bool, engine: Use, phase: Phase)

  datatype ViewStep = OwnBegin | PostBegin(p: nat) | CallEnd | SetClosed | Detach | Finish

  predicate Enabled(v: View, l: ViewStep) {
    match l
    case OwnBegin => v.engine.Idle? && v.phase.Running?
    case PostBegin(_) => v.engine.Idle? && !v.closed
    case CallEnd => !v.engine.Idle?
    case SetClosed => v.engine.Idle?
    case Detach => v.phase.Running? && v.closed && v.engine.Idle?
    case Finish => v.phase.Detached?
  }

  function Apply(v: View, l: ViewStep): View
    requires Enabled(v, l)
  {
    match l
    case OwnBegin => v.(engine := Own)
    case PostBegin(p) => v.(engine := ByPost(p))
    case CallEnd => v.(engine := Idle)
    case SetClosed => v.(closed := true)
    case Detach => v.(phase := Detached)
    case Finish => v.(phase := Done)
  }
}
