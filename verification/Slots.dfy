/** Connection slots over all sockets of one process: opens, failed opens and any
    number of Close calls per socket, interleaved in any order. */
module Slots {
  import opened Sockets

  /** A socket's claim on a slot. `Closing` is between marking it closed and release. */
  datatype Hold = Opening | Open | Closing | Freed

  datatype Process = Process(tokens: nat, holds: map<nat, Hold>)

  datatype Step =
    | Begin(id: nat)      // openSocket asks for a slot
    | OpenFails(id: nat)  // connect failed: release
    | OpenWorks(id: nat)
    | CloseMarks(id: nat) // close, up to unlocking; later calls return at once
    | Releases(id: nat)   // the release of the call that marked it closed

  predicate Enabled(p: Process, step: Step) {
    match step
    case Begin(id) => id !in p.holds
    case OpenFails(id) => id in p.holds && p.holds[id] == Opening
    case OpenWorks(id) => id in p.holds && p.holds[id] == Opening
    case CloseMarks(id) => id in p.holds && p.holds[id] != Opening
    case Releases(id) => id in p.holds && p.holds[id] == Closing
  }

  // Taking from an empty pool would block; that leaves the count as it was.
  function Give(p: Process, id: nat): Process {
    Process(if p.tokens > 0 then p.tokens - 1 else 0, p.holds[id := Freed])
  }

  function Apply(p: Process, step: Step): Process
    requires Enabled(p, step)
  {
    match step
    case Begin(id) => if p.tokens < MAX_CONNECTIONS then Process(p.tokens + 1, p.holds[id := Opening]) else p
    case OpenFails(id) => Give(p, id)
    case OpenWorks(id) => p.(holds := p.holds[id := Open])
    case CloseMarks(id) => if p.holds[id] == Open then p.(holds := p.holds[id := Closing]) else p
    case Releases(id) => Give(p, id)
  }

  predicate Legal(p: Process, steps: seq<Step>)
    decreases |steps|
  {
    steps == [] || (Enabled(p, steps[0]) && Legal(Apply(p, steps[0]), steps[1..]))
  }

  function Run(p: Process, steps: seq<Step>): Process
    requires Legal(p, steps)
    decreases |steps|
  {
    if steps == [] then p else Run(Apply(p, steps[0]), steps[1..])
  }

  function Holding(p: Process): set<nat> { set id | id in p.holds && p.holds[id] != Freed }

  ghost predicate Inv(p: Process) { p.tokens == |Holding(p)| <= MAX_CONNECTIONS }

  lemma StepKeepsInv(p: Process, step: Step)
    requires Inv(p) && Enabled(p, step)
    ensures Inv(Apply(p, step))
  {
    var id, p' := step.id, Apply(p, step);
    if Holding(p') == Holding(p) + {id} {
    } else if Holding(p') == Holding(p) - {id} {
    } else {
      assert forall i :: i in Holding(p') && i != id <==> i in Holding(p) && i != id;
    }
  }

  /** In every run the tokens held are the sockets opened and not yet released, at
      most 5, and a release finds its own token there, so it never blocks. */
  lemma {:induction false} SlotsAreConserved(p: Process, steps: seq<Step>)
    requires Inv(p) && Legal(p, steps)
    ensures Inv(Run(p, steps))
    ensures forall id :: Enabled(Run(p, steps), Releases(id)) || Enabled(Run(p, steps), OpenFails(id))
                         ==> Run(p, steps).tokens > 0
    decreases |steps|
  {
    if steps == [] {
      forall id | Enabled(p, Releases(id)) || Enabled(p, OpenFails(id)) ensures p.tokens > 0 {
        assert id in Holding(p);
      }
    } else {
      StepKeepsInv(p, steps[0]);
      SlotsAreConserved(Apply(p, steps[0]), steps[1..]);
    }
  }

  function Gives(steps: seq<Step>, id: nat): nat {
    if steps == [] then 0
    else (if steps[0] == Releases(id) || steps[0] == OpenFails(id) then 1 else 0) + Gives(steps[1..], id)
  }

  /** However often it is closed, a socket gives its slot back once if it ends
      freed, and not at all otherwise. */
  lemma {:induction false} OneTokenEach(p: Process, steps: seq<Step>, id: nat)
    requires Legal(p, steps)
    ensures var before, after := IsFreed(p, id), IsFreed(Run(p, steps), id);
            Gives(steps, id) == if after && !before then 1 else 0
    ensures IsFreed(p, id) ==> IsFreed(Run(p, steps), id)
    decreases |steps|
  {
    if steps != [] {
      OneTokenEach(Apply(p, steps[0]), steps[1..], id);
    }
  }

  predicate IsFreed(p: Process, id: nat) { id in p.holds && p.holds[id] == Freed }

  /** A socket is given a slot exactly when fewer than five others hold one. */
  lemma FiveAtMost(p: Process, id: nat)
    requires Inv(p) && Enabled(p, Begin(id))
    ensures id in Apply(p, Begin(id)).holds <==> |Holding(p)| < 5
    ensures p.tokens <= 5
  {
  }
}
