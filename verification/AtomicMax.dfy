/** The lock-free maximum: every thread loads the cell and swaps its own value in until the cell is no smaller.
    It keeps the deepest queue seen and the longest wait. */
module AtomicMax {

  datatype Pc = Load | Compare(cur: int) | Finished

  datatype Thread = Thread(value: int, pc: Pc)

  datatype State = State(cell: int, threads: seq<Thread>)

  /** One step of thread `i`: load, then stop if nothing is to be gained, else compare-and-swap or start over. */
  function Step(s: State, i: nat): State
    requires i < |s.threads|
  {
    var t := s.threads[i];
    match t.pc
    case Load => s.(threads := s.threads[i := t.(pc := if t.value <= s.cell then Finished else Compare(s.cell))])
    case Compare(cur) =>
      if s.cell == cur then State(t.value, s.threads[i := t.(pc := Finished)])
      else s.(threads := s.threads[i := t.(pc := Load)])
    case Finished => s
  }

  /** The state after a schedule that names the thread taking each step. */
  function After(s: State, schedule: seq<nat>): State {
    if schedule == [] then s
    else
      var t, i := After(s, schedule[..|schedule| - 1]), schedule[|schedule| - 1];
      if i < |t.threads| then Step(t, i) else t
  }

  ghost predicate Inv(s: State, start: int, values: seq<int>) {
    && |s.threads| == |values|
    && (forall i | 0 <= i < |values| :: s.threads[i].value == values[i])
    && start <= s.cell
    && (s.cell == start || s.cell in values)
    && (forall i | 0 <= i < |values| :: s.threads[i].pc.Finished? ==> values[i] <= s.cell)
    && (forall i | 0 <= i < |values| :: s.threads[i].pc.Compare? ==> s.threads[i].pc.cur < values[i])
  }

  lemma StepKeepsInv(s: State, start: int, values: seq<int>, i: nat)
    requires Inv(s, start, values) && i < |s.threads|
    ensures Inv(Step(s, i), start, values) && s.cell <= Step(s, i).cell
  {
    assert s.threads[i].value == values[i];
  }

  lemma {:induction false} Reachable(start: int, values: seq<int>, schedule: seq<nat>)
    ensures Inv(After(State(start, seq(|values|, i requires 0 <= i < |values| => Thread(values[i], Load))), schedule), start, values)
  {
    var s := State(start, seq(|values|, i requires 0 <= i < |values| => Thread(values[i], Load)));
    if schedule != [] {
      Reachable(start, values, schedule[..|schedule| - 1]);
      var t, i := After(s, schedule[..|schedule| - 1]), schedule[|schedule| - 1];
      if i < |t.threads| {
        StepKeepsInv(t, start, values, i);
      }
    }
  }

  /** In every schedule the cell holds the start or some thread's value, and no value of a finished thread is
      larger; so when all have finished it holds the maximum. */
  lemma HoldsMaximum(start: int, values: seq<int>, schedule: seq<nat>)
    ensures var s := After(State(start, seq(|values|, i requires 0 <= i < |values| => Thread(values[i], Load))), schedule);
            && start <= s.cell && (s.cell == start || s.cell in values)
            && |s.threads| == |values|
            && (forall i | 0 <= i < |values| && s.threads[i].pc.Finished? :: values[i] <= s.cell)
  {
    Reachable(start, values, schedule);
  }
}
