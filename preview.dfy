/**
 * The preview sequencer: once triggered, each tick advances a virtual hour
 * (`currentPreCount`) instead of reading the clock, and the run ends by
 * itself when the count reaches 23.
 */
module Preview {

  /** `isPreModel` and `currentPreCount`. */
  datatype State = State(active: bool, count: int)

  /** The state at power-on and after a run ends. */
  const Idle: State := State(false, -1)

  /** The counter is -1 while idle and stays in [-1, 22] during a run. */
  predicate Valid(p: State) {
    -1 <= p.count <= 22 && (!p.active ==> p.count == -1)
  }

  /** `startPreModel`: restart the run from -1, whatever the current state. */
  function Trigger(): (p: State)
    ensures Valid(p) && p.active && p.count == -1
  {
    State(true, -1)
  }

  /** The state after a tick and the hour that tick uses. */
  datatype Step = Step(next: State, hour: int)

  /**
   * One tick of the sequencer. While previewing, the counter advances and is
   * the hour; on reaching 23 the run switches off and the counter returns to
   * -1. While idle, the clock's hour is used.
   */
  function Advance(p: State, clockHour: int): (s: Step)
    requires Valid(p)
    ensures Valid(s.next)
    ensures p.active ==> s.hour == p.count + 1 && 0 <= s.hour < 24
    ensures p.active ==> (s.next.active <==> s.hour < 23)
    ensures p.active ==> s.next == if s.hour < 23 then State(true, s.hour) else Idle
    ensures !p.active ==> s == Step(Idle, clockHour)
  {
    if p.active then
      var count := p.count + 1;
      if count >= 23 then Step(Idle, count) else Step(State(true, count), count)
    else
      Step(p, clockHour)
  }

  /** Progress is forced to the whole hour when preview is still on after the advance. */
  predicate Forced(s: Step) {
    s.next.active
  }

  /** What one tick used: its hour and whether progress was forced. */
  datatype Visit = Visit(hour: int, forced: bool)

  /** The final state and the visits of a run of ticks, one per clock hour read. */
  datatype Trace = Trace(final: State, visits: seq<Visit>)

  function Run(p: State, clockHours: seq<int>): (t: Trace)
    requires Valid(p)
    ensures Valid(t.final) && |t.visits| == |clockHours|
    decreases |clockHours|
  {
    if clockHours == [] then Trace(p, [])
    else
      var s := Advance(p, clockHours[0]);
      var rest := Run(s.next, clockHours[1..]);
      Trace(rest.final, [Visit(s.hour, Forced(s))] + rest.visits)
  }

  /**
   * From counter c, the remaining 23 - c ticks visit hours c + 1 .. 23 in
   * order, forced on all but hour 23, and leave the sequencer idle.
   */
  lemma {:induction false} RunFromCount(c: int, clockHours: seq<int>)
    requires -1 <= c <= 22 && |clockHours| == 23 - c
    ensures Run(State(true, c), clockHours)
            == Trace(Idle, seq(23 - c, i => Visit(c + 1 + i, c + 1 + i < 23)))
    decreases 23 - c
  {
    var s := Advance(State(true, c), clockHours[0]);
    if c < 22 {
      RunFromCount(c + 1, clockHours[1..]);
      var rest := Run(s.next, clockHours[1..]);
      assert rest.visits == seq(22 - c, i => Visit(c + 2 + i, c + 2 + i < 23));
      assert [Visit(s.hour, Forced(s))] + rest.visits
             == seq(23 - c, i => Visit(c + 1 + i, c + 1 + i < 23));
    }
  }

  /**
   * After a trigger, whatever the sequencer was doing, 24 ticks visit hours
   * 0, 1, ..., 23 in order with progress forced on the first 23 and the real
   * minute on the last, and leave the sequencer idle.
   */
  lemma PreviewVisitsEveryHourInOrder(clockHours: seq<int>)
    requires |clockHours| == 24
    ensures Run(Trigger(), clockHours) == Trace(Idle, seq(24, h => Visit(h, h < 23)))
  {
    RunFromCount(-1, clockHours);
  }

  /** While idle, every tick uses the clock's hour and the real minute. */
  lemma {:induction false} IdleFollowsClock(clockHours: seq<int>)
    ensures Run(Idle, clockHours)
            == Trace(Idle, seq(|clockHours|, i requires 0 <= i < |clockHours| => Visit(clockHours[i], false)))
    decreases |clockHours|
  {
    if clockHours != [] {
      IdleFollowsClock(clockHours[1..]);
    }
  }
}
