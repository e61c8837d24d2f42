/** FpsCounter.cs: frames drawn are counted, and once more than a second of
    game time has accumulated the count becomes the published rate. */
module Fps {

  /** TimeSpan.FromSeconds(1), in TimeSpan ticks of 100 ns. */
  const OneSecond: int := 10_000_000

  /** The counter's fields as one value. */
  datatype FpsState = FpsState(rate: int, counter: int, elapsedCounterTime: int)

  /** What OnUpdate makes of the state after `elapsed` ticks of game time. */
  function Updated(s: FpsState, elapsed: int): FpsState {
    var total := s.elapsedCounterTime + elapsed;
    if total > OneSecond then FpsState(s.counter, 0, total - OneSecond)
    else s.(elapsedCounterTime := total)
  }

  /** What OnDraw makes of the state. */
  function Drawn(s: FpsState): FpsState {
    s.(counter := s.counter + 1)
  }

  /** Neither the rate nor the frame count is ever negative. */
  ghost predicate Counts(s: FpsState) {
    0 <= s.rate && 0 <= s.counter
  }

  /** Both operations keep the counts non-negative. */
  lemma CountsPreserved(s: FpsState, elapsed: int)
    requires Counts(s)
    ensures Counts(Updated(s, elapsed)) && Counts(Drawn(s))
  {
  }

  /** When more than a second has accumulated, the rate becomes the number of
      frames drawn since the last rollover and the count restarts; otherwise
      the rate and the count are untouched. */
  lemma RolloverPublishesCount(s: FpsState, elapsed: int)
    ensures var total := s.elapsedCounterTime + elapsed;
            var u := Updated(s, elapsed);
            (total > OneSecond ==> u.rate == s.counter && u.counter == 0) &&
            (total <= OneSecond ==> u.rate == s.rate && u.counter == s.counter)
  {
  }

  /** Exactly one second is taken off per update, however long the frame:
      when more than two seconds have accumulated, the next update with no
      elapsed time rolls over again and publishes a rate of 0. */
  lemma OneRolloverPerUpdate(s: FpsState, elapsed: int)
    requires s.elapsedCounterTime + elapsed > 2 * OneSecond
    ensures Updated(s, elapsed).elapsedCounterTime == s.elapsedCounterTime + elapsed - OneSecond
    ensures Updated(Updated(s, elapsed), 0).rate == 0 && Updated(Updated(s, elapsed), 0).counter == 0
    ensures Updated(Updated(s, elapsed), 0).elapsedCounterTime == s.elapsedCounterTime + elapsed - 2 * OneSecond
  {
  }

  /** n draws followed by an update that rolls over publish n as the rate. */
  lemma {:induction false} DrawsThenRollover(s: FpsState, n: nat, elapsed: int)
    requires s.counter == 0
    requires s.elapsedCounterTime + elapsed > OneSecond
    ensures Updated(DrawnTimes(s, n), elapsed).rate == n
    ensures Updated(DrawnTimes(s, n), elapsed).counter == 0
  {
    DrawnTimesCounts(s, n);
  }

  /** The state after n calls of OnDraw. */
  function DrawnTimes(s: FpsState, n: nat): FpsState {
    if n == 0 then s else Drawn(DrawnTimes(s, n - 1))
  }

  lemma {:induction false} DrawnTimesCounts(s: FpsState, n: nat)
    ensures DrawnTimes(s, n) == s.(counter := s.counter + n)
  {
    if n > 0 {
      DrawnTimesCounts(s, n - 1);
    }
  }

  class FpsCounter {
    var Rate: int
    var counter: int
    var elapsedCounterTime: int

    function State(): FpsState
      reads this
    {
      FpsState(Rate, counter, elapsedCounterTime)
    }

    constructor ()
      ensures State() == FpsState(0, 0, 0)
    {
      Rate := 0;
      counter := 0;
      elapsedCounterTime := 0;
    }

    method OnUpdate(elapsedGameTime: int)
      modifies this
      ensures State() == Updated(old(State()), elapsedGameTime)
    {
      elapsedCounterTime := elapsedCounterTime + elapsedGameTime;
      if elapsedCounterTime > OneSecond {
        elapsedCounterTime := elapsedCounterTime - OneSecond;
        Rate := counter;
        counter := 0;
      }
    }

    method OnDraw()
      modifies this
      ensures State() == Drawn(old(State()))
    {
      counter := counter + 1;
    }
  }
}
