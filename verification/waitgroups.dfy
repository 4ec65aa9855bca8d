/**
 * The `sync.WaitGroup` that gates building the event record, reduced to its
 * counter: `Add(3)` before the listeners are registered, one `Done` per
 * handler, and `Wait` returning once the counter is zero.
 */
module WaitGroups {
  import opened Results

  datatype WaitGroup = WaitGroup(counter: nat)

  /** Go panics with "sync: negative WaitGroup counter". */
  datatype WaitGroupError = NegativeCounter

  /** `Add(delta)`: fails instead of letting the counter drop below zero. */
  function Add(wg: WaitGroup, delta: int): (r: Result<WaitGroup, WaitGroupError>)
    ensures r.Success? <==> wg.counter + delta >= 0
    ensures r.Success? ==> r.value.counter == wg.counter + delta
  {
    if wg.counter + delta < 0 then Failure(NegativeCounter)
    else Success(WaitGroup(wg.counter + delta))
  }

  /** `Done()` is `Add(-1)`. */
  function Done(wg: WaitGroup): (r: Result<WaitGroup, WaitGroupError>)
    ensures r.Success? <==> wg.counter > 0
    ensures r.Success? ==> r.value.counter == wg.counter - 1
  {
    Add(wg, -1)
  }

  /** `Wait()` no longer blocks. */
  predicate Released(wg: WaitGroup)
  {
    wg.counter == 0
  }

  /** n handlers each calling `Done` once, one after the other. */
  function DoneTimes(wg: WaitGroup, n: nat): Result<WaitGroup, WaitGroupError>
    decreases n
  {
    if n == 0 then Success(wg)
    else
      match Done(wg)
      case Failure(e) => Failure(e)
      case Success(wg') => DoneTimes(wg', n - 1)
  }

  /**
   * A counter of c survives exactly c calls of `Done`, is released after
   * exactly c of them and never before, and the next call panics.
   */
  lemma {:induction false} DoneTimesSpec(wg: WaitGroup, n: nat)
    ensures DoneTimes(wg, n).Success? <==> n <= wg.counter
    ensures n <= wg.counter ==> DoneTimes(wg, n).value.counter == wg.counter - n
    ensures n <= wg.counter ==> (Released(DoneTimes(wg, n).value) <==> n == wg.counter)
    decreases n
  {
    if n > 0 && wg.counter > 0 {
      DoneTimesSpec(WaitGroup(wg.counter - 1), n - 1);
    }
  }
}
