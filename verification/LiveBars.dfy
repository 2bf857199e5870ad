/** The live bar source: strictly increasing bars, and a gap is passed over only while unarmed. */
module LiveBars {
  import opened Prelude

  /** Instants are seconds; a bar is stamped with the start of its minute. */
  datatype VendorBar = VendorBar(
    instant: int, symbol: string, open: real, high: real, low: real, close: real, volume: real)

  /**
   * What the world does during one round of waiting: whether the session had ended and a position was open
   * then; the current minute; the bar that came within the round's deadline, if one did, and whether it came
   * after it; and whether a position is open when the round is judged.
   */
  datatype Poll = Poll(ended: bool, openAtEnd: bool, minute: int, arrival: Option<VendorBar>, late: bool, held: bool)

  datatype Outcome =
    | Emitted(bar: VendorBar)
    | Exhausted
    | Outage(expected: int)
    | LateStart(expected: int)
    | InteriorGap(got: int, expected: int)
    | WrongContract
    | BadValues
    | NonMonotonic
    | Waiting

  const MINUTE := 60

  class LiveBarSource {
    /** Regular hours inside the strategy's active window. */
    const active: int -> bool
    const frontContract: int -> string
    const soundValues: VendorBar -> bool
    var lastEmitted: Option<int>

    constructor (active: int -> bool, frontContract: int -> string, soundValues: VendorBar -> bool)
      ensures this.active == active && this.frontContract == frontContract && this.soundValues == soundValues
      ensures lastEmitted == None
    {
      this.active := active;
      this.frontContract := frontContract;
      this.soundValues := soundValues;
      lastEmitted := None;
    }

    predicate Armed(held: bool, minute: int) {
      held || active(minute)
    }

    /** The minute a round waits for: the next one, or the current one before anything has been emitted. */
    function Expected(last: Option<int>, poll: Poll): int {
      if last.None? then poll.minute else last.value + MINUTE
    }

    predicate ArmedFor(last: Option<int>, poll: Poll) {
      poll.held || active(Expected(last, poll))
    }

    /** A first bar that comes after its deadline, when its minute was armed. */
    predicate TooLate(last: Option<int>, poll: Poll) {
      last.None? && poll.late && ArmedFor(last, poll)
    }

    /** A bar the source may hand on: the front contract's, sound, and after everything emitted so far. */
    predicate Acceptable(bar: VendorBar, last: Option<int>) {
      bar.symbol == frontContract(bar.instant) && soundValues(bar) && (last.Some? ==> bar.instant > last.value)
    }

    /** A later bar that leaves out an armed minute. */
    predicate LeavesGap(bar: VendorBar, last: Option<int>, poll: Poll) {
      last.Some? && ArmedFor(last, poll) && bar.instant != Expected(last, poll)
    }

    /** What warrants each outcome of a round; `Waiting` means that the round is passed over. */
    predicate Warranted(out: Outcome, last: Option<int>, poll: Poll) {
      if poll.ended && !poll.openAtEnd then out.Exhausted?
      else if poll.arrival.None? then
        if ArmedFor(last, poll) then out == Outage(Expected(last, poll)) else out.Waiting?
      else
        var bar := poll.arrival.value;
        match out
        case Emitted(b) => b == bar && Acceptable(bar, last) && !TooLate(last, poll) && !LeavesGap(bar, last, poll)
        case LateStart(expected) => TooLate(last, poll) && expected == Expected(last, poll)
        case WrongContract => !TooLate(last, poll) && bar.symbol != frontContract(bar.instant)
        case BadValues => !TooLate(last, poll) && bar.symbol == frontContract(bar.instant) && !soundValues(bar)
        case NonMonotonic =>
          && bar.symbol == frontContract(bar.instant) && soundValues(bar)
          && last.Some? && bar.instant <= last.value
        case InteriorGap(got, expected) =>
          Acceptable(bar, last) && LeavesGap(bar, last, poll) && got == bar.instant && expected == Expected(last, poll)
        case _ => false
    }

    /** Every round has one outcome, so what warrants an outcome forces it. */
    lemma {:induction false} OneOutcome(last: Option<int>, poll: Poll) returns (out: Outcome)
      ensures Warranted(out, last, poll)
      ensures forall other :: Warranted(other, last, poll) ==> other == out
    {
      if poll.ended && !poll.openAtEnd {
        return Exhausted;
      } else if poll.arrival.None? {
        return if ArmedFor(last, poll) then Outage(Expected(last, poll)) else Waiting;
      }
      var bar := poll.arrival.value;
      out := if TooLate(last, poll) then LateStart(Expected(last, poll))
             else if bar.symbol != frontContract(bar.instant) then WrongContract
             else if !soundValues(bar) then BadValues
             else if last.Some? && bar.instant <= last.value then NonMonotonic
             else if LeavesGap(bar, last, poll) then InteriorGap(bar.instant, Expected(last, poll))
             else Emitted(bar);
    }

    /** Each minute passed over moves the source's clock on, once it has emitted anything. */
    function Advanced(from: Option<int>, misses: nat): Option<int> {
      if from.None? then None else Some(from.value + misses * MINUTE)
    }

    /** The first `n` rounds are passed over. */
    predicate Skipped(from: Option<int>, polls: seq<Poll>, n: nat)
      requires n <= |polls|
    {
      forall i: nat :: i < n ==> Warranted(Waiting, Advanced(from, i), polls[i])
    }

    method Next(polls: seq<Poll>) returns (out: Outcome, used: nat)
      modifies this
      ensures used <= |polls|
      ensures out.Waiting? ==>
        && used == |polls| && Skipped(old(lastEmitted), polls, used)
        && lastEmitted == Advanced(old(lastEmitted), used)
      ensures !out.Waiting? ==>
        && used > 0 && Skipped(old(lastEmitted), polls, used - 1)
        && Warranted(out, Advanced(old(lastEmitted), used - 1), polls[used - 1])
        && lastEmitted == (if out.Emitted? then Some(out.bar.instant) else Advanced(old(lastEmitted), used - 1))
    {
      used := 0;
      while used < |polls|
        invariant 0 <= used <= |polls|
        invariant lastEmitted == Advanced(old(lastEmitted), used)
        invariant Skipped(old(lastEmitted), polls, used)
      {
        var poll := polls[used];
        used := used + 1;
        if poll.ended && !poll.openAtEnd {
          return Exhausted, used;
        }
        var coldStart := lastEmitted.None?;
        var expected := if coldStart then poll.minute else lastEmitted.value + MINUTE;
        if poll.arrival.None? {
          if Armed(poll.held, expected) {
            return Outage(expected), used;
          }
          if !coldStart {
            lastEmitted := Some(expected);
          }
        } else {
          var bar := poll.arrival.value;
          if coldStart && poll.late && Armed(poll.held, expected) {
            return LateStart(expected), used;
          }
          if bar.symbol != frontContract(bar.instant) {
            return WrongContract, used;
          }
          if !soundValues(bar) {
            return BadValues, used;
          }
          if lastEmitted.Some? && bar.instant <= lastEmitted.value {
            return NonMonotonic, used;
          }
          if Armed(poll.held, expected) && !coldStart && bar.instant != expected {
            return InteriorGap(bar.instant, expected), used;
          }
          lastEmitted := Some(bar.instant);
          return Emitted(bar), used;
        }
      }
      out := Waiting;
    }

    /** Everything the source hands on until it stops, fails or runs out of rounds. */
    method Drain(polls: seq<Poll>) returns (bars: seq<VendorBar>, end: Outcome)
      requires lastEmitted == None
      modifies this
      ensures forall i, j :: 0 <= i < j < |bars| ==> bars[i].instant < bars[j].instant
      ensures forall i :: 0 <= i < |bars| ==> bars[i].symbol == frontContract(bars[i].instant) && soundValues(bars[i])
      ensures !end.Emitted?
    {
      bars := [];
      var rest := polls;
      end := Waiting;
      while true
        invariant lastEmitted.None? ==> bars == []
        invariant forall i :: 0 <= i < |bars| ==> bars[i].instant <= lastEmitted.value
        invariant forall i, j :: 0 <= i < j < |bars| ==> bars[i].instant < bars[j].instant
        invariant forall i :: 0 <= i < |bars| ==>
          bars[i].symbol == frontContract(bars[i].instant) && soundValues(bars[i])
        decreases |rest|
      {
        var out, used := Next(rest);
        if !out.Emitted? {
          end := out;
          return;
        }
        bars := bars + [out.bar];
        rest := rest[used..];
      }
    }
  }
}
