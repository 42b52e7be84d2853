/**
 * The lottery draw: one number from [0, 10) taken from the injected random
 * generator, and the message that goes with it.
 */
module Services {
  import opened Wrapper
  import opened ViewModels

  /** The draw range `Next(0, 10)`: 0 included, 10 excluded. */
  const MinValue: int := 0
  const MaxValue: int := 10
  /** The one winning number. */
  const WinningNumber: int := 9

  /** "Congratulations, you won". */
  const Win: string := "恭喜中獎"
  /** "Better luck next time". */
  const Lose: string := "再接再厲"

  /** The message shown for a drawn number. */
  function MessageFor(yourNumber: int): string
  {
    if yourNumber == WinningNumber then Win else Lose
  }

  /** The numbers 0 to 9 in increasing order: what the draw can produce
      (DrawCanReach). */
  function Reachable(): seq<int>
  {
    seq(MaxValue - MinValue, i => MinValue + i)
  }

  /** A number is reachable exactly when it lies in the half-open draw range. */
  lemma ReachableIsDrawRange(n: int)
    ensures n in Reachable() <==> MinValue <= n < MaxValue
  {
    if MinValue <= n < MaxValue {
      assert Reachable()[n - MinValue] == n;
    }
  }

  /** A number can come out of the draw `Next(0, 10)`, after any history of
      requests, exactly when it is reachable: every generator keeping the
      half-open bound answers a reachable number, and each reachable number
      is the answer of some such generator. */
  lemma DrawCanReach(n: int, history: seq<(int, int)>)
    ensures (exists pick: (seq<(int, int)>, int, int) -> int :: HonoursBounds(pick) && pick(history, MinValue, MaxValue) == n)
            <==> n in Reachable()
  {
    ReachableIsDrawRange(n);
    if MinValue <= n < MaxValue {
      var pick := (h: seq<(int, int)>, lo: int, hi: int) => if lo <= n < hi then n else lo;
      assert HonoursBounds(pick);
      assert pick(history, MinValue, MaxValue) == n;
    }
  }

  lemma OutcomesDiffer()
    ensures Win != Lose
  {
  }

  /** The message is one of exactly two strings. */
  lemma MessageIsWinOrLose(yourNumber: int)
    ensures MessageFor(yourNumber) == Win || MessageFor(yourNumber) == Lose
  {
  }

  /** Both directions: the win message is shown exactly when the number is 9,
      and the lose message exactly when it is not. */
  lemma WinIffNine(yourNumber: int)
    ensures MessageFor(yourNumber) == Win <==> yourNumber == 9
    ensures MessageFor(yourNumber) == Lose <==> yourNumber != 9
  {
  }

  /** Within the draw range, a number wins exactly when it is the largest
      number the draw can reach. */
  lemma WinIsLargestReachable(yourNumber: int)
    requires yourNumber in Reachable()
    ensures MessageFor(yourNumber) == Win <==> forall m :: m in Reachable() ==> m <= yourNumber
  {
    OutcomesDiffer();
    ReachableIsDrawRange(yourNumber);
    ReachableIsDrawRange(WinningNumber);
    if yourNumber == WinningNumber {
      forall m | m in Reachable() ensures m <= yourNumber {
        ReachableIsDrawRange(m);
      }
    }
  }

  /** Exactly one of the reachable numbers wins. */
  lemma OneWinningNumber()
    ensures (set n | n in Reachable() && MessageFor(n) == Win) == {WinningNumber}
    ensures |set n | n in Reachable() && MessageFor(n) == Win| == 1
  {
    OutcomesDiffer();
    ReachableIsDrawRange(WinningNumber);
  }

  class LottoService {
    /** The injected generator, fixed for the service's lifetime. */
    const randomGenerator: RandomGenerator

    constructor (randomGenerator: RandomGenerator)
      ensures this.randomGenerator == randomGenerator
    {
      this.randomGenerator := randomGenerator;
    }

    /** Draws one number from [0, 10) and classifies it. The generator is
        asked exactly once, for (0, 10); the number is passed through as the
        generator gave it; the result is a new object. */
    method Lottoing() returns (result: LottoViewModel)
      requires randomGenerator.Valid()
      modifies randomGenerator
      ensures randomGenerator.Valid()
      ensures fresh(result)
      ensures result.YourNumber == old(randomGenerator.Upcoming(MinValue, MaxValue))
      ensures MinValue <= result.YourNumber < MaxValue
      ensures result.Message == MessageFor(result.YourNumber)
      ensures randomGenerator.Requests == old(randomGenerator.Requests) + [(MinValue, MaxValue)]
    {
      result := new LottoViewModel();
      var yourNumber := randomGenerator.Next(MinValue, MaxValue);
      var message := if yourNumber == WinningNumber then Win else Lose;
      result.YourNumber := yourNumber;
      result.Message := message;
    }
  }
}
