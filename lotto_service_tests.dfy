/**
 * The service's unit-test scenarios, with a fixed-value generator in place of
 * the mocked one.
 */
module ServiceTests {
  import opened Wrapper
  import opened Services

  /** Draws once from a new service over a generator fixed to `value`. */
  method DrawWithFixed(value: int) returns (yourNumber: int, message: string)
    requires MinValue <= value < MaxValue
    ensures yourNumber == value
    ensures message == Win <==> value == 9
    ensures message == Lose <==> value != 9
  {
    var generator := new RandomGenerator.Fixed(value);
    var target := new LottoService(generator);
    var actual := target.Lottoing();
    yourNumber, message := actual.YourNumber, actual.Message;
    WinIffNine(yourNumber);
  }

  /** A generator fixed to 9 gives { 9, "恭喜中獎" }. */
  method WinScenario() returns (yourNumber: int, message: string)
    ensures yourNumber == 9 && message == "恭喜中獎"
  {
    var generator := new RandomGenerator.Fixed(9);
    var target := new LottoService(generator);
    var actual := target.Lottoing();
    yourNumber, message := actual.YourNumber, actual.Message;
  }

  /** A generator fixed to 1 gives { 1, "再接再厲" }. */
  method LoseScenario() returns (yourNumber: int, message: string)
    ensures yourNumber == 1 && message == "再接再厲"
  {
    var generator := new RandomGenerator.Fixed(1);
    var target := new LottoService(generator);
    var actual := target.Lottoing();
    yourNumber, message := actual.YourNumber, actual.Message;
  }

  /** Two draws on one service: the results are distinct objects, the first
      keeps its fields through the second draw, and the generator has been
      asked twice, both times for (0, 10). */
  method TwoDrawsScenario(value: int) returns (shared: bool, firstNumber: int, firstMessage: string, requests: seq<(int, int)>)
    requires MinValue <= value < MaxValue
    ensures !shared
    ensures firstNumber == value && firstMessage == MessageFor(value)
    ensures requests == [(MinValue, MaxValue), (MinValue, MaxValue)]
  {
    var generator := new RandomGenerator.Fixed(value);
    var target := new LottoService(generator);
    var first := target.Lottoing();
    var second := target.Lottoing();
    shared := first == second;
    firstNumber, firstMessage := first.YourNumber, first.Message;
    requests := generator.Requests;
  }
}
