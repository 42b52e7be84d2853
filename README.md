# Lottery draw of ASPNetCore6Random, modelled in Dafny

The web demo has one piece of logic of its own, `LottoService.Lottoing()`. It
asks the injected random generator for one integer from `Next(0, 10)`, with
0 included and 10 excluded. It then builds a new `LottoViewModel` holding that
number and a message: "恭喜中獎" (a win) when the number is 9, and "再接再厲"
(try again) otherwise.

The model has four modules:

- `Wrapper` (`random_generator.dfy`) is the `IRandomGenerator` capability as
  a class. Its answers come from a draw rule `pick(requests, lo, hi)` over the
  `(minValue, maxValue)` requests it has served so far, oldest first; that log
  is the field `Requests`. `Valid()` requires the rule to keep the half-open
  bound `lo <= r < hi` whatever was requested before. A deterministic
  generator whose answers depend on its seed and on the order and ranges of
  earlier requests is one such rule. The named constructor `Fixed` is the
  fixed-value test double.
- `ViewModels` (`view_models.dfy`) is the result object, with its two fields
  `YourNumber` and `Message`.
- `Services` (`lotto_service.dfy`) is the service class. It holds the
  generator in a `const` field, which is the readonly field, so `Lottoing`
  cannot reassign it. It also holds the pure win/lose rule `MessageFor` and the
  lemmas about the rule.
- `ServiceTests` (`lotto_service_tests.dfy`) holds the unit-test scenarios.
  Each one uses a generator fixed to a number.

Where the code and the tests disagree, the model follows the code. The tests
call a two-argument `Lottoing(0, 10)`
(ASPNetCore6RandomTests/Services/LottoServiceTests.cs:27, 48), but the service
defines only the parameterless `Lottoing()`, with the range fixed to
`[0, 10)` and an equality test against 9 (ASPNetCore6Random/Services/LottoService.cs:15-21).
It defines neither that overload nor any modulo rule, so neither is modelled.
The two test scenarios (fixed 9 and fixed 1) hold for the code as written.

## Model

| member | source | states |
|---|---|---|
| Wrapper.RandomGenerator.constructor | ASPNetCore6Random/Wrapper/IRandomGenerator.cs:3-9 | a generator over any draw rule that keeps the half-open bound; no request served yet |
| Wrapper.RandomGenerator.Fixed | ASPNetCore6RandomTests/Services/LottoServiceTests.cs:21-23 | the fixed-value double: it answers the fixed value for every range that contains it, and it honours the bound contract |
| Wrapper.RandomGenerator.Next | ASPNetCore6Random/Wrapper/IRandomGenerator.cs:7 | callers must ask for `minValue < maxValue`; the result lies in `[minValue, maxValue)` and is the generator's answer for its history so far; the request is appended to that history |
| ViewModels.LottoViewModel.constructor | ASPNetCore6Random/Services/LottoService.cs:17 | a new, blank result object |
| Services.LottoService.constructor | ASPNetCore6Random/Services/LottoService.cs:8-13 | the injected generator is stored as given, in a field that is never reassigned |
| Services.LottoService.Lottoing | ASPNetCore6Random/Services/LottoService.cs:15-27 | the generator is asked exactly once, for `(0, 10)`; `YourNumber` is exactly the value it returned and lies in `[0, 10)`; `Message` is the rule's message for that number; the result is a newly allocated object |
| Services.OutcomesDiffer | ASPNetCore6Random/Services/LottoService.cs:21 | the win and lose messages are different strings |
| Services.MessageIsWinOrLose | ASPNetCore6Random/Services/LottoService.cs:21 | every number gets one of exactly two messages |
| Services.WinIffNine | ASPNetCore6Random/Services/LottoService.cs:21 | the win message is given if and only if the number is 9; the lose message if and only if it is not |
| Services.ReachableIsDrawRange | ASPNetCore6Random/Services/LottoService.cs:19-20 | the list `Reachable()` of the numbers 0 to 9 contains a number exactly when `0 <= n < 10` |
| Services.DrawCanReach | ASPNetCore6Random/Services/LottoService.cs:19-20 | after any history, a number can be the answer of a generator keeping the half-open bound to `Next(0, 10)` exactly when it is in `Reachable()`: each such generator answers a reachable number, and each reachable number is some such generator's answer |
| Services.WinIsLargestReachable | ASPNetCore6Random/Services/LottoService.cs:19-21 | for a reachable number, winning is the same as being the largest reachable number |
| Services.OneWinningNumber | ASPNetCore6Random/Services/LottoService.cs:20-21 | of the ten reachable numbers exactly one wins, and it is 9 |
| ServiceTests.DrawWithFixed | ASPNetCore6RandomTests/Services/LottoServiceTests.cs:21-27 | with a generator fixed to any `v` in `[0, 10)`, the draw returns `v`, with the win message exactly when `v` is 9 |
| ServiceTests.WinScenario | ASPNetCore6RandomTests/Services/LottoServiceTests.cs:14-31 | generator fixed to 9 gives `{ YourNumber = 9, Message = "恭喜中獎" }` |
| ServiceTests.LoseScenario | ASPNetCore6RandomTests/Services/LottoServiceTests.cs:35-52 | generator fixed to 1 gives `{ YourNumber = 1, Message = "再接再厲" }` |
| ServiceTests.TwoDrawsScenario | ASPNetCore6Random/Services/LottoService.cs:17-26 | two draws on one service give two distinct result objects; the first keeps its number and message through the second draw; the generator's request log is exactly `(0, 10)` twice |

## Left out

- `LottoController` (ASPNetCore6Random/Controllers/LottoController.cs:7-21) is left out. It only routes the request and renders the result with `View(result)`, which is framework work.
- The overloads `Next()`, `Next(int)` and `NextDouble()` of `IRandomGenerator` are left out. The draw never calls them, and `NextDouble` is floating point.
- Uniform distribution and the platform pseudo-random generator are left out. The model states only the bound contract, so it makes no claims about probability.
- The dependency-injection wiring is left out. So are the interfaces `ILottoService` and the full `LottoViewModel` class, beyond the two fields the service sets; their definitions are not part of this model.
- A `Lottoing(min, max)` overload and a modulo-10 winning rule are left out. The tests call such an overload, but the service code defines neither.
- A generator is represented by its answers as a function of the requests it has served. Its hidden state (a seed, an internal buffer) is not modelled separately. A generator whose answer is not determined by its seed and its request history (one reseeded from outside, or one shared with other callers) is not represented. The service only ever asks for `(0, 10)`, so nothing it promises depends on that.
- Wrapper.RandomGenerator.Fixed: the Moq double in the tests returns the fixed value for any arguments. This double returns it only when the value lies in the requested range, and otherwise returns the lower bound, so that it keeps the bound contract. The service only ever asks for `(0, 10)`, and the tests' values 9 and 1 lie in that range.
- The record comparison done by ExpectedObjects is not modelled. The scenarios compare the two fields directly.
- C#'s 32-bit `int` is modelled as an unbounded integer. The service does no arithmetic, and its only constants, 0, 9 and 10, fit in 32 bits.
- In C#, `Message` starts as `null` until it is assigned. The model starts it as the empty string, and `Lottoing` always assigns it before returning.
