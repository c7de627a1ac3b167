# Cart loops and array combinators, verified

This project models two teaching scripts from the `Day-1/06-loops` lesson:

- `loops.js` totals a shopping cart with an indexed `for` loop and logs the
  running total after each item. It then counts a game down from 5 with a
  `while` loop and logs each value before announcing the start.
- `map-reduce-filter.js` converts dollar prices to rupees with `map`
  (`price * 85`). It keeps the prices above 10000 with `filter` and totals
  a cart with `reduce` starting from 0.

The model has four modules:

- `Sums` (`sums.dfy`) defines the reference meaning of a cart total: the sum of
  a sequence of integers.
- `ArrayMethods` (`array_methods.dfy`) gives `map`, `filter` and
  `reduce`-with-initial-value two forms each: a pure recursive definition and
  a loop that visits indices 0 to length − 1 in order, like the built-ins. It
  proves each loop equal to its definition.
- `MapReduceFilter` (`map_reduce_filter.dfy`) holds the script's three
  callbacks, its constants and literal arrays, the properties of the
  conversion, the filter and the reduce, and the script's logged values.
- `Loops` (`loops.dfy`) holds the cart loop and the countdown loop. It also
  models the script's console output as a sequence of `Line` values:
  `Added(price, total)`, `FinalTotal(total)`, `StartingIn(n)` and
  `GameStarted`. These keep the numbers a line shows and drop its text.

All prices are small whole numbers, so JavaScript's number arithmetic on them
is exact, and the model uses unbounded `int`.

## Model

| member | source | states |
|---|---|---|
| Loops.CartTotal | Day-1/06-loops/loops.js:2-10 | The loop's final total is the sum of the cart. It equals the `reduce((total, price) => total + price, 0)` of the same cart. One running total is logged per item, so the body runs exactly once per price. The total logged after item k is the sum of items 0..k, and each one is the previous total plus that item's price. With non-negative prices the logged totals never decrease. |
| Sums.SumPrefixStep | Day-1/06-loops/loops.js:6 | `total += cartPrices[i]` extends the summed prefix by exactly item i. This is the step that keeps the loop invariant "total is the sum of the items seen so far". |
| Sums.PrefixSumMonotone | Day-1/06-loops/loops.js:6-7 | With non-negative prices, the total of a longer prefix is never smaller than the total of a shorter one. |
| Loops.CountdownFrom | Day-1/06-loops/loops.js:14-19 | Started at n, the countdown shows n values when n > 0 and none otherwise. The i-th value shown is n − i, so the values are n, n−1, …, 1. |
| Loops.Countdown | Day-1/06-loops/loops.js:14-19 | The `while` loop terminates, with `countdown` as the decreasing measure. It shows exactly the values of `CountdownFrom(start)`, all positive, each one less than the previous. It leaves `countdown` at 0 when started positive. |
| Loops.Script | Day-1/06-loops/loops.js:2-21 | The console output is one `Added` line per item with that item's price and the prefix sum through it, then the final total, then one `StartingIn` line per countdown value in descending order, and `GameStarted` last. |
| Loops.Run | Day-1/06-loops/loops.js:2-21 | For the cart [1000, 250, 30000, 15] and a countdown from 5, the running totals are 1000, 1250, 31250 and 31265, the final total is 31265, and the countdown shows 5, 4, 3, 2, 1 before the start line. |
| ArrayMethods.Map | Day-1/06-loops/map-reduce-filter.js:5 | `map` keeps the length, and element i of the result is the callback applied to element i of the input. |
| ArrayMethods.MapLoop | Day-1/06-loops/map-reduce-filter.js:5 | Visiting the indices in order and appending the callback's value yields exactly `Map`. |
| ArrayMethods.Filter | Day-1/06-loops/map-reduce-filter.js:14 | The `filter` result is no longer than its input, and the predicate holds of every element of it. |
| ArrayMethods.FilterKeepsExactlyMatches | Day-1/06-loops/map-reduce-filter.js:14 | A value is in the filter result exactly when it is in the input and passes the predicate. A passing value occurs as often as in the input, and a failing value does not occur. |
| ArrayMethods.FilterIsSubsequence | Day-1/06-loops/map-reduce-filter.js:14 | The filter result is an order-preserving subsequence of the input. |
| ArrayMethods.FilterSnoc | Day-1/06-loops/map-reduce-filter.js:14 | Filtering a list extended by one element keeps the earlier result and appends that element when it passes. |
| ArrayMethods.FilterIdempotent | Day-1/06-loops/map-reduce-filter.js:14 | Filtering an already filtered list with the same predicate returns it unchanged. |
| ArrayMethods.FilterLoop | Day-1/06-loops/map-reduce-filter.js:14 | Visiting the indices in order and appending each passing element yields exactly `Filter`. |
| ArrayMethods.ReduceSnoc | Day-1/06-loops/map-reduce-filter.js:23 | Reducing a list extended by one element applies the callback once more: to the previous accumulator and the new last element. |
| ArrayMethods.ReduceLoop | Day-1/06-loops/map-reduce-filter.js:23 | Starting the accumulator at the initial value and combining it with each element in index order yields exactly `Reduce`. |
| MapReduceFilter.ConversionRoundTrip | Day-1/06-loops/map-reduce-filter.js:4-5 | Converting a dollar list to rupees at 85 and dividing back by 85 recovers the dollar list, element for element. |
| MapReduceFilter.ConversionScalesTotal | Day-1/06-loops/map-reduce-filter.js:4-5 | The rupee list's total is 85 times the dollar list's total. |
| MapReduceFilter.ExpensiveItemsAreExactlyTheExpensivePrices | Day-1/06-loops/map-reduce-filter.js:12-14 | Every kept price exceeds 10000. Every price above 10000 is kept as often as it occurs, and nothing else is kept. The kept prices stay in input order. |
| MapReduceFilter.ReduceAddIsSum | Day-1/06-loops/map-reduce-filter.js:23 | Reducing with `+` from any start adds the list's sum to the start. From 0 the result is the sum itself, so an empty cart gives 0. |
| MapReduceFilter.Script | Day-1/06-loops/map-reduce-filter.js:4-25 | The script logs [850, 1700, 2550, 3400, 4250] for the conversion of [10, 20, 30, 40, 50]. It logs [12000, 20000, 80000] for the filter of [5000, 12000, 3000, 20000, 80000] and 395000 for the total of [100000, 250000, 30000, 15000]. |

## Left out

- The text of console lines is left out: template strings, the `$` prefix and the emoji. A line is modelled by the numbers it shows.
- JavaScript numbers are IEEE-754 doubles. Every value here is a small integer, so they are modelled as unbounded `int` and rounding is not modelled.
- `map`, `filter` and `reduce` also pass an index and the array to their callback. The scripts' callbacks ignore both, so the model passes only the element. Holes in sparse arrays are not modelled either, since the scripts only use array literals without holes.
- `reduce` without an initial value throws a `TypeError` on an empty array. That path is not modelled, because the script always passes 0.
- Loops.Countdown: the countdown takes its start as a parameter. The script uses 5, and the `Run` member fixes it to 5.
- `Day-1/08-async-js/async.js` is not part of this model. Its only behaviour is Promise and timer scheduling on the event loop, with no sequential logic.
- `Day-1/05-objects/objects.js` is not part of this model. It shows object-literal mutation, `this`-bound method calls and `Object.keys`/`values`/`entries` ordering, which is JavaScript runtime behaviour rather than program logic.
