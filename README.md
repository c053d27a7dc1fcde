# Squid end-to-end batch: settlement pass and balance helpers

This is a Dafny model of the logic the end-to-end batch script of the Squid cross-chain SDK tests holds of its own. The script submits bridge/swap routes and collects the ones whose source transaction went through in a module-level list, `activeRoutes`. It then makes one settlement pass over that list. The pass walks from the last index down to 0, asks the bridge for each route's status and splices out every route that reached a terminal status:
- `destination_executed` counts as delivered. The route's post balances are read, and it is reconciled against its pre balances.
- `error`, `gas_unpaid` and `gas_paid_not_enough_gas` count as failed.

The helpers beside it read a token balance and poll a destination balance until it rises. The poll has a bounded number of reads and exits early.

The bridge SDK, the RPC providers, the pauses and the logger are abstract inputs:
- A status query is a function from transaction id to `StatusQuery`, which either answers a status string or throws.
- Reading post-settlement balances is a function from a route log to `PostBalances`.
- The executor of a route request is a function from (call position, request) to `RouteLog`.
- A provider is a `Provider` value. It gives the native balance of an account and the ERC-20 `balanceOf` for a token address. The poll takes one provider per read.
- The log records that the pass writes are represented by the `visits` it returns: each route queried and the outcome of that query.

Modules:
- `Seqs` (seqs.dfy) holds an order-preserving filter and its complement, with lemmas for concatenation, membership and partition.
- `Utils` (utils.dfy) models tests/utils.ts. It includes the constants `TestWait = 200` and `Iterations = 80` and the native-coin sentinel `0xEeeeeEeeeEeEeeEeEeEeeEEEeeeeEeeeeeeeEEeE`.
- `Batch` (batch.dfy) models the batch driver in tests/index.ts. Its class `Batch` holds `activeRoutes` as a `seq` field, which the methods reassign the way the script pushes and splices.

The settlement part of the script is a single descending pass:
- It is one `while (index--)` loop with no outer loop around it (tests/index.ts:200-244). A route that is not yet terminal stays in `activeRoutes` and is not queried again.
- The `getStatus` call (tests/index.ts:205) is not inside a `try`, so an exception from it ends the pass and the run where it stands. `SettlementPass` therefore stops at the first query that throws. Everything above that index is already settled, and the rest is untouched.

## Model

| member | source | states |
|---|---|---|
| `Utils.DecimalRoundTrip` | tests/utils.ts:19 | parsing the decimal text of any balance (`BigNumber.from(balance.toString())`) gives back that balance |
| `Utils.GetTokenBalance` | tests/utils.ts:6-20 | for the native-coin sentinel address the result is the provider's native balance of the account; for every other address (exact, case-sensitive comparison) it is the token contract's `balanceOf`; the text round trip does not change the value |
| `Utils.WaitForBalanceChange` | tests/utils.ts:22-40 | at most `iterations` reads, none and result 0 when `iterations <= 0`, at least one when `iterations > 0`; the result is the last read taken, so it is always a value some read returned; every read before the last one was not above the pre-balance; it stops early only on a read strictly above the pre-balance; the result exceeds the pre-balance iff some read within the bound does |
| `Batch.DeliveredVerdict` | tests/index.ts:213-231 | on `destination_executed` the route is delivered and spliced out whatever its verdict; the verdict (`RouteSwapsSuccess`) is true iff the source balance strictly fell and the destination balance strictly rose between the pre balances and the post balances read for that route |
| `Batch.StatusSets` | tests/index.ts:213-236 | the script's comparison chain `error` / `gas_unpaid` / `gas_paid_not_enough_gas` is exactly membership in the failure set; the terminal set is `destination_executed` plus the failure set, and the two do not overlap |
| `Batch.Settle` | tests/index.ts:204-243 | a visit ends in delivery or failure exactly when the query answers a status in the terminal set; it ends in delivery exactly on `destination_executed`, and then the log carries the post balances and the strict-comparison verdict; a failed or pending outcome carries the status the query answered (the one the script logs); a throwing query is its own outcome |
| `Batch.AdmittedOnlyOk` | tests/index.ts:188-196 | a route log is admitted iff it was returned by the executor and its `txOk` is true |
| `Batch.RemainingMembership` | tests/index.ts:213-243 | after a pass a route is still active iff it was active and its status was not terminal, so delivered and failed routes are gone and the others remain unchanged |
| `Batch.RemainingAppend` | tests/index.ts:200-244 | the routes a pass keeps keep their relative order (keeping distributes over concatenation) |
| `Batch.RemainingCount` | tests/index.ts:231-242 | a pass removes exactly the terminal routes: kept plus removed is the starting list as a multiset, and every removed route had a terminal status |
| `Batch.SpliceAfterUpdate` | tests/index.ts:215-231 | overwriting a delivered entry in place and then splicing it out leaves the same list as splicing it out directly |
| `Batch.PassStep` | tests/index.ts:201-242 | in the descending walk the entry at the current index is still the original entry at that index, and keeping it (non-terminal) or splicing it out (terminal) settles every index from it upward |
| `Batch.VisitNext` | tests/index.ts:200-204 | querying the next lower index extends a descending walk in which each route is queried once, top index first, and only the last query may have thrown |
| `Batch.PassLength` | tests/index.ts:231-242 | the list a pass leaves is never longer than the one it started with, and shorter by exactly the number of terminal routes it visited |
| `Batch.PassKeepsSubmitted` | tests/index.ts:195-242 | a pass leaves only routes it started with, so if every active route had `txOk`, every remaining one does |
| `Batch.Batch.constructor` | tests/index.ts:32 | the active set starts empty, so every active route trivially went through |
| `Batch.Batch.SubmitAll` | tests/index.ts:188-196 | the active set becomes its old value followed by the executor's results whose `txOk` is true, in request order; the invariant that every active route went through is preserved |
| `Batch.Batch.VisitAt` | tests/index.ts:204-243 | the outcome of visiting index i is `Settle`'s for the route at i; a terminal route is spliced out at i (a delivered one after being overwritten in place), and any other answer leaves the list as it was |
| `Batch.Batch.SettlementPass` | tests/index.ts:200-244 | the k-th query is about the route originally at index n-1-k, so each route is queried exactly once in descending order despite the splices, and its outcome is `Settle`'s; without a throwing query every route is visited and the active set becomes exactly the non-terminal routes in their order; a throwing query is the last visit, and only the indices above it are settled (`AfterPass`, to which `PassLength` and `PassKeepsSubmitted` apply); the invariant that every active route went through is preserved |

## Left out

- The bridge SDK (`Squid` set-up, `getRoute`, `executeRoute`, `getStatus`, chain and token lookups), the ethers wallet, provider and contract calls, `tx.wait` and `parseUnits` are opaque collaborators. The model takes their answers as inputs.
- `getPreAccountValuesAndExecute`, `getPostAccountValues` and the `RouteLog` type are not part of this model. They are imported by tests/index.ts but defined elsewhere. The two functions are the abstract inputs `execute` and `getPostAccountValues`, and `RouteLog` is a record of the fields the script uses.
- The construction of the hard-coded request list (tests/index.ts:80-186), config loading, the logger and `waiting`/`setTimeout` are left out. They are data, I/O or pauses with no effect on the modelled state.
- `runAndValidateParams` (tests/utils.ts:46-103) is left out. It is a straight sequence of SDK and RPC calls whose checks are commented out.
- tests/routes.ts is left out. It is a data literal, not a module.
- Batch.Batch.SettlementPass: it assumes `getPostAccountValues` does not throw and that the pre balances are present (the script's `!` assertions). A throw there, or a missing balance, would also end the run.
- Batch.Settle: the script stores what `getPostAccountValues` returns in `activeRoutes[index]` (tests/index.ts:215), but it computes the verdict from the fields of the `routeLog` it read at tests/index.ts:204, and it writes the verdict to that object (tests/index.ts:221-223). This only works if `getPostAccountValues` writes the post balances into the `routeLog` it is passed; otherwise `srcTokenBalancePost` is undefined and the comparison throws. The model assumes it does: it takes the returned balances as `routeLog`'s own and puts the verdict on the settled entry. Aliasing between the stored entry and `routeLog` is not modelled.
- Batch.Batch.SubmitAll: `execute` always returns a log and never throws. The model therefore assumes that `getPreAccountValuesAndExecute` reports a failed submission through `txOk` rather than by throwing. A throw there would end the run before the pass.
- Utils.GetTokenBalance: provider reads always answer. A transport error would propagate to the caller and is not modelled.
- Utils.FromDecimal parses decimal text with an optional minus sign only. `BigNumber.from` also accepts hexadecimal text, which the round trip never produces.
- Utils.WaitForBalanceChange: `iterations` is an integer here, while the script takes any JavaScript number. The `testWait` argument only sets the pause between reads and is dropped. The number of reads is returned beside the balance so that the bound can be stated.
