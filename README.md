# Sats in Every Currency — a Dafny model

The system shows the current Bitcoin price in ten currencies. It has two parts.

- A server-side proxy, `GET /api/prices`, asks the CoinGecko API for one coin's price in ten currencies. It checks that the payload has a number for every currency. It reshapes the payload into a snapshot `{coin, lastUpdated, prices}` keyed by upper-case codes. On any failure it answers with a fixed error payload and status 503. Both answers carry the same Cache-Control header.
- A client page polls the proxy. It keeps three state cells, `data`, `loading` and `error`, plus the effect's liveness flag `active`. It renders a loading message, an error message, or one row per currency from a shared currency table.

This project models the proxy handler, the page's state machine and render choice, and the currency table. It proves the properties the code promises.

Modules, one per source file, plus two helpers:

- `Currencies` (`currencies.dfy`): the `CurrencyCode` union as a datatype, the `CURRENCIES` table, and the upstream (lower-case) spelling of each code.
- `JsValues` (`js_values.dfy`): JSON values as `response.json()` yields them, JavaScript truthiness, and `typeof … === 'number'`. A number is kept as its IEEE 754 binary64 bit pattern. The handler only copies numbers and never computes with them.
- `PriceProxy` (`price_proxy.dfy`):
  - The upstream outcome is an input: `Unreachable`, or `Answered(status, body)`, where the body is parsed JSON or unparseable.
  - `IsOk` is `response.ok`, which the Fetch standard defines as a status from 200 to 299. The page uses the same test.
  - `Load` models the handler's `try` block: the status check, the hand-written chain of ten field checks (`PassesCheck`) and the object literal (`PricesLiteral`).
  - `Get` models the whole handler, including the `catch`.
  - `Complete` and `Accepted` are an independent reference definition of an acceptable payload. `Load` and `Get` are proved against them.
- `PricePage` (`price_page.dfy`):
  - The `Page` class has the three state cells and `active`. It has one method per event: `Complete` for a finished `loadPrices` cycle, and `Teardown` for the effect cleanup.
  - A ghost event log ties the object to the pure functions `Run`, `Step` and `Settle`.
  - `Render` chooses the branch. `Rows` is the `CURRENCIES.map` row list.
  - `Receive` connects a proxy response to a client cycle. It reads the snapshot back through `OverTheWire`, which gives the end-to-end lemmas.
- `Wrappers` (`wrappers.dfy`): `Option` and `Result`.

The handler checks each price only with `typeof … === 'number'`, which admits NaN, infinities and negative numbers, and it answers every failure with status 503. The model does the same.

The success body crosses the network as JSON text. `JSON.stringify` writes NaN and the infinities as `null` and -0 as `0`, so the page does not always read back the number the upstream sent. `OverTheWire` models this, and the end-to-end lemmas state what the page shows in those terms.

## Model

| member | source | states |
|---|---|---|
| `Currencies.Code` | lib/currencies.ts:1-11 | every code of the union is three upper-case ASCII letters |
| `Currencies.CodeInjective` | lib/currencies.ts:1-11 | distinct codes have distinct texts |
| `Currencies.IndexOf` | lib/currencies.ts:18-29 | every member of the `CurrencyCode` union has a row in `CURRENCIES` |
| `Currencies.CodesDistinct` | lib/currencies.ts:19-28 | the codes of `CURRENCIES` are pairwise distinct |
| `Currencies.TableOrder` | lib/currencies.ts:19-28 | the table order is USD, EUR, JPY, GBP, AUD, CAD, CHF, CNY, HKD, IDR |
| `Currencies.TableCoversUnion` | lib/currencies.ts:1-11 | every literal of the union occurs in the table |
| `Currencies.TableIsTheUnion` | lib/currencies.ts:1-29 | the table has 10 rows, its code set equals the union of ten literals, and that set has 10 members |
| `Currencies.Lower` | app/api/prices/route.ts:4 | specification helper, not an operation of the source (which writes the lower-case names as literals): ASCII lower-casing, same length, each upper-case letter shifted to its lower-case form, other characters kept |
| `Currencies.UpstreamKey` | app/api/prices/route.ts:54-63 | definition, no contract: the lower-case field name the object literal reads for each code |
| `Currencies.CURRENCIES` | lib/currencies.ts:18-29 | definition, no contract: the table's ten entries, code and name, in source order |
| `Currencies.UpstreamKeyIsLowerCode` | app/api/prices/route.ts:53-64 | each upstream field name (usd … idr) paired with a key is the lower-case spelling of that key |
| `PriceProxy.VS_CURRENCIES` | app/api/prices/route.ts:4 | definition, no contract: the `vs_currencies` query value |
| `PriceProxy.COINGECKO_URL` | app/api/prices/route.ts:3-4 | definition, no contract: the upstream request URL |
| `PriceProxy.COIN` | app/api/prices/route.ts:32 | definition, no contract: the coin name, read as `data.bitcoin` and sent as `coin: 'bitcoin'` (route.ts:51) |
| `PriceProxy.CACHE_CONTROL` | app/api/prices/route.ts:69 | definition, no contract: the Cache-Control header of both answers (also route.ts:78) |
| `PriceProxy.FAILURE_MESSAGE` | app/api/prices/route.ts:74 | definition, no contract: the error payload's message |
| `PriceProxy.IsOk` | app/api/prices/route.ts:27 | definition, no contract: `response.ok` means the status is 200 to 299 (the same test at page.tsx:28) |
| `PriceProxy.RequestAsksForTheCoin` | app/api/prices/route.ts:3-4 | the URL's `ids` parameter is `COIN`, the member the handler reads at route.ts:32, followed by the `vs_currencies` list |
| `PriceProxy.RequestAsksForTheTable` | app/api/prices/route.ts:3-4 | the request's `vs_currencies` list names the upstream spelling of the table's codes, in table order |
| `PriceProxy.VsCurrenciesAppend` | app/api/prices/route.ts:4 | listing two non-empty runs of codes one after the other joins their lists with a comma |
| `JsValues.Truthy` | app/api/prices/route.ts:35 | definition, no contract: JavaScript truthiness, used for `!btc` |
| `JsValues.IsNumber` | app/api/prices/route.ts:36-45 | definition, no contract: `typeof … === 'number'` |
| `PriceProxy.PropertyOf` | app/api/prices/route.ts:32-45 | definition, no contract: a property read such as `data.bitcoin` or `btc.usd` on a non-null value |
| `PriceProxy.PassesCheck` | app/api/prices/route.ts:34-46 | definition, no contract: the hand-written chain of `!btc` and ten `typeof` checks |
| `PriceProxy.PassesCheckIsComplete` | app/api/prices/route.ts:34-46 | the hand-written chain (`!btc` or any of ten `typeof` checks) passes exactly when `bitcoin` is an object with a number under every upstream name |
| `PriceProxy.NumberAt` | app/api/prices/route.ts:54-63 | definition, no contract: a read such as `btc.usd` once its `typeof` check has passed |
| `PriceProxy.PricesLiteral` | app/api/prices/route.ts:53-64 | definition, no contract: the `prices` object literal |
| `PriceProxy.PricesLiteralAt` | app/api/prices/route.ts:53-64 | in the object literal each upper-case key takes the number under its own lower-case name |
| `PriceProxy.Reshape` | app/api/prices/route.ts:50-65 | the reshaped `prices` has exactly the table's ten codes as keys, each mapped to its upstream number unchanged |
| `PriceProxy.Load` | app/api/prices/route.ts:22-65 | the `try` block succeeds exactly on a 2xx answer whose parsed body has a complete `bitcoin` object; then `coin` is "bitcoin", `lastUpdated` is the given instant, and every price equals its upstream field |
| `PriceProxy.Get` | app/api/prices/route.ts:21-83 | success (status 200) exactly on an acceptable upstream answer, with the snapshot above; otherwise status 503 and the fixed message; the same Cache-Control header either way |
| `PriceProxy.FailureIsFixed` | app/api/prices/route.ts:72-81 | every failure, whatever its cause, is the same response: 503, the fixed message, the same header |
| `PriceProxy.OneBadFieldFails` | app/api/prices/route.ts:34-48 | one missing or non-numeric field makes the whole answer the 503 failure: no partial success |
| `PriceProxy.DependsOnlyOnFields` | app/api/prices/route.ts:32-65 | two acceptable answers that agree on the ten fields give the same response |
| `PriceProxy.OtherTopLevelMembersIgnored` | app/api/prices/route.ts:31-32 | a top-level member other than `bitcoin` has no effect on the response |
| `PriceProxy.OtherCoinMembersIgnored` | app/api/prices/route.ts:34-65 | a member of `bitcoin` other than the ten fields has no effect on the response |
| `PriceProxy.CompletePayloadScenario` | app/api/prices/route.ts:50-71 | a complete payload with 65000 under `usd` gives status 200, all ten keys, and `USD` equal to 65000 |
| `PriceProxy.OnlyUsdScenario` | app/api/prices/route.ts:34-48 | a `bitcoin` object with only `usd` gives the 503 failure |
| `PriceProxy.UnreachableScenario` | app/api/prices/route.ts:22-25 | a rejected upstream request gives the 503 failure |
| `PricePage.INITIAL` | app/page.tsx:15-17 | definition, no contract: the cells' initial values, `data` null, `loading` true, `error` false |
| `PricePage.MOUNTED` | app/page.tsx:20 | definition, no contract: the initial cells with `active` true |
| `PricePage.Settle` | app/page.tsx:34-45 | definition, no contract: the updates of a cycle that completes while active (data and error on success, error on failure, loading cleared either way) |
| `PricePage.Step` | app/page.tsx:34-53 | definition, no contract: a completion is applied only while `active`; teardown clears `active` |
| `PricePage.Run` | app/page.tsx:19-56 | definition, no contract: a sequence of events applied in order |
| `PricePage.RunAppend` | app/page.tsx:19-56 | running one more event after a run is one more step |
| `PricePage.FrozenAfterTeardown` | app/page.tsx:34-53 | after teardown no completing cycle changes `data`, `loading` or `error` |
| `PricePage.LoadingNeverReentered` | app/page.tsx:16-44 | once `loading` is false it stays false, whatever events follow |
| `PricePage.RunReflectsLiveResults` | app/page.tsx:34-45 | from an active state, `loading` stays true only if no cycle completed live; `error` is whether the last live cycle failed; `data` is the last snapshot received live, or what it was before |
| `PricePage.MountedRun` | app/page.tsx:15-56 | from mounting (`data` null, `loading` true, `error` false), the same statement for the live completions |
| `PricePage.Lookup` | app/page.tsx:92 | definition, no contract: `data.prices[code]`, `undefined` for a missing key |
| `PricePage.Rows` | app/page.tsx:87-95 | one row per table entry, in table order, each with the code, the name and the formatter applied to `prices[code]` |
| `PricePage.Render` | app/page.tsx:81-97 | definition, no contract: the loading message while loading, the error message on error or no data, else the rows |
| `PricePage.ShowsLatestOutcome` | app/page.tsx:81-85 | after a live completion, a received snapshot shows its own rows and any failure shows the error message, never a snapshot retained from earlier |
| `PricePage.PriceListRows` | app/page.tsx:86-95 | with a snapshot keyed by the table's codes, the list has ten rows, each with its own price, and the row keys are distinct |
| `PricePage.OverTheWire` | app/api/prices/route.ts:67-71 | a price written by `JSON.stringify` and read back by `response.json()` (page.tsx:32) is `null` exactly when it is NaN or infinite; otherwise it is a number `===` to it, never -0, and the same number unless it was -0 |
| `PricePage.ReadBack` | app/page.tsx:32 | definition, no contract: the snapshot with each price passed through `OverTheWire` |
| `PricePage.Receive` | app/page.tsx:24-36 | definition, no contract: a non-2xx status is a failed cycle, a 2xx body is the snapshot read back |
| `PricePage.EndToEnd` | app/api/prices/route.ts:67-81 | the proxy sends a 2xx status only with a snapshot; a live cycle over the proxy shows ten rows, each formatting the upstream price as read back, exactly when the upstream answer is acceptable, and the error message otherwise |
| `PricePage.PriceSurvivesTheWire` | app/api/prices/route.ts:54-67 | in an accepted answer, a finite price other than -0 reaches the page unchanged, -0 reaches it as 0, and NaN or an infinity as `null` |
| `PricePage.Page.constructor` | app/page.tsx:15-20 | mounting: `data` null, `loading` true, `error` false, `active` true, and an empty event log |
| `PricePage.Page.Complete` | app/page.tsx:22-47 | while active, the cells become `Settle` of the old cells; after teardown nothing changes; the log grows by the event and still matches `Run` |
| `PricePage.Page.Teardown` | app/page.tsx:52-55 | `active` becomes false and the cells are unchanged; the log still matches `Run` |
| `PricePage.Page.View` | app/page.tsx:81-97 | definition, no contract: `Render` of the current cells |

## Left out

- The outbound requests are not modelled. This covers the upstream `fetch` with its `revalidate: 30` hint and the page's `fetch('/api/prices', {cache: 'no-store'})`. They are network and framework calls. Their outcomes are inputs: `Upstream` for the proxy and `CycleResult` for the page.
- `ReadBack` models the JSON round trip of the success body only for the prices. The strings `coin` and `lastUpdated` are taken to come back unchanged; they are ASCII, for which `JSON.stringify` and `JSON.parse` are inverse. Header transport and the error body's text are not modelled, because the page reads only the status.
- `new Date().toISOString()` is a clock read. `lastUpdated` is the parameter `now`.
- `Intl.NumberFormat` and the `useMemo` formatter map depend on locale data and floating point. The formatter is the uninterpreted parameter `format`. Each row passes it the code and `data.prices[code]`.
- `setInterval`, `clearInterval` and React's scheduling are timing. Each completed cycle is one `Completed` event, and any order of events is allowed, so overlapping requests that finish in any order are covered. Nothing is said about when cycles start.
- React's development double-run of effects (mount, cleanup, mount) creates two closures with two `active` flags. The model has one effect and one flag.
- The page casts the proxy's JSON and does not check it. The model takes a 2xx body to be a snapshot. `Receive` requires this, and `EndToEnd` proves that the proxy meets it. A 2xx body of another shape is not modelled.
- `PropertyOf` models property reads only for the eleven names the handler uses. For names like `length` or array indices it would be wrong.
- Prices are 64-bit patterns. Nothing is proved about finiteness or sign, because the code does not check them.
- `app/layout.tsx`, the JSX markup, CSS classes and the static texts are presentation only. The footer text is left out.
