# Payment record store — a Dafny model

This project models the core of a small payment-records service: the
in-memory `PaymentRepository` and the `contractPayments` aggregation of
the `PaymentResolver` facade.

- `entities.dfy` (module `Entities`): the `Payment` record of
  `src/entities/Payment.ts`. Times are integer timestamps, because the source
  compares `Date.valueOf()`. `value` is an integer. `updatedAt` and
  `deletedAt` are `Option`s.
- `repository.dfy` (module `Repository`): the store.
  - The pure part is the three record checks `checkId`, `checkContractId`
    and `checkTime` (`CheckId`, `CheckContractId`, `CheckTime`), their
    conjunction `Matches`, and `get` as the filter `Select` over
    `seq<Payment>`.
  - `getById` is `Lookup`. The `{ ...found, updatedAt, ...update }` overlay
    is `Merge`. The `map` that replaces one record is `ReplaceWhere`.
  - The class `PaymentRepository` holds the `store` sequence and the id
    counter. Its methods `Add`, `Update`, `Delete` and `Clear` reassign the
    store. `Get` and `GetById` only read it.
- `resolver.dfy` (module `Resolver`): the class `PaymentResolver`.
  - Four methods delegate to the store.
  - `contractPayments` runs `get` for one contract and then a left fold of
    `value` from 0 (`SumFrom`). The fold is proved equal to the arithmetic
    total (`Total`).
  - A verified client of the facade, `ContractPaymentsScenario`, creates
    the four records of the `contractPayments` cases in
    `PaymentResolver.spec.ts`. The class contracts alone fix the sum and the
    item count for contract 2 after time 3, both before and after one of its
    records is soft-deleted.
- `wrappers.dfy` (module `Wrappers`): `Option` and `Result`. `Result` lets
  `update` propagate `getById`'s failure with `:-`, as the source lets
  the exception escape.

Ids come from a counter field `nextId`, which stands in for the random
generator. The store invariant `Valid()` says every stored id is below the
counter and no two records share an id. `Clear` keeps the counter, so an id is
never handed out twice. Clock reads are a `now` parameter.

`checkTime` is modelled as the code behaves. A present `Date` bound is always
truthy, so truthiness means presence. When an interval is given with neither
bound, the function falls off its end and returns `undefined`, and the
filter treats that as false. Such an interval therefore matches no record
(`SelectEmptyInterval`). One might expect an interval with no bounds to mean
no time filtering; the code instead excludes every record. Likewise `ids: []`
and `contractIds: []` are present filters that match nothing, because an
empty array is truthy.

## Model

| member | source | states |
|---|---|---|
| `Repository.PaymentRepository.constructor` | src/services/payment/PaymentRepository.ts:7-8 | a new store is empty and satisfies the store invariant |
| `Repository.PaymentRepository.Add` | src/services/payment/PaymentRepository.ts:10-26 | appends exactly one record at the end and leaves earlier records unchanged; the record copies contractId/description/value/time from the input, has `createdAt = now`, no `updatedAt`/`deletedAt`, and an id no stored record has; ids stay unique |
| `Repository.Created` | src/services/payment/PaymentRepository.ts:15-21 | the record `add` builds: the input's four fields, the fresh id, `createdAt = now`, no `updatedAt`/`deletedAt` |
| `Repository.CheckId` | src/services/payment/PaymentRepository.ts:42-44 | `checkId`: no id list lets every record through; a present list, even an empty one, is a membership test |
| `Repository.CheckContractId` | src/services/payment/PaymentRepository.ts:46-48 | `checkContractId`: the same test on the contract id |
| `Repository.CheckTime` | src/services/payment/PaymentRepository.ts:50-69 | the `checkTime` if-chain: no interval passes; both bounds, only `after` or only `before` are inclusive comparisons; an interval with neither bound is false |
| `Repository.Matches` | src/services/payment/PaymentRepository.ts:73-75 | the filter predicate `checkId && checkContractId && checkTime` |
| `Repository.CheckTimeBounds` | src/services/payment/PaymentRepository.ts:50-69 | the time check in closed form: no interval passes everything; otherwise at least one bound must be present and every present bound is inclusive (`after <= time`, `time <= before`) |
| `Repository.SelectEmptyInterval` | src/services/payment/PaymentRepository.ts:50-69 | an interval with neither bound makes `get` return nothing, whatever the id and contract criteria |
| `Repository.SelectTimeExamples` | src/services/payment/PaymentRepository.spec.ts:76-94 | for records at times 1 and 2: `after` 2 keeps the second, `before` 1 keeps the first, the closed interval [1, 2] keeps both in order |
| `Repository.MatchesIgnoresLifecycle` | src/services/payment/PaymentRepository.ts:73-75 | no filter looks at `updatedAt` or `deletedAt`, so soft-deleted records are not hidden |
| `Repository.Select` | src/services/payment/PaymentRepository.ts:73-75 | the filtered result is never longer than the store |
| `Repository.SelectMember` | src/services/payment/PaymentRepository.ts:42-75 | a record is in `get`'s result iff it is in the store and passes `checkId && checkContractId && checkTime` |
| `Repository.SelectIsOrderedSubsequence` | src/services/payment/PaymentRepository.ts:73-75 | `get`'s result is the store read at a strictly increasing list of positions, and those positions are exactly the matching ones (the matching subsequence, in insertion order) |
| `Repository.SelectAppend` | src/services/payment/PaymentRepository.ts:73-75 | filtering a concatenation of stores is the concatenation of the filtered parts |
| `Repository.SelectNoFilter` | src/services/payment/PaymentRepository.ts:42-53 | with no criteria, `get` returns the whole store unchanged |
| `Repository.PaymentRepository.Get` | src/services/payment/PaymentRepository.ts:28-76 | returns the filter of the current store and changes nothing |
| `Repository.SelectByIdUnique` | src/services/payment/PaymentRepository.ts:78-79 | with unique ids, `get({ids: [id]})` is `[x]` for the record `x` carrying `id` and `[]` for an id not in the store |
| `Repository.Lookup` | src/services/payment/PaymentRepository.ts:78-86 | a success returns a stored record with that id; a failure is `NotFound(id)`; an id absent from the store always fails |
| `Repository.LookupUnique` | src/services/payment/PaymentRepository.ts:78-86 | with unique ids, `getById` succeeds iff the id is stored, and then returns exactly that record |
| `Repository.LookupDuplicate` | src/services/payment/PaymentRepository.ts:81-83 | two records sharing an id make `getById` fail: the guard is "not exactly one", not "none" |
| `Repository.LookupSingle` | src/services/payment/PaymentRepository.ts:78-86 | a record whose id no other record carries is what `getById` returns, even when other ids in the store repeat |
| `Repository.LookupExactlyOne` | src/services/payment/PaymentRepository.ts:78-86 | `getById` succeeds iff exactly one stored record carries the id, for any store |
| `Repository.PaymentRepository.GetById` | src/services/payment/PaymentRepository.ts:78-86 | returns what `Lookup` gives on the current store; under the store invariant it succeeds iff the id is stored |
| `Repository.Overlay` | src/services/payment/PaymentRepository.ts:94-98 | the object spread `{ ...base, ...patch }`: each key present in the patch replaces the field |
| `Repository.Merge` | src/services/payment/PaymentRepository.ts:94-98 | `{ ...found, updatedAt: now, ...update }`: the stamp goes in first, so a patch that carries `updatedAt` overrides it |
| `Repository.MergeValueOnly` | src/services/payment/PaymentRepository.ts:94-98 | an update of `value` alone changes `value` and sets `updatedAt = now`, and leaves every other field as it was |
| `Repository.MergeIdempotent` | src/services/payment/PaymentRepository.ts:94-98 | applying the same patch twice at the same instant gives the same record as applying it once |
| `Repository.ReplaceWhere` | src/services/payment/PaymentRepository.ts:100-102 | replacing by id keeps the store's length |
| `Repository.ReplaceSingle` | src/services/payment/PaymentRepository.ts:100-102 | when the record at `k` is the only one carrying its id, as `getById` has just checked, the `map` replaces exactly that record |
| `Repository.ReplaceUnique` | src/services/payment/PaymentRepository.ts:100-102 | with unique ids, the `map` replaces exactly the record at its own position and no other |
| `Repository.PaymentRepository.Update` | src/services/payment/PaymentRepository.ts:88-105 | an unknown id fails with `NotFound(id)` and leaves the store as it was; otherwise the record at its position `k` is replaced by `{...old, updatedAt: now, ...patch}` and everything else, length and order included, is kept; a following `getById` returns the new record; ids stay unique |
| `Repository.DeletePatch` | src/services/payment/PaymentRepository.ts:107-108 | the patch `delete` hands to `update`: the id and `deletedAt = now` |
| `Repository.MergeDelete` | src/services/payment/PaymentRepository.ts:107-109 | the delete patch sets `deletedAt` and `updatedAt` to `now` and keeps every other field |
| `Repository.SoftDeleteKeepsVisible` | src/services/payment/PaymentRepository.ts:107-109 | after a soft delete, the record is listed by exactly the filters that listed it before |
| `Repository.PaymentRepository.Delete` | src/services/payment/PaymentRepository.ts:107-109 | fails like `update` on an unknown id; otherwise the record stays at its position with `deletedAt = updatedAt = now` and its other fields unchanged, and `getById` still returns it |
| `Repository.PaymentRepository.Clear` | src/services/payment/PaymentRepository.ts:111-113 | empties the store and keeps the id counter, so ids are never reused |
| `Resolver.SumFrom` | src/API/payment/PaymentResolver.ts:50-52 | the `reduce` left fold: from the accumulator, add each record's `value` in store order |
| `Resolver.ContractQuery` | src/API/payment/PaymentResolver.ts:44-47 | the `get` query of `contractPayments`: one contract id and the given interval, no id criterion |
| `Resolver.SumFromTotal` | src/API/payment/PaymentResolver.ts:50-52 | the `reduce` left fold from an accumulator adds the arithmetic total of the values to it |
| `Resolver.TotalAppend` | src/API/payment/PaymentResolver.ts:50-52 | the total of a concatenation is the sum of the totals |
| `Resolver.ContractPaymentsOf` | src/API/payment/PaymentResolver.ts:42-55 | `sum` is the total of `value` over `items`, 0 when `items` is empty; there are never more items than stored records |
| `Resolver.ContractItems` | src/API/payment/PaymentResolver.ts:44-47 | an item is returned iff it is stored, belongs to the requested contract and passes the time check |
| `Resolver.ContractSumAfterAdd` | src/API/payment/PaymentResolver.ts:44-52 | appending a record changes a contract's sum by the record's value if it is selected, and by 0 otherwise |
| `Resolver.SoftDeleteKeepsTotals` | src/services/payment/PaymentRepository.ts:73-75 | changing a record's `updatedAt`/`deletedAt` changes neither the number of records a filter returns nor the total of their values |
| `Resolver.ContractPaymentsAfterDelete` | src/API/payment/PaymentResolver.ts:42-55 | after `delete` of any stored record, every contract's `sum` and item count are what they were before |
| `Resolver.ContractPaymentsExamples` | src/API/payment/PaymentResolver.spec.ts:355-443 | for contract 1 (values 1, 2 at times 1, 2) and contract 2 (values 3, 4 at times 3, 4): contract 1 after 2 gives sum 2 and 1 item; contract 1 after 3 gives 0 and none; contract 2 after 3 gives 7 and 2 items; contract 2 before 3 gives 3 and 1 item |
| `Resolver.AsPatch` | src/API/payment/PaymentResolver.ts:25-28 | the update input passed on unchanged: id and the four editable fields, no lifecycle stamps |
| `Resolver.UpdateInputKeepsLifecycle` | src/API/payment/PaymentResolver.ts:25-28 | an update through the facade never changes `id`, `createdAt` or `deletedAt`, and sets `updatedAt = now` |
| `Resolver.PaymentResolver.constructor` | src/API/payment/PaymentResolver.ts:14-16 | the facade is bound to the given store |
| `Resolver.PaymentResolver.CreatePayment` | src/API/payment/PaymentResolver.ts:20-23 | returns exactly what `add` returns, with the same effect on the store |
| `Resolver.PaymentResolver.UpdatePayment` | src/API/payment/PaymentResolver.ts:25-28 | returns exactly what `update` returns, its `NotFound` failure included, with the same effect on the store and the id counter |
| `Resolver.PaymentResolver.DeletePayment` | src/API/payment/PaymentResolver.ts:30-33 | returns exactly what `delete` returns, its `NotFound` failure included, with the same effect on the store and the id counter |
| `Resolver.PaymentResolver.Payments` | src/API/payment/PaymentResolver.ts:37-40 | returns exactly the store's `get` for the filters |
| `Resolver.PaymentResolver.ContractPayments` | src/API/payment/PaymentResolver.ts:42-55 | `items` is `get({contractIds: [contractId], timeInterval})` on the current store and `sum` is the fold of their values |

## Left out

- Id generation: `nanoid()` is a random string generator. Ids here are natural numbers from a counter, which makes freshness provable rather than probable.
- Wall-clock reads (`new Date()`) become a `now` parameter. Nothing orders successive `now` values, so the ordering `createdAt <= updatedAt` is not stated.
- `Repository.PaymentRepository.Delete`: `delete` reads the clock for `deletedAt` and `update` reads it again for `updatedAt`. The model uses one instant for both, so it states `deletedAt == updatedAt`, which the source only approximates.
- `value` is a JavaScript floating-point number. It is modelled as an exact integer, so the rounding of the `reduce` sum is not modelled.
- A patch key present with the value `undefined`/`null` for `contractId`, `description`, `value`, `time` or `createdAt` is not modelled, because these fields are not optional in the record. For `updatedAt` and `deletedAt` it is modelled (`Some(None)` clears the field).
- The error is `NotFound(id)` rather than the message text `Payment not found: <id>`.
- NestJS/GraphQL decorators, schema classes, dependency injection and HTTP transport. This includes the serialisation of dates as ISO strings and of absent fields as `null`.
- Concurrency: the source is single-threaded and so is the model.
- Shared references: `add`, `update` and `get` hand back the stored objects themselves, so a caller that changes a returned payment changes the store. The model's records are immutable values, so that aliasing is not modelled.
