/**
 * The query/mutation facade (src/API/payment/PaymentResolver.ts): four
 * delegations to the store and the per-contract aggregation.
 */
module Resolver {
  import opened Wrappers
  import opened Entities
  import opened Repository

  /** The input of `updatePayment`: the id and the four editable fields. */
  datatype UpdateInput = UpdateInput(
    id: PaymentId,
    contractId: Option<string>,
    description: Option<string>,
    value: Option<int>,
    time: Option<int>)

  /** The input of `contractPayments`. */
  datatype ContractFilter = ContractFilter(contractId: string, timeInterval: Option<TimeInterval>)

  /** The answer of `contractPayments`. */
  datatype ContractPaymentsEntity = ContractPaymentsEntity(sum: int, items: seq<Payment>)

  /** The update input handed to the store unchanged; it never carries the lifecycle stamps. */
  function AsPatch(u: UpdateInput): Patch {
    Patch(u.id, u.contractId, u.description, u.value, u.time, None, None, None)
  }

  /** The query `contractPayments` sends to the store's `get`. */
  function ContractQuery(filters: ContractFilter): Filter {
    Filter(None, Some([filters.contractId]), filters.timeInterval)
  }

  /** `payments.reduce((accumulator, payment) => accumulator + payment.value, acc)`. */
  function SumFrom(acc: int, payments: seq<Payment>): int
    decreases |payments|
  {
    if payments == [] then acc else SumFrom(acc + payments[0].value, payments[1..])
  }

  /** The arithmetic total of the values, the reference for the fold. */
  function Total(payments: seq<Payment>): int {
    if payments == [] then 0 else payments[0].value + Total(payments[1..])
  }

  /** The left fold from `acc` adds the total to `acc`. */
  lemma {:induction false} SumFromTotal(acc: int, payments: seq<Payment>)
    ensures SumFrom(acc, payments) == acc + Total(payments)
    decreases |payments|
  {
    if payments != [] {
      SumFromTotal(acc + payments[0].value, payments[1..]);
    }
  }

  /** The total of a concatenation is the sum of the totals. */
  lemma {:induction false} TotalAppend(a: seq<Payment>, b: seq<Payment>)
    ensures Total(a + b) == Total(a) + Total(b)
  {
    if a == [] {
      assert a + b == b;
    } else {
      assert (a + b)[0] == a[0] && (a + b)[1..] == a[1..] + b;
      TotalAppend(a[1..], b);
    }
  }

  /**
   * `contractPayments`: the records of one contract, in store order, within
   * the optional interval, and the sum of their values (0 when there are none).
   */
  function ContractPaymentsOf(store: seq<Payment>, filters: ContractFilter): (r: ContractPaymentsEntity)
    ensures |r.items| <= |store|
    ensures r.sum == Total(r.items)
    ensures r.items == [] ==> r.sum == 0
  {
    var payments := Select(store, ContractQuery(filters));
    SumFromTotal(0, payments);
    ContractPaymentsEntity(SumFrom(0, payments), payments)
  }

  /** The items are exactly the stored records of the contract that fall in the interval. */
  lemma ContractItems(store: seq<Payment>, filters: ContractFilter, p: Payment)
    ensures p in ContractPaymentsOf(store, filters).items <==>
      p in store && p.contractId == filters.contractId && CheckTime(filters.timeInterval, p.time)
  {
    SelectMember(store, ContractQuery(filters), p);
  }

  /** Adding a payment moves a contract's sum by its value exactly when the payment is selected. */
  lemma ContractSumAfterAdd(store: seq<Payment>, p: Payment, filters: ContractFilter)
    ensures ContractPaymentsOf(store + [p], filters).sum ==
      ContractPaymentsOf(store, filters).sum +
      (if p.contractId == filters.contractId && CheckTime(filters.timeInterval, p.time) then p.value else 0)
  {
    var q := ContractQuery(filters);
    SelectAppend(store, [p], q);
    TotalAppend(Select(store, q), Select([p], q));
    assert [p][1..] == [];
  }

  /**
   * The four records of the `contractPayments` cases of PaymentResolver.spec.ts:
   * contract 1 has values 1, 2 at times 1, 2; contract 2 has 3, 4 at times 3, 4.
   */
  function SampleStore(c1: string, c2: string, description: string, createdAt: int): seq<Payment> {
    [ Payment(0, c1, description, 1, 1, createdAt, None, None),
      Payment(1, c1, description, 2, 2, createdAt, None, None),
      Payment(2, c2, description, 3, 3, createdAt, None, None),
      Payment(3, c2, description, 4, 4, createdAt, None, None) ]
  }

  /** The filter run over the four records, one record at a time. */
  lemma SelectSample(c1: string, c2: string, description: string, createdAt: int, q: Filter)
    ensures var s := SampleStore(c1, c2, description, createdAt);
      Select(s, q) ==
        (if Matches(q, s[0]) then [s[0]] else []) + (if Matches(q, s[1]) then [s[1]] else []) +
        (if Matches(q, s[2]) then [s[2]] else []) + (if Matches(q, s[3]) then [s[3]] else [])
  {
    var s := SampleStore(c1, c2, description, createdAt);
    assert s == [s[0]] + ([s[1]] + ([s[2]] + ([s[3]] + [])));
    SelectCons(s[3], [], q);
    SelectCons(s[2], [s[3]] + [], q);
    SelectCons(s[1], [s[2]] + ([s[3]] + []), q);
    SelectCons(s[0], [s[1]] + ([s[2]] + ([s[3]] + [])), q);
  }

  /**
   * The `contractPayments` cases of PaymentResolver.spec.ts, for any two distinct contracts: bounds are inclusive
   * and each contract only sees its own records.
   */
  lemma ContractPaymentsExamples(c1: string, c2: string, description: string, createdAt: int)
    requires c1 != c2
    ensures var r := ContractPaymentsOf(SampleStore(c1, c2, description, createdAt), ContractFilter(c1, After(2)));
      r.sum == 2 && |r.items| == 1
    ensures var r := ContractPaymentsOf(SampleStore(c1, c2, description, createdAt), ContractFilter(c1, After(3)));
      r.sum == 0 && |r.items| == 0
    ensures var r := ContractPaymentsOf(SampleStore(c1, c2, description, createdAt), ContractFilter(c2, After(3)));
      r.sum == 7 && |r.items| == 2
    ensures var r := ContractPaymentsOf(SampleStore(c1, c2, description, createdAt), ContractFilter(c2, Before(3)));
      r.sum == 3 && |r.items| == 1
  {
    var s := SampleStore(c1, c2, description, createdAt);
    SelectSample(c1, c2, description, createdAt, ContractQuery(ContractFilter(c1, After(2))));
    assert Select(s, ContractQuery(ContractFilter(c1, After(2)))) == [s[1]];
    assert Total([s[1]]) == 2 by {
      assert [s[1]][1..] == [];
    }
    SelectSample(c1, c2, description, createdAt, ContractQuery(ContractFilter(c1, After(3))));
    assert Select(s, ContractQuery(ContractFilter(c1, After(3)))) == [];
    SelectSample(c1, c2, description, createdAt, ContractQuery(ContractFilter(c2, After(3))));
    assert Select(s, ContractQuery(ContractFilter(c2, After(3)))) == [s[2], s[3]];
    assert Total([s[2], s[3]]) == 7 by {
      assert [s[2], s[3]][1..] == [s[3]] && [s[3]][1..] == [];
    }
    SelectSample(c1, c2, description, createdAt, ContractQuery(ContractFilter(c2, Before(3))));
    assert Select(s, ContractQuery(ContractFilter(c2, Before(3)))) == [s[2]];
    assert Total([s[2]]) == 3 by {
      assert [s[2]][1..] == [];
    }
  }

  /** A soft delete changes neither the items count nor the sum of any contract: deleted records still count. */
  lemma {:induction false} SoftDeleteKeepsTotals(s: seq<Payment>, k: nat, u: Option<int>, v: Option<int>, f: Filter)
    requires k < |s|
    ensures var after := Select(s[k := s[k].(updatedAt := u, deletedAt := v)], f);
      |after| == |Select(s, f)| && Total(after) == Total(Select(s, f))
  {
    var d := s[k].(updatedAt := u, deletedAt := v);
    var t := s[k := d];
    MatchesIgnoresLifecycle(f, s[k], u, v);
    if k == 0 {
      assert t[1..] == s[1..];
    } else {
      assert t[1..] == s[1..][k - 1 := d] && s[1..][k - 1] == s[k];
      SoftDeleteKeepsTotals(s[1..], k - 1, u, v, f);
    }
    assert t[0].value == s[0].value && Matches(f, t[0]) == Matches(f, s[0]);
    TotalAppend(if Matches(f, t[0]) then [t[0]] else [], Select(t[1..], f));
    TotalAppend(if Matches(f, s[0]) then [s[0]] else [], Select(s[1..], f));
    assert [t[0]][1..] == [] && [s[0]][1..] == [];
  }

  /** After `delete`, `contractPayments` answers with the same sum and the same number of items. */
  lemma ContractPaymentsAfterDelete(store: seq<Payment>, k: nat, now: int, filters: ContractFilter)
    requires k < |store|
    ensures var after := ContractPaymentsOf(store[k := Merge(store[k], DeletePatch(store[k].id, now), now)], filters);
      after.sum == ContractPaymentsOf(store, filters).sum &&
      |after.items| == |ContractPaymentsOf(store, filters).items|
  {
    MergeDelete(store[k], now);
    SoftDeleteKeepsTotals(store, k, Some(now), Some(now), ContractQuery(filters));
  }

  /** Through the facade, an update can never touch `createdAt` or `deletedAt`. */
  lemma UpdateInputKeepsLifecycle(found: Payment, u: UpdateInput, now: int)
    requires u.id == found.id
    ensures var p := Merge(found, AsPatch(u), now);
      p.id == found.id && p.createdAt == found.createdAt &&
      p.deletedAt == found.deletedAt && p.updatedAt == Some(now)
  {
  }

  class PaymentResolver {
    const repository: PaymentRepository

    constructor (repository: PaymentRepository)
      ensures this.repository == repository
    {
      this.repository := repository;
    }

    /** `createPayment`: what `add` returns. */
    method CreatePayment(payment: NewPayment, now: int) returns (p: Payment)
      requires repository.Valid()
      modifies repository
      ensures repository.Valid() && repository.nextId == old(repository.nextId) + 1
      ensures p == Created(payment, old(repository.nextId), now)
      ensures !HasId(old(repository.store), p.id)
      ensures repository.store == old(repository.store) + [p]
    {
      p := repository.Add(payment, now);
    }

    /** `updatePayment`: what `update` returns, its NotFound failure included. */
    method UpdatePayment(update: UpdateInput, now: int) returns (r: Result<Payment, Error>)
      requires repository.Valid()
      modifies repository
      ensures repository.Valid() && repository.nextId == old(repository.nextId)
      ensures r.Failure? <==> !HasId(old(repository.store), update.id)
      ensures r.Failure? ==> r.error == NotFound(update.id) && repository.store == old(repository.store)
      ensures r.Success? ==>
        exists k :: 0 <= k < |old(repository.store)| && old(repository.store)[k].id == update.id &&
          r.value == Merge(old(repository.store)[k], AsPatch(update), now) &&
          repository.store == old(repository.store)[k := r.value]
    {
      r := repository.Update(AsPatch(update), now);
    }

    /** `deletePayment`: what `delete` returns, its NotFound failure included. */
    method DeletePayment(id: PaymentId, now: int) returns (r: Result<Payment, Error>)
      requires repository.Valid()
      modifies repository
      ensures repository.Valid() && repository.nextId == old(repository.nextId)
      ensures r.Failure? <==> !HasId(old(repository.store), id)
      ensures r.Failure? ==> r.error == NotFound(id) && repository.store == old(repository.store)
      ensures r.Success? ==>
        exists k :: 0 <= k < |old(repository.store)| && old(repository.store)[k].id == id &&
          r.value == old(repository.store)[k].(updatedAt := Some(now), deletedAt := Some(now)) &&
          repository.store == old(repository.store)[k := r.value]
    {
      r := repository.Delete(id, now);
    }

    /** `payments`: what `get` returns. */
    method Payments(filters: Filter) returns (payments: seq<Payment>)
      ensures payments == Select(repository.store, filters)
    {
      payments := repository.Get(filters);
    }

    /** `contractPayments`: a `get` on one contract, then the fold of the values. */
    method ContractPayments(filters: ContractFilter) returns (r: ContractPaymentsEntity)
      ensures r == ContractPaymentsOf(repository.store, filters)
      ensures r.items == Select(repository.store, ContractQuery(filters))
    {
      var payments := repository.Get(ContractQuery(filters));
      r := ContractPaymentsEntity(SumFrom(0, payments), payments);
    }
  }

  /**
   * A verified client of the facade: the four records of the `contractPayments`
   * cases of PaymentResolver.spec.ts are created through `createPayment`, and the
   * class contracts alone fix the answer for contract 2 after time 3, before and
   * after a soft delete of one of its records.
   */
  method ContractPaymentsScenario(now: int) {
    var repository := new PaymentRepository();
    var resolver := new PaymentResolver(repository);
    var _ := resolver.CreatePayment(NewPayment("fakeContractId1", "Fake description", 1, 1), now);
    var _ := resolver.CreatePayment(NewPayment("fakeContractId1", "Fake description", 2, 2), now);
    var _ := resolver.CreatePayment(NewPayment("fakeContractId2", "Fake description", 3, 3), now);
    var _ := resolver.CreatePayment(NewPayment("fakeContractId2", "Fake description", 4, 4), now);
    assert "fakeContractId1" != "fakeContractId2" by {
      assert "fakeContractId1"[14] != "fakeContractId2"[14];
    }
    assert repository.store == SampleStore("fakeContractId1", "fakeContractId2", "Fake description", now);
    ContractPaymentsExamples("fakeContractId1", "fakeContractId2", "Fake description", now);
    var r := resolver.ContractPayments(ContractFilter("fakeContractId2", After(3)));
    assert r.sum == 7 && |r.items| == 2;
    ghost var before := repository.store;
    assert |before| == 4 && before[2].id == 2;
    assert forall k :: 0 <= k < |before| ==> before[k].id == k;
    var d := resolver.DeletePayment(2, now);
    assert d.Success?;
    assert d.value == before[2].(updatedAt := Some(now), deletedAt := Some(now));
    assert repository.store[2] == d.value;
    var r2 := resolver.ContractPayments(ContractFilter("fakeContractId2", After(3)));
    ContractItems(repository.store, ContractFilter("fakeContractId2", After(3)), d.value);
    assert d.value in r2.items;
    MergeDelete(before[2], now);
    ContractPaymentsAfterDelete(before, 2, now, ContractFilter("fakeContractId2", After(3)));
    assert r2.sum == 7 && |r2.items| == 2;
  }
}
