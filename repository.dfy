/**
 * The in-memory payment store (src/services/payment/PaymentRepository.ts):
 * the record filters used by `get`, the overlay used by `update`, and the
 * class that owns the store and changes it.
 */
module Repository {
  import opened Wrappers
  import opened Entities

  /** The fields a caller gives to `add`: everything but the id and the lifecycle stamps. */
  datatype NewPayment = NewPayment(contractId: string, description: string, value: int, time: int)

  /**
   * The argument of `update`: the id and any subset of the other fields.
   * For `updatedAt` and `deletedAt`, `Some(None)` is a key present with the
   * value `undefined`, which the object spread copies over the record.
   */
  datatype Patch = Patch(
    id: PaymentId,
    contractId: Option<string>,
    description: Option<string>,
    value: Option<int>,
    time: Option<int>,
    createdAt: Option<int>,
    updatedAt: Option<Option<int>>,
    deletedAt: Option<Option<int>>)

  /** Optional bounds of a time filter. */
  datatype TimeInterval = TimeInterval(after: Option<int>, before: Option<int>)

  /** The argument of `get`: three optional criteria, combined by conjunction. */
  datatype Filter = Filter(
    ids: Option<seq<PaymentId>>,
    contractIds: Option<seq<string>>,
    timeInterval: Option<TimeInterval>)

  /** The error thrown as `Payment not found: <id>`. */
  datatype Error = NotFound(id: PaymentId)

  const NoFilter: Filter := Filter(None, None, None)

  /** The filter `getById` passes to `get`. */
  function ById(id: PaymentId): Filter {
    Filter(Some([id]), None, None)
  }

  /* ---------------------------------------------------------------- records */

  /** The record `add` builds from its input, a fresh id and the creation time. */
  function Created(input: NewPayment, id: PaymentId, now: int): Payment {
    Payment(id, input.contractId, input.description, input.value, input.time, now, None, None)
  }

  /** `{ ...base, ...patch }`: every key present in the patch replaces the record's field. */
  function Overlay(base: Payment, patch: Patch): Payment {
    Payment(
      patch.id,
      patch.contractId.GetOr(base.contractId),
      patch.description.GetOr(base.description),
      patch.value.GetOr(base.value),
      patch.time.GetOr(base.time),
      patch.createdAt.GetOr(base.createdAt),
      patch.updatedAt.GetOr(base.updatedAt),
      patch.deletedAt.GetOr(base.deletedAt))
  }

  /** `{ ...found, updatedAt: now, ...patch }`: the record `update` stores and returns. */
  function Merge(found: Payment, patch: Patch, now: int): Payment {
    Overlay(found.(updatedAt := Some(now)), patch)
  }

  /** The patch `delete` hands to `update`. */
  function DeletePatch(id: PaymentId, now: int): Patch {
    Patch(id, None, None, None, None, None, None, Some(Some(now)))
  }

  /** A patch that sets `value` alone. */
  function ValuePatch(id: PaymentId, v: int): Patch {
    Patch(id, None, None, Some(v), None, None, None, None)
  }

  /** Updating only `value` changes `value` and `updatedAt` and leaves every other field alone. */
  lemma MergeValueOnly(found: Payment, v: int, now: int)
    ensures Merge(found, ValuePatch(found.id, v), now) == found.(value := v, updatedAt := Some(now))
  {
  }

  /** A soft delete stamps `deletedAt` and `updatedAt` with the same instant and keeps the rest. */
  lemma MergeDelete(found: Payment, now: int)
    ensures Merge(found, DeletePatch(found.id, now), now)
         == found.(updatedAt := Some(now), deletedAt := Some(now))
  {
  }

  /** Applying the same patch twice at the same instant is the same as applying it once. */
  lemma MergeIdempotent(found: Payment, patch: Patch, now: int)
    ensures Merge(Merge(found, patch, now), patch, now) == Merge(found, patch, now)
  {
  }

  /* ---------------------------------------------------------------- filters */

  /** `checkId`: an absent list lets every record through; a present one, even empty, is a membership test. */
  predicate CheckId(ids: Option<seq<PaymentId>>, p: Payment) {
    match ids
    case None => true
    case Some(xs) => p.id in xs
  }

  /** `checkContractId`, as `checkId` but on the contract id. */
  predicate CheckContractId(contractIds: Option<seq<string>>, p: Payment) {
    match contractIds
    case None => true
    case Some(cs) => p.contractId in cs
  }

  /**
   * `checkTime`. A present bound is a `Date`, which is always truthy, so the
   * source's truthiness tests are presence tests. When the interval is present
   * but has neither bound, the source falls off the end of the function and
   * returns `undefined`, which the filter reads as false.
   */
  predicate CheckTime(interval: Option<TimeInterval>, time: int) {
    match interval
    case None => true
    case Some(TimeInterval(after, before)) =>
      if after.Some? && before.Some? then time >= after.value && time <= before.value
      else if after.Some? then time >= after.value
      else if before.Some? then time <= before.value
      else false
  }

  /** The predicate `get` hands to `Array.prototype.filter`. */
  predicate Matches(f: Filter, p: Payment) {
    CheckId(f.ids, p) && CheckContractId(f.contractIds, p) && CheckTime(f.timeInterval, p.time)
  }

  /**
   * The time filter in closed form: no interval passes everything; otherwise
   * at least one bound must be present and each present bound is inclusive.
   */
  lemma CheckTimeBounds(interval: Option<TimeInterval>, time: int)
    ensures CheckTime(interval, time) <==>
      match interval
      case None => true
      case Some(iv) =>
        (iv.after.Some? || iv.before.Some?) &&
        (iv.after.Some? ==> iv.after.value <= time) &&
        (iv.before.Some? ==> time <= iv.before.value)
  {
  }

  /** An interval with a lower bound only. */
  function After(t: int): Option<TimeInterval> {
    Some(TimeInterval(Some(t), None))
  }

  /** An interval with an upper bound only. */
  function Before(t: int): Option<TimeInterval> {
    Some(TimeInterval(None, Some(t)))
  }

  /** Soft-delete and update stamps never hide a record from any filter. */
  lemma MatchesIgnoresLifecycle(f: Filter, p: Payment, updatedAt: Option<int>, deletedAt: Option<int>)
    ensures Matches(f, p.(updatedAt := updatedAt, deletedAt := deletedAt)) == Matches(f, p)
  {
  }

  /** `store.filter(matches)`: the matching records, in store order. */
  function Select(s: seq<Payment>, f: Filter): (r: seq<Payment>)
    ensures |r| <= |s|
  {
    if s == [] then []
    else (if Matches(f, s[0]) then [s[0]] else []) + Select(s[1..], f)
  }

  /** An interval given with neither bound lets no record through, whatever the other criteria. */
  lemma {:induction false} SelectEmptyInterval(s: seq<Payment>, ids: Option<seq<PaymentId>>, contractIds: Option<seq<string>>)
    ensures Select(s, Filter(ids, contractIds, Some(TimeInterval(None, None)))) == []
  {
    if s != [] {
      SelectEmptyInterval(s[1..], ids, contractIds);
    }
  }

  /**
   * Two records at times 1 and 2: `after` the later time keeps the later one,
   * `before` the earlier time keeps the earlier one, and the closed interval
   * between them keeps both.
   */
  lemma SelectTimeExamples(a: Payment, b: Payment)
    requires a.time == 1 && b.time == 2
    ensures Select([a, b], Filter(None, None, After(b.time))) == [b]
    ensures Select([a, b], Filter(None, None, Before(a.time))) == [a]
    ensures Select([a, b], Filter(None, None, Some(TimeInterval(Some(a.time), Some(b.time))))) == [a, b]
  {
    assert [a, b] == [a] + [b] && [b] == [b] + [];
    forall f: Filter ensures Select([a, b], f) == (if Matches(f, a) then [a] else []) + (if Matches(f, b) then [b] else []) {
      SelectCons(a, [b], f);
      SelectCons(b, [], f);
    }
  }

  /** A record is in the result of `get` exactly when it is in the store and matches. */
  lemma {:induction false} SelectMember(s: seq<Payment>, f: Filter, p: Payment)
    ensures p in Select(s, f) <==> p in s && Matches(f, p)
  {
    if s != [] {
      SelectMember(s[1..], f, p);
      assert s == [s[0]] + s[1..];
    }
  }

  /** Filtering a store with one record in front. */
  lemma SelectCons(p: Payment, s: seq<Payment>, f: Filter)
    ensures Select([p] + s, f) == (if Matches(f, p) then [p] else []) + Select(s, f)
  {
    assert ([p] + s)[0] == p && ([p] + s)[1..] == s;
  }

  /** Filtering distributes over concatenation of stores. */
  lemma {:induction false} SelectAppend(a: seq<Payment>, b: seq<Payment>, f: Filter)
    ensures Select(a + b, f) == Select(a, f) + Select(b, f)
  {
    if a == [] {
      assert a + b == b;
    } else {
      assert (a + b)[0] == a[0] && (a + b)[1..] == a[1..] + b;
      SelectAppend(a[1..], b, f);
    }
  }

  /** With no criteria, `get` returns the whole store. */
  lemma {:induction false} SelectNoFilter(s: seq<Payment>)
    ensures Select(s, NoFilter) == s
  {
    if s != [] {
      SelectNoFilter(s[1..]);
    }
  }

  ghost predicate StrictlyIncreasing(idx: seq<nat>) {
    forall i, j :: 0 <= i < j < |idx| ==> idx[i] < idx[j]
  }

  /** The positions, among the first `n` records, of those that match, ascending. */
  ghost function Positions(s: seq<Payment>, f: Filter, n: nat): seq<nat>
    requires n <= |s|
  {
    if n == 0 then [] else Positions(s, f, n - 1) + if Matches(f, s[n - 1]) then [n - 1] else []
  }

  /** `Positions` lists exactly the positions of the matching records, in ascending order. */
  lemma {:induction false} PositionsMatching(s: seq<Payment>, f: Filter, n: nat)
    requires n <= |s|
    ensures var idx := Positions(s, f, n);
      StrictlyIncreasing(idx) &&
      (forall i :: 0 <= i < |idx| ==> idx[i] < n) &&
      (forall k :: 0 <= k < n ==> (k in idx <==> Matches(f, s[k])))
  {
    if n > 0 {
      PositionsMatching(s, f, n - 1);
      var prev := Positions(s, f, n - 1);
      var idx := Positions(s, f, n);
      assert idx == prev + if Matches(f, s[n - 1]) then [n - 1] else [];
      forall k | 0 <= k < n
        ensures k in idx <==> Matches(f, s[k])
      {
        if k < n - 1 {
          assert k in idx <==> k in prev;
        }
      }
    }
  }

  /** Reading the store at `Positions` gives the filter's result. */
  lemma {:induction false} PositionsSelect(s: seq<Payment>, f: Filter, n: nat)
    requires n <= |s|
    ensures var idx := Positions(s, f, n);
      |idx| == |Select(s[..n], f)| &&
      (forall i :: 0 <= i < |idx| ==> idx[i] < |s| && Select(s[..n], f)[i] == s[idx[i]])
  {
    if n > 0 {
      PositionsSelect(s, f, n - 1);
      PositionsMatching(s, f, n - 1);
      var one := [s[n - 1]];
      assert s[..n] == s[..n - 1] + one;
      SelectAppend(s[..n - 1], one, f);
      assert one[1..] == [];
      assert Select(one, f) == if Matches(f, s[n - 1]) then one else [];
    }
  }

  /**
   * `get` returns exactly the records of the store that match, in store
   * order: the result is the store read at a strictly increasing list of
   * positions, and those positions are exactly the matching ones.
   */
  lemma SelectIsOrderedSubsequence(s: seq<Payment>, f: Filter)
    ensures exists idx: seq<nat> ::
      |idx| == |Select(s, f)| && StrictlyIncreasing(idx) &&
      (forall i :: 0 <= i < |idx| ==> idx[i] < |s| && Select(s, f)[i] == s[idx[i]]) &&
      (forall k :: 0 <= k < |s| ==> (k in idx <==> Matches(f, s[k])))
  {
    assert s[..|s|] == s;
    PositionsSelect(s, f, |s|);
    PositionsMatching(s, f, |s|);
    var idx := Positions(s, f, |s|);
  }

  /* ---------------------------------------------------------------- ids */

  ghost predicate HasId(s: seq<Payment>, id: PaymentId) {
    exists k :: 0 <= k < |s| && s[k].id == id
  }

  ghost predicate UniqueIds(s: seq<Payment>) {
    forall i, j :: 0 <= i < j < |s| ==> s[i].id != s[j].id
  }

  /** When ids are unique, the id filter finds the one record carrying that id, or nothing. */
  lemma {:induction false} SelectByIdUnique(s: seq<Payment>, id: PaymentId)
    requires UniqueIds(s)
    ensures !HasId(s, id) ==> Select(s, ById(id)) == []
    ensures forall k :: 0 <= k < |s| && s[k].id == id ==> Select(s, ById(id)) == [s[k]]
  {
    if s != [] {
      assert UniqueIds(s[1..]) by {
        forall i, j | 0 <= i < j < |s[1..]| ensures s[1..][i].id != s[1..][j].id {
          assert s[1..][i] == s[i + 1] && s[1..][j] == s[j + 1];
        }
      }
      SelectByIdUnique(s[1..], id);
      if s[0].id == id {
        assert !HasId(s[1..], id) by {
          forall k | 0 <= k < |s[1..]| ensures s[1..][k].id != id {
            assert s[1..][k] == s[k + 1];
          }
        }
      } else {
        forall k | 0 <= k < |s| && s[k].id == id ensures Select(s, ById(id)) == [s[k]] {
          assert k > 0 && s[1..][k - 1] == s[k];
        }
        if !HasId(s, id) {
          assert !HasId(s[1..], id) by {
            forall k | 0 <= k < |s[1..]| ensures s[1..][k].id != id {
              assert s[1..][k] == s[k + 1];
            }
          }
        }
      }
    }
  }

  /** `getById`: the one record that `get({ids: [id]})` yields, or NotFound when it yields zero or several. */
  function Lookup(s: seq<Payment>, id: PaymentId): (r: Result<Payment, Error>)
    ensures r.Success? ==> r.value in s && r.value.id == id
    ensures r.Failure? ==> r.error == NotFound(id)
    ensures !HasId(s, id) ==> r.Failure?
  {
    var found := Select(s, ById(id));
    if |found| != 1 then Failure(NotFound(id)) else
      SelectMember(s, ById(id), found[0]);
      Success(found[0])
  }

  /** With unique ids, `getById` succeeds exactly for the ids in the store and returns that record. */
  lemma LookupUnique(s: seq<Payment>, id: PaymentId)
    requires UniqueIds(s)
    ensures Lookup(s, id).Success? <==> HasId(s, id)
    ensures forall k :: 0 <= k < |s| && s[k].id == id ==> Lookup(s, id) == Success(s[k])
  {
    SelectByIdUnique(s, id);
  }

  /** Two records with the same id make `getById` fail: the guard is `!== 1`, not `< 1`. */
  lemma LookupDuplicate(s: seq<Payment>, i: nat, j: nat)
    requires i < j < |s| && s[i].id == s[j].id
    ensures Lookup(s, s[i].id) == Failure(NotFound(s[i].id))
  {
    var f := ById(s[i].id);
    assert s == s[..j] + s[j..];
    SelectAppend(s[..j], s[j..], f);
    assert s[..j][i] == s[i] && s[j..][0] == s[j];
    SelectMember(s[..j], f, s[i]);
    SelectMember(s[j..], f, s[j]);
  }

  /** A store none of whose records matches filters to nothing. */
  lemma {:induction false} SelectNone(s: seq<Payment>, f: Filter)
    requires forall k :: 0 <= k < |s| ==> !Matches(f, s[k])
    ensures Select(s, f) == []
  {
    if s != [] {
      assert !Matches(f, s[0]);
      SelectNone(s[1..], f);
    }
  }

  /** A record whose id no other record carries is what `getById` returns, whether or not the rest of the store is unique. */
  lemma LookupSingle(s: seq<Payment>, id: PaymentId, k: nat)
    requires k < |s| && s[k].id == id
    requires forall j :: 0 <= j < |s| && s[j].id == id ==> j == k
    ensures Lookup(s, id) == Success(s[k])
  {
    var f := ById(id);
    var front, rest := s[..k], s[k + 1..];
    assert s == front + ([s[k]] + rest);
    SelectAppend(front, [s[k]] + rest, f);
    SelectCons(s[k], rest, f);
    assert forall j :: 0 <= j < |front| ==> front[j] == s[j];
    assert forall j :: 0 <= j < |rest| ==> rest[j] == s[k + 1 + j];
    SelectNone(front, f);
    SelectNone(rest, f);
  }

  /** `getById` succeeds exactly when one record, and one only, carries the id. */
  lemma LookupExactlyOne(s: seq<Payment>, id: PaymentId)
    ensures Lookup(s, id).Success? <==>
      exists k :: 0 <= k < |s| && s[k].id == id && forall j :: 0 <= j < |s| && s[j].id == id ==> j == k
  {
    if Lookup(s, id).Success? {
      var k :| 0 <= k < |s| && s[k] == Lookup(s, id).value;
      forall j | 0 <= j < |s| && s[j].id == id
        ensures j == k
      {
        if j < k {
          LookupDuplicate(s, j, k);
        } else if k < j {
          LookupDuplicate(s, k, j);
        }
      }
    } else if exists k :: 0 <= k < |s| && s[k].id == id && forall j :: 0 <= j < |s| && s[j].id == id ==> j == k {
      var k :| 0 <= k < |s| && s[k].id == id && forall j :: 0 <= j < |s| && s[j].id == id ==> j == k;
      LookupSingle(s, id, k);
    }
  }

  /** `store.map(p => p.id === id ? x : p)`. */
  function ReplaceWhere(s: seq<Payment>, id: PaymentId, x: Payment): (r: seq<Payment>)
    ensures |r| == |s|
  {
    seq(|s|, i requires 0 <= i < |s| => if s[i].id == id then x else s[i])
  }

  /**
   * When the record at `k` is the only one carrying its id (what `getById`
   * has just checked), the `map` in `update` replaces exactly that record.
   */
  lemma ReplaceSingle(s: seq<Payment>, k: nat, x: Payment)
    requires k < |s|
    requires forall j :: 0 <= j < |s| && s[j].id == s[k].id ==> j == k
    ensures ReplaceWhere(s, s[k].id, x) == s[k := x]
  {
  }

  /** With unique ids, the `map` in `update` replaces exactly the record at its position. */
  lemma ReplaceUnique(s: seq<Payment>, k: nat, x: Payment)
    requires UniqueIds(s) && k < |s|
    ensures ReplaceWhere(s, s[k].id, x) == s[k := x]
  {
    ReplaceSingle(s, k, x);
  }

  /** A soft-deleted record is listed by exactly the filters that listed it before. */
  lemma SoftDeleteKeepsVisible(s: seq<Payment>, k: nat, now: int, f: Filter)
    requires k < |s|
    ensures var d := Merge(s[k], DeletePatch(s[k].id, now), now);
      d in Select(s[k := d], f) <==> s[k] in Select(s, f)
  {
    var d := Merge(s[k], DeletePatch(s[k].id, now), now);
    MergeDelete(s[k], now);
    MatchesIgnoresLifecycle(f, s[k], Some(now), Some(now));
    assert s[k := d][k] == d;
    SelectMember(s[k := d], f, d);
    SelectMember(s, f, s[k]);
  }

  /* ---------------------------------------------------------------- the store */

  class PaymentRepository {
    /** The records, in insertion order. */
    var store: seq<Payment>
    /** The next id to hand out; it stands in for the random id generator and is never reset. */
    var nextId: PaymentId

    /** Every stored id was handed out already, and no two records share one. */
    ghost predicate Valid()
      reads this
    {
      (forall k :: 0 <= k < |store| ==> store[k].id < nextId) && UniqueIds(store)
    }

    constructor ()
      ensures Valid() && store == [] && nextId == 0
    {
      store := [];
      nextId := 0;
    }

    /** `add`: appends a record with a fresh id, `createdAt = now`, no update or delete stamp. */
    method Add(payment: NewPayment, now: int) returns (p: Payment)
      requires Valid()
      modifies this
      ensures Valid() && nextId == old(nextId) + 1
      ensures p == Created(payment, old(nextId), now)
      ensures !HasId(old(store), p.id)
      ensures store == old(store) + [p]
    {
      p := Created(payment, nextId, now);
      nextId := nextId + 1;
      store := store + [p];
    }

    /** `get`: reads the store, changes nothing. */
    method Get(filter: Filter) returns (payments: seq<Payment>)
      ensures payments == Select(store, filter)
    {
      payments := Select(store, filter);
    }

    /** `getById`. */
    method GetById(id: PaymentId) returns (r: Result<Payment, Error>)
      ensures r == Lookup(store, id)
      ensures Valid() ==> (r.Success? <==> HasId(store, id))
    {
      if Valid() {
        LookupUnique(store, id);
      }
      var payments := Get(ById(id));
      if |payments| != 1 {
        return Failure(NotFound(id));
      }
      return Success(payments[0]);
    }

    /**
     * `update`: fails through `getById` with the store untouched, or replaces
     * the record in place by the merged one and returns it.
     */
    method Update(patch: Patch, now: int) returns (r: Result<Payment, Error>)
      requires Valid()
      modifies this
      ensures Valid() && nextId == old(nextId)
      ensures r.Failure? <==> !HasId(old(store), patch.id)
      ensures r.Failure? ==> r.error == NotFound(patch.id) && store == old(store)
      ensures r.Success? ==>
        exists k :: 0 <= k < |old(store)| && old(store)[k].id == patch.id &&
          r.value == Merge(old(store)[k], patch, now) && store == old(store)[k := r.value]
      ensures r.Success? ==> Lookup(store, patch.id) == Success(r.value)
    {
      var found :- GetById(patch.id);
      var k :| 0 <= k < |store| && store[k].id == patch.id;
      LookupUnique(store, patch.id);
      var updated := Merge(found, patch, now);
      ReplaceUnique(store, k, updated);
      store := ReplaceWhere(store, patch.id, updated);
      assert store[k] == updated;
      LookupUnique(store, patch.id);
      return Success(updated);
    }

    /** `delete`: an update that sets `deletedAt`; the record stays in the store. */
    method Delete(id: PaymentId, now: int) returns (r: Result<Payment, Error>)
      requires Valid()
      modifies this
      ensures Valid() && nextId == old(nextId)
      ensures r.Failure? <==> !HasId(old(store), id)
      ensures r.Failure? ==> r.error == NotFound(id) && store == old(store)
      ensures r.Success? ==>
        exists k :: 0 <= k < |old(store)| && old(store)[k].id == id &&
          r.value == old(store)[k].(updatedAt := Some(now), deletedAt := Some(now)) &&
          store == old(store)[k := r.value]
      ensures r.Success? ==> Lookup(store, id) == Success(r.value)
    {
      r := Update(DeletePatch(id, now), now);
      if r.Success? {
        ghost var k :| 0 <= k < |old(store)| && old(store)[k].id == id &&
          r.value == Merge(old(store)[k], DeletePatch(id, now), now) && store == old(store)[k := r.value];
        MergeDelete(old(store)[k], now);
      }
    }

    /** `clear`: empties the store; ids already handed out stay used. */
    method Clear()
      modifies this
      ensures Valid() && store == [] && nextId == old(nextId)
    {
      store := [];
    }
  }
}
