/** The income and expense controllers: adding a record, listing a user's records
    newest first, deleting by id, and the rows of the spreadsheet export.
    The two collections are modelled as sequences of `Txn` in store order. */
module Ledger {
  import opened Api
  import opened JsString
  import Seqs

  type RecordId = nat

  /** One income or expense document. `title` is an income's `source` or an expense's
      `category`; `date` is in milliseconds since the epoch; `amount` is in the smallest
      currency unit. */
  datatype Txn = Txn(id: RecordId, userId: UserId, icon: Option<string>, title: string, amount: int, date: int)

  /** Which collection a record comes from. */
  datatype Kind = IncomeKind | ExpenseKind

  function DateOf(t: Txn): int {
    t.date
  }

  function AmountOf(t: Txn): int {
    t.amount
  }

  function IdOf(t: Txn): RecordId {
    t.id
  }

  /** No two records share an `_id`: the unique index MongoDB keeps on every collection. */
  predicate IdsUnique(s: seq<Txn>) {
    Seqs.DistinctBy(IdOf, s)
  }

  /** `id` is the `_id` of no record of `store`, as every `_id` MongoDB generates is. */
  predicate FreshIn(store: seq<Txn>, id: RecordId) {
    forall i :: 0 <= i < |store| ==> store[i].id != id
  }

  /** The sum of the amounts of `s`. */
  function Total(s: seq<Txn>): int {
    Seqs.Sum(AmountOf, s)
  }

  /** Newest first: `.sort({date: -1})`. */
  function ByDateDesc(s: seq<Txn>): seq<Txn> {
    Seqs.SortDesc(DateOf, s)
  }

  /** `find({userId})`: the records of user `u`, in store order. */
  function OwnedBy(store: seq<Txn>, u: UserId): (r: seq<Txn>)
    ensures forall i :: 0 <= i < |r| ==> r[i].userId == u && r[i] in store
    ensures forall i :: 0 <= i < |store| && store[i].userId == u ==> store[i] in r
    ensures |r| <= |store|
  {
    if store == [] then []
    else (if store[0].userId == u then [store[0]] else []) + OwnedBy(store[1..], u)
  }

  /** The records of one user of a store with unique ids have unique ids. */
  lemma {:induction false} OwnedUnique(store: seq<Txn>, u: UserId)
    requires IdsUnique(store)
    ensures IdsUnique(OwnedBy(store, u))
  {
    if store != [] {
      var tail := store[1..];
      assert store == [store[0]] + tail;
      Seqs.DistinctCons(IdOf, store[0], tail);
      OwnedUnique(tail, u);
      var rt := OwnedBy(tail, u);
      if store[0].userId == u {
        forall i | 0 <= i < |rt| ensures IdOf(rt[i]) != IdOf(store[0]) {
          var k :| 0 <= k < |tail| && tail[k] == rt[i];
        }
        Seqs.DistinctCons(IdOf, store[0], rt);
      } else {
        assert OwnedBy(store, u) == rt;
      }
    }
  }

  // ---------------------------------------------------------------------------
  // Adding a record

  /** The JSON body of an add request. `title` is `source` for an income and
      `category` for an expense; `date` is the string the form sends. */
  datatype EntryBody = EntryBody(icon: Option<string>, title: Option<string>, amount: Option<int>, date: Option<string>)

  /** JavaScript truthiness of the amount: missing and `0` are falsy. */
  predicate AmountTruthy(a: Option<int>) {
    a.Some? && a.value != 0
  }

  /** The required-field guard; an error means the handler throws a 400. */
  function CheckEntry(body: EntryBody, missing: string): (e: Option<ApiError>)
    ensures e.None? <==> Truthy(body.title) && AmountTruthy(body.amount) && Truthy(body.date)
    ensures e.Some? ==> e.value.status == BadRequest
  {
    if !Truthy(body.title) || !AmountTruthy(body.amount) || !Truthy(body.date)
    then Some(ApiError(BadRequest, missing))
    else None
  }

  datatype Added = Added(store: seq<Txn>, record: Txn)

  /** The body of the `try` block: check the fields, then `create` and `save`.
      `castDate` is the schema's cast of the date string (`None` when it is not a date);
      `storeUp` is false when the store call throws. */
  function CreateEntry(store: seq<Txn>, u: UserId, body: EntryBody, freshId: RecordId,
                       castDate: string -> Option<int>, storeUp: bool, missing: string): (r: Result<Added>)
    requires FreshIn(store, freshId)
    ensures CheckEntry(body, missing).Some? ==> r == Err(CheckEntry(body, missing).value)
    ensures CheckEntry(body, missing).None? && !(castDate(body.date.value).Some? && storeUp) ==> r == Err(Crash)
    ensures CheckEntry(body, missing).None? && castDate(body.date.value).Some? && storeUp ==> r.Ok?
    ensures r.Ok? ==>
      && r.value.store == store + [r.value.record]
      && r.value.record == Txn(freshId, u, body.icon, body.title.value, body.amount.value,
                               castDate(body.date.value).value)
    ensures r.Ok? && IdsUnique(store) ==> IdsUnique(r.value.store)
  {
    match CheckEntry(body, missing)
    case Some(e) => Err(e)
    case None =>
      match castDate(body.date.value)
      case None => Err(Crash)
      case Some(d) =>
        if !storeUp then Err(Crash)
        else
          var rec := Txn(freshId, u, body.icon, body.title.value, body.amount.value, d);
          assert IdsUnique(store) ==> IdsUnique(store + [rec]) by {
            if IdsUnique(store) {
              var s' := store + [rec];
              forall i, j | 0 <= i < j < |s'| ensures IdOf(s'[i]) != IdOf(s'[j]) {
                if j == |store| { assert s'[j] == rec && s'[i] == store[i]; }
                else { assert s'[i] == store[i] && s'[j] == store[j]; }
              }
            }
          }
          Ok(Added(store + [rec], rec))
  }

  /** The `catch` around an add: every failure inside becomes the same 500. */
  function CatchAs500<T>(r: Result<T>, message: string): (o: Result<T>)
    ensures o.Ok? <==> r.Ok?
    ensures r.Ok? ==> o == r
    ensures o.Err? ==> o.error == ApiError(InternalError, message)
  {
    if r.Ok? then r else Err(ApiError(InternalError, message))
  }

  const IncomeFieldsMissing := "source , amount and date are required"
  const AddIncomeFailed := "Something went wrong while adding income"

  /** `addIncome`: a record owned by the caller is appended exactly when source, amount and
      date are truthy, the date casts, and the store answers; otherwise the answer is a 500. */
  function AddIncome(store: seq<Txn>, u: UserId, body: EntryBody, freshId: RecordId,
                     castDate: string -> Option<int>, storeUp: bool): (r: Result<Added>)
    requires FreshIn(store, freshId)
    ensures r.Ok? <==>
      Truthy(body.title) && AmountTruthy(body.amount) && Truthy(body.date)
      && castDate(body.date.value).Some? && storeUp
    ensures r.Err? ==> r.error == ApiError(InternalError, AddIncomeFailed)
    ensures r.Ok? ==>
      && r.value.store == store + [r.value.record]
      && r.value.record == Txn(freshId, u, body.icon, body.title.value, body.amount.value,
                               castDate(body.date.value).value)
    ensures r.Ok? && IdsUnique(store) ==> IdsUnique(r.value.store)
  {
    CatchAs500(CreateEntry(store, u, body, freshId, castDate, storeUp, IncomeFieldsMissing), AddIncomeFailed)
  }

  const ExpenseFieldsMissing := "category , amount and date are required"
  const AddExpenseFailed := "Something went wrong while adding expense"

  /** `addExpense`: the mirror of `addIncome` with `category` as the title. */
  function AddExpense(store: seq<Txn>, u: UserId, body: EntryBody, freshId: RecordId,
                      castDate: string -> Option<int>, storeUp: bool): (r: Result<Added>)
    requires FreshIn(store, freshId)
    ensures r.Ok? <==>
      Truthy(body.title) && AmountTruthy(body.amount) && Truthy(body.date)
      && castDate(body.date.value).Some? && storeUp
    ensures r.Err? ==> r.error == ApiError(InternalError, AddExpenseFailed)
    ensures r.Ok? ==>
      && r.value.store == store + [r.value.record]
      && r.value.record == Txn(freshId, u, body.icon, body.title.value, body.amount.value,
                               castDate(body.date.value).value)
    ensures r.Ok? && IdsUnique(store) ==> IdsUnique(r.value.store)
  {
    CatchAs500(CreateEntry(store, u, body, freshId, castDate, storeUp, ExpenseFieldsMissing), AddExpenseFailed)
  }

  /** The 400 that the field check throws never reaches the client: the caller sees a 500,
      and a zero amount is refused like a missing one. */
  lemma {:induction false} AddIncomeHidesValidation(store: seq<Txn>, u: UserId, body: EntryBody, freshId: RecordId,
                                                    castDate: string -> Option<int>, storeUp: bool)
    requires FreshIn(store, freshId) && body.amount == Some(0)
    ensures CreateEntry(store, u, body, freshId, castDate, storeUp, IncomeFieldsMissing)
            == Err(ApiError(BadRequest, IncomeFieldsMissing))
    ensures AddIncome(store, u, body, freshId, castDate, storeUp) == Err(ApiError(InternalError, AddIncomeFailed))
  {
    assert CheckEntry(body, IncomeFieldsMissing) == Some(ApiError(BadRequest, IncomeFieldsMissing));
  }

  /** The same for `addExpense`. */
  lemma {:induction false} AddExpenseHidesValidation(store: seq<Txn>, u: UserId, body: EntryBody, freshId: RecordId,
                                                     castDate: string -> Option<int>, storeUp: bool)
    requires FreshIn(store, freshId) && body.amount == Some(0)
    ensures CreateEntry(store, u, body, freshId, castDate, storeUp, ExpenseFieldsMissing)
            == Err(ApiError(BadRequest, ExpenseFieldsMissing))
    ensures AddExpense(store, u, body, freshId, castDate, storeUp) == Err(ApiError(InternalError, AddExpenseFailed))
  {
    assert CheckEntry(body, ExpenseFieldsMissing) == Some(ApiError(BadRequest, ExpenseFieldsMissing));
  }

  // ---------------------------------------------------------------------------
  // Listing

  /** `find({userId}).sort({date: -1})` with a `catch` that turns a store failure into a 500. */
  function ListOwned(store: seq<Txn>, u: UserId, storeUp: bool, failure: string): (r: Result<seq<Txn>>)
    ensures r.Ok? <==> storeUp
    ensures r.Err? ==> r.error == ApiError(InternalError, failure)
    ensures r.Ok? ==>
      && Seqs.SortedDesc(DateOf, r.value)
      && multiset(r.value) == multiset(OwnedBy(store, u))
  {
    if storeUp then Ok(ByDateDesc(OwnedBy(store, u))) else Err(ApiError(InternalError, failure))
  }

  /** A listing holds the caller's records and every one of them. */
  lemma {:induction false} ListingMembership(store: seq<Txn>, u: UserId, listing: seq<Txn>)
    requires multiset(listing) == multiset(OwnedBy(store, u))
    ensures forall t :: t in listing <==> t in store && t.userId == u
  {
    var owned := OwnedBy(store, u);
    forall t
      ensures t in listing <==> t in store && t.userId == u
    {
      assert t in listing <==> t in multiset(owned);
      if t in store && t.userId == u {
        var i :| 0 <= i < |store| && store[i] == t;
        assert t in owned;
      }
    }
  }

  const ListIncomeFailed := "Something went wrong while fetching incomes"

  /** `getAllIncome`: exactly the caller's incomes, newest first. */
  function GetAllIncome(store: seq<Txn>, u: UserId, storeUp: bool): (r: Result<seq<Txn>>)
    ensures r.Ok? <==> storeUp
    ensures r.Err? ==> r.error == ApiError(InternalError, ListIncomeFailed)
    ensures r.Ok? ==>
      && Seqs.SortedDesc(DateOf, r.value)
      && (forall t :: t in r.value <==> t in store && t.userId == u)
      && multiset(r.value) == multiset(OwnedBy(store, u))
    ensures r.Ok? && IdsUnique(store) ==> IdsUnique(r.value)
  {
    var r := ListOwned(store, u, storeUp, ListIncomeFailed);
    if r.Ok? then
      ListingMembership(store, u, r.value);
      if IdsUnique(store) then
        OwnedUnique(store, u);
        Seqs.SortDistinctBy(DateOf, IdOf, OwnedBy(store, u));
        r
      else r
    else r
  }

  const ListExpensesFailed := "Something went wrong while fetching expenses"

  /** `getAllExpenses`: exactly the caller's expenses, newest first. */
  function GetAllExpenses(store: seq<Txn>, u: UserId, storeUp: bool): (r: Result<seq<Txn>>)
    ensures r.Ok? <==> storeUp
    ensures r.Err? ==> r.error == ApiError(InternalError, ListExpensesFailed)
    ensures r.Ok? ==>
      && Seqs.SortedDesc(DateOf, r.value)
      && (forall t :: t in r.value <==> t in store && t.userId == u)
      && multiset(r.value) == multiset(OwnedBy(store, u))
    ensures r.Ok? && IdsUnique(store) ==> IdsUnique(r.value)
  {
    var r := ListOwned(store, u, storeUp, ListExpensesFailed);
    if r.Ok? then
      ListingMembership(store, u, r.value);
      if IdsUnique(store) then
        OwnedUnique(store, u);
        Seqs.SortDistinctBy(DateOf, IdOf, OwnedBy(store, u));
        r
      else r
    else r
  }

  // ---------------------------------------------------------------------------
  // Deleting

  datatype Deleted = Deleted(store: seq<Txn>, message: string)

  /** Removes every record that satisfies `hit`, keeping the order of the rest. */
  function RemoveWhere(store: seq<Txn>, id: RecordId, owner: Option<UserId>): seq<Txn>
  {
    if store == [] then []
    else (if Hit(store[0], id, owner) then [] else [store[0]]) + RemoveWhere(store[1..], id, owner)
  }

  /** A delete takes every targeted record, with all its copies, and keeps every other record as
      many times as the store holds it. */
  lemma {:induction false} RemoveWhereCounts(store: seq<Txn>, id: RecordId, owner: Option<UserId>)
    ensures var r := RemoveWhere(store, id, owner);
      forall t :: multiset(r)[t] == if Hit(t, id, owner) then 0 else multiset(store)[t]
  {
    if store != [] {
      RemoveWhereCounts(store[1..], id, owner);
      assert store == [store[0]] + store[1..];
    }
  }

  /** A record survives a delete exactly when it was stored and is not targeted. */
  lemma {:induction false} RemoveWhereMembers(store: seq<Txn>, id: RecordId, owner: Option<UserId>)
    ensures forall t :: t in RemoveWhere(store, id, owner) <==> t in store && !Hit(t, id, owner)
  {
    RemoveWhereCounts(store, id, owner);
    var r := RemoveWhere(store, id, owner);
    forall t ensures t in r <==> t in store && !Hit(t, id, owner) {
      assert t in r <==> multiset(r)[t] > 0;
      assert t in store <==> multiset(store)[t] > 0;
    }
  }

  /** One step of a delete: the first record is kept or dropped, then the rest is filtered. */
  lemma RemoveWhereCons(x: Txn, s: seq<Txn>, id: RecordId, owner: Option<UserId>)
    ensures RemoveWhere([x] + s, id, owner) == (if Hit(x, id, owner) then [] else [x]) + RemoveWhere(s, id, owner)
  {
    assert ([x] + s)[0] == x && ([x] + s)[1..] == s;
  }

  /** Removal works record by record, so the survivors keep their order: removing from two
      stretches of the store one after the other is removing from each. */
  lemma {:induction false} RemoveWhereConcat(a: seq<Txn>, b: seq<Txn>, id: RecordId, owner: Option<UserId>)
    ensures RemoveWhere(a + b, id, owner) == RemoveWhere(a, id, owner) + RemoveWhere(b, id, owner)
  {
    if a == [] {
      assert a + b == b;
    } else {
      var x, t := a[0], a[1..];
      var head := if Hit(x, id, owner) then [] else [x];
      var rt, rb := RemoveWhere(t, id, owner), RemoveWhere(b, id, owner);
      assert a == [x] + t;
      assert a + b == [x] + (t + b);
      calc {
        RemoveWhere(a + b, id, owner);
        == { RemoveWhereCons(x, t + b, id, owner); }
        head + RemoveWhere(t + b, id, owner);
        == { RemoveWhereConcat(t, b, id, owner); }
        head + (rt + rb);
        == { Seqs.ConcatAssoc(head, rt, rb); }
        (head + rt) + rb;
        == { RemoveWhereCons(x, t, id, owner); }
        RemoveWhere(a, id, owner) + rb;
      }
    }
  }

  /** A store without a targeted record is left as it is. */
  lemma {:induction false} RemoveNothing(store: seq<Txn>, id: RecordId, owner: Option<UserId>)
    requires forall i :: 0 <= i < |store| ==> !Hit(store[i], id, owner)
    ensures RemoveWhere(store, id, owner) == store
  {
    if store != [] {
      RemoveNothing(store[1..], id, owner);
      assert store == [store[0]] + store[1..];
    }
  }

  /** A delete keeps the ids of a store unique. */
  lemma {:induction false} RemoveKeepsUnique(store: seq<Txn>, id: RecordId, owner: Option<UserId>)
    ensures IdsUnique(store) ==> IdsUnique(RemoveWhere(store, id, owner))
  {
    if store != [] && IdsUnique(store) {
      var tail := store[1..];
      assert store == [store[0]] + tail;
      Seqs.DistinctCons(IdOf, store[0], tail);
      RemoveKeepsUnique(tail, id, owner);
      var rt := RemoveWhere(tail, id, owner);
      if !Hit(store[0], id, owner) {
        RemoveWhereMembers(tail, id, owner);
        forall i | 0 <= i < |rt| ensures IdOf(rt[i]) != IdOf(store[0]) {
          assert rt[i] in tail;
          var k :| 0 <= k < |tail| && tail[k] == rt[i];
        }
        Seqs.DistinctCons(IdOf, store[0], rt);
      }
    }
  }

  /** With unique ids a delete removes at most one record. */
  lemma {:induction false} RemoveAtMostOne(store: seq<Txn>, id: RecordId, owner: Option<UserId>)
    ensures IdsUnique(store) ==>
      |store| - 1 <= |RemoveWhere(store, id, owner)| <= |store|
  {
    if store != [] && IdsUnique(store) {
      var tail := store[1..];
      if Hit(store[0], id, owner) {
        forall i | 0 <= i < |tail| ensures !Hit(tail[i], id, owner) {
          assert IdOf(store[0]) != IdOf(store[i + 1]);
        }
        RemoveNothing(tail, id, owner);
      } else {
        assert IdsUnique(tail);
        RemoveAtMostOne(tail, id, owner);
      }
    }
  }

  /** Record `t` is the one a delete of `id` targets; `owner` is the owner filter when there is one. */
  predicate Hit(t: Txn, id: RecordId, owner: Option<UserId>) {
    t.id == id && (owner.None? || t.userId == owner.value)
  }

  const IncomeDeleted := "Income deleted successfully"
  const DeleteIncomeFailed := "Something went wrong while deleting income"

  /** `deleteIncome` as written: `findByIdAndDelete` receives the filter object where an id is
      expected and uses only its `_id`, so the record with that id goes whoever owns it.
      The success message is sent whether or not anything matched. */
  function DeleteIncome(store: seq<Txn>, u: UserId, id: RecordId, storeUp: bool): (r: Result<Deleted>)
    ensures r.Ok? <==> storeUp
    ensures r.Err? ==> r.error == ApiError(InternalError, DeleteIncomeFailed)
    ensures r.Ok? ==> r.value.message == IncomeDeleted
    ensures r.Ok? ==> forall t :: t in r.value.store <==> t in store && t.id != id
    ensures r.Ok? ==> r.value.store == RemoveWhere(store, id, None)
    ensures r.Ok? && IdsUnique(store) ==>
      IdsUnique(r.value.store) && |store| - 1 <= |r.value.store| <= |store|
  {
    RemoveWhereMembers(store, id, None);
    RemoveKeepsUnique(store, id, None);
    RemoveAtMostOne(store, id, None);
    if storeUp then Ok(Deleted(RemoveWhere(store, id, None), IncomeDeleted))
    else Err(ApiError(InternalError, DeleteIncomeFailed))
  }

  /** `deleteIncome` with the owner condition honoured: only the caller's record with that id goes. */
  function DeleteIncomeOwned(store: seq<Txn>, u: UserId, id: RecordId, storeUp: bool): (r: Result<Deleted>)
    ensures r.Ok? <==> storeUp
    ensures r.Err? ==> r.error == ApiError(InternalError, DeleteIncomeFailed)
    ensures r.Ok? ==> r.value.message == IncomeDeleted
    ensures r.Ok? ==> forall t :: t in r.value.store <==> t in store && !(t.id == id && t.userId == u)
    ensures r.Ok? ==> r.value.store == RemoveWhere(store, id, Some(u))
    ensures r.Ok? && IdsUnique(store) ==>
      IdsUnique(r.value.store) && |store| - 1 <= |r.value.store| <= |store|
  {
    RemoveWhereMembers(store, id, Some(u));
    RemoveKeepsUnique(store, id, Some(u));
    RemoveAtMostOne(store, id, Some(u));
    if storeUp then Ok(Deleted(RemoveWhere(store, id, Some(u)), IncomeDeleted))
    else Err(ApiError(InternalError, DeleteIncomeFailed))
  }

  /** User 2 deletes user 1's income 7 through `deleteIncome`, and it is gone; the owner-scoped
      delete leaves it in place. */
  lemma CrossUserIncomeDelete()
    ensures var store := [Txn(7, 1, None, "salary", 100, 0)];
      && DeleteIncome(store, 2, 7, true) == Ok(Deleted([], IncomeDeleted))
      && DeleteIncomeOwned(store, 2, 7, true) == Ok(Deleted(store, IncomeDeleted))
  {
    var store := [Txn(7, 1, None, "salary", 100, 0)];
    assert store[1..] == [];
    assert RemoveWhere(store[1..], 7, None) == [] && RemoveWhere(store[1..], 7, Some(2)) == [];
    assert RemoveWhere(store, 7, None) == [];
    assert RemoveWhere(store, 7, Some(2)) == store;
  }

  const ExpenseDeleted := "Expense deleted successfully"
  const DeleteExpenseFailed := "Something went wrong while deleting expense"

  /** `deleteExpense` as written: the same id-only delete as `deleteIncome`. */
  function DeleteExpense(store: seq<Txn>, u: UserId, id: RecordId, storeUp: bool): (r: Result<Deleted>)
    ensures r.Ok? <==> storeUp
    ensures r.Err? ==> r.error == ApiError(InternalError, DeleteExpenseFailed)
    ensures r.Ok? ==> r.value.message == ExpenseDeleted
    ensures r.Ok? ==> forall t :: t in r.value.store <==> t in store && t.id != id
    ensures r.Ok? ==> r.value.store == RemoveWhere(store, id, None)
    ensures r.Ok? && IdsUnique(store) ==>
      IdsUnique(r.value.store) && |store| - 1 <= |r.value.store| <= |store|
  {
    RemoveWhereMembers(store, id, None);
    RemoveKeepsUnique(store, id, None);
    RemoveAtMostOne(store, id, None);
    if storeUp then Ok(Deleted(RemoveWhere(store, id, None), ExpenseDeleted))
    else Err(ApiError(InternalError, DeleteExpenseFailed))
  }

  /** `deleteExpense` with the owner condition honoured. */
  function DeleteExpenseOwned(store: seq<Txn>, u: UserId, id: RecordId, storeUp: bool): (r: Result<Deleted>)
    ensures r.Ok? <==> storeUp
    ensures r.Err? ==> r.error == ApiError(InternalError, DeleteExpenseFailed)
    ensures r.Ok? ==> r.value.message == ExpenseDeleted
    ensures r.Ok? ==> forall t :: t in r.value.store <==> t in store && !(t.id == id && t.userId == u)
    ensures r.Ok? ==> r.value.store == RemoveWhere(store, id, Some(u))
    ensures r.Ok? && IdsUnique(store) ==>
      IdsUnique(r.value.store) && |store| - 1 <= |r.value.store| <= |store|
  {
    RemoveWhereMembers(store, id, Some(u));
    RemoveKeepsUnique(store, id, Some(u));
    RemoveAtMostOne(store, id, Some(u));
    if storeUp then Ok(Deleted(RemoveWhere(store, id, Some(u)), ExpenseDeleted))
    else Err(ApiError(InternalError, DeleteExpenseFailed))
  }

  /** User 2 deletes user 1's expense 7 through `deleteExpense`, and it is gone. */
  lemma CrossUserExpenseDelete()
    ensures var store := [Txn(7, 1, None, "rent", 100, 0)];
      && DeleteExpense(store, 2, 7, true) == Ok(Deleted([], ExpenseDeleted))
      && DeleteExpenseOwned(store, 2, 7, true) == Ok(Deleted(store, ExpenseDeleted))
  {
    var store := [Txn(7, 1, None, "rent", 100, 0)];
    assert store[1..] == [];
    assert RemoveWhere(store[1..], 7, None) == [] && RemoveWhere(store[1..], 7, Some(2)) == [];
    assert RemoveWhere(store, 7, None) == [];
    assert RemoveWhere(store, 7, Some(2)) == store;
  }

  // ---------------------------------------------------------------------------
  // Spreadsheet rows

  /** One row of the income sheet; `date` is `Date.prototype.toDateString()` of the record's date. */
  datatype IncomeRow = IncomeRow(source: string, amount: int, date: string)

  /** One row of the expense sheet; the date cell holds the date itself. */
  datatype ExpenseRow = ExpenseRow(category: string, amount: int, date: int)

  function IncomeRowOf(t: Txn, dateString: int -> string): IncomeRow {
    IncomeRow(t.title, t.amount, dateString(t.date))
  }

  function ExpenseRowOf(t: Txn): ExpenseRow {
    ExpenseRow(t.title, t.amount, t.date)
  }

  function IncomeRowAmount(row: IncomeRow): int {
    row.amount
  }

  const IncomeSheetFailed := "Something went wrong while downloading income excel"

  /** The rows `downloadIncomeExcel` writes: one per record of the caller's listing, in its order. */
  function IncomeSheet(store: seq<Txn>, u: UserId, storeUp: bool, dateString: int -> string): (r: Result<seq<IncomeRow>>)
    ensures r.Ok? <==> storeUp
    ensures r.Err? ==> r.error == ApiError(InternalError, IncomeSheetFailed)
    ensures r.Ok? ==>
      var listing := ByDateDesc(OwnedBy(store, u));
      && |r.value| == |listing|
      && forall i :: 0 <= i < |listing| ==> r.value[i] == IncomeRowOf(listing[i], dateString)
  {
    if !storeUp then Err(ApiError(InternalError, IncomeSheetFailed))
    else
      var listing := ByDateDesc(OwnedBy(store, u));
      Ok(seq(|listing|, i requires 0 <= i < |listing| => IncomeRowOf(listing[i], dateString)))
  }

  /** The Amount column of the income sheet adds up to the caller's lifetime income. */
  lemma IncomeSheetTotal(store: seq<Txn>, u: UserId, dateString: int -> string)
    ensures Seqs.Sum(IncomeRowAmount, IncomeSheet(store, u, true, dateString).value) == Total(OwnedBy(store, u))
  {
    var listing := ByDateDesc(OwnedBy(store, u));
    var rows := IncomeSheet(store, u, true, dateString).value;
    SumOfRows(listing, rows, dateString);
    Seqs.SumSortDesc(DateOf, AmountOf, OwnedBy(store, u));
  }

  /** Rows built one per record carry the same total as the records. */
  lemma {:induction false} SumOfRows(listing: seq<Txn>, rows: seq<IncomeRow>, dateString: int -> string)
    requires |rows| == |listing|
    requires forall i :: 0 <= i < |listing| ==> rows[i] == IncomeRowOf(listing[i], dateString)
    ensures Seqs.Sum(IncomeRowAmount, rows) == Seqs.Sum(AmountOf, listing)
  {
    if listing != [] {
      SumOfRows(listing[1..], rows[1..], dateString);
    }
  }

  const ExpenseSheetFailed := "Something went wrong while downloading expenses"

  /** The rows `downloadExpenseExcel` writes: one per record of the caller's listing, in its order. */
  function ExpenseSheet(store: seq<Txn>, u: UserId, storeUp: bool): (r: Result<seq<ExpenseRow>>)
    ensures r.Ok? <==> storeUp
    ensures r.Err? ==> r.error == ApiError(InternalError, ExpenseSheetFailed)
    ensures r.Ok? ==>
      var listing := ByDateDesc(OwnedBy(store, u));
      && |r.value| == |listing|
      && forall i :: 0 <= i < |listing| ==> r.value[i] == ExpenseRowOf(listing[i])
  {
    if !storeUp then Err(ApiError(InternalError, ExpenseSheetFailed))
    else
      var listing := ByDateDesc(OwnedBy(store, u));
      Ok(seq(|listing|, i requires 0 <= i < |listing| => ExpenseRowOf(listing[i])))
  }

  /** The expense sheet's Date column never increases down the sheet, and each row is the
      category, amount and date of one of the caller's expenses. */
  lemma ExpenseSheetNewestFirst(store: seq<Txn>, u: UserId)
    ensures var rows := ExpenseSheet(store, u, true).value;
      && (forall i, j :: 0 <= i < j < |rows| ==> rows[i].date >= rows[j].date)
      && (forall i :: 0 <= i < |rows| ==>
            exists t :: t in store && t.userId == u && rows[i] == ExpenseRow(t.title, t.amount, t.date))
  {
    var listing := ByDateDesc(OwnedBy(store, u));
    ListingMembership(store, u, listing);
    var rows := ExpenseSheet(store, u, true).value;
    forall i | 0 <= i < |rows|
      ensures exists t :: t in store && t.userId == u && rows[i] == ExpenseRow(t.title, t.amount, t.date)
    {
      assert listing[i] in listing;
    }
  }
}
