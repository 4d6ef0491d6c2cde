/** `getDashboardData`: lifetime totals, the balance, a 60-day income window, a 30-day
    expense window and the five most recent transactions of either kind, all for one user,
    computed from the two collections at time `now` (milliseconds since the epoch). */
module Dashboard {
  import opened Api
  import opened Ledger
  import Seqs

  const DayMs := 24 * 60 * 60 * 1000
  const IncomeWindowDays := 60
  const ExpenseWindowDays := 30
  /** `.limit(5)` on each collection and `.slice(0, 5)` on the merged feed. */
  const RecentLimit := 5

  const DashboardFailed := "Something went wrong while fetching dashboard data"

  datatype Db = Db(incomes: seq<Txn>, expenses: seq<Txn>)

  /** The six store reads the handler makes; any of them may throw. */
  datatype Query =
    | TotalIncomeQuery | TotalExpenseQuery
    | Income60Query | Expense30Query
    | RecentIncomeQuery | RecentExpenseQuery

  datatype Window = Window(total: int, transactions: seq<Txn>)

  /** A record of the recent feed, tagged with the collection it came from (`type`). */
  datatype Tagged = Tagged(txn: Txn, kind: Kind)

  datatype Snapshot = Snapshot(
    totalBalance: int,
    totalIncome: int,
    totalExpense: int,
    last30DaysExpenses: Window,
    last60DaysIncome: Window,
    recentTransactions: seq<Tagged>)

  function TaggedDate(e: Tagged): int {
    e.txn.date
  }

  /** The `$match` + `$group` aggregation: no group at all when nothing matches,
      otherwise one group holding the sum of the amounts. */
  function GroupTotal(matched: seq<Txn>): (g: seq<int>)
    ensures |g| <= 1
  {
    if matched == [] then [] else [Total(matched)]
  }

  /** `groups[0]?.total || 0`. */
  function FirstTotalOrZero(g: seq<int>): int {
    if g == [] || g[0] == 0 then 0 else g[0]
  }

  /** The lifetime total the handler reports is the sum over the user's records, 0 when there are none. */
  lemma LifetimeTotal(matched: seq<Txn>)
    ensures FirstTotalOrZero(GroupTotal(matched)) == Total(matched)
  {
  }

  /** `date >= now - days * 86400000`, inclusive. */
  function Cutoff(now: int, days: int): int {
    now - days * DayMs
  }

  /** `find({userId, date: {$gte: cutoff}})`, in store order. */
  function InWindow(store: seq<Txn>, u: UserId, cutoff: int): (r: seq<Txn>)
    ensures forall i :: 0 <= i < |r| ==> r[i] in store && r[i].userId == u && r[i].date >= cutoff
    ensures forall i :: 0 <= i < |store| && store[i].userId == u && store[i].date >= cutoff ==> store[i] in r
  {
    if store == [] then []
    else (if store[0].userId == u && store[0].date >= cutoff then [store[0]] else [])
         + InWindow(store[1..], u, cutoff)
  }

  /** The window query sees only the user's own records. */
  lemma {:induction false} InWindowOfOwned(store: seq<Txn>, u: UserId, cutoff: int)
    ensures InWindow(store, u, cutoff) == InWindow(OwnedBy(store, u), u, cutoff)
  {
    if store != [] {
      InWindowOfOwned(store[1..], u, cutoff);
      if store[0].userId == u {
        var o := OwnedBy(store, u);
        assert o == [store[0]] + OwnedBy(store[1..], u);
        assert o[0] == store[0] && o[1..] == OwnedBy(store[1..], u);
      } else {
        assert OwnedBy(store, u) == OwnedBy(store[1..], u);
      }
    }
  }

  /** Tags every record of `s` with `kind`: `map(doc => ({...doc, type}))`. */
  function TagAll(s: seq<Txn>, kind: Kind): (r: seq<Tagged>)
    ensures |r| == |s|
    ensures forall i :: 0 <= i < |s| ==> r[i] == Tagged(s[i], kind)
  {
    seq(|s|, i requires 0 <= i < |s| => Tagged(s[i], kind))
  }

  /** Tagging keeps the order of the dates. */
  lemma TagAllSorted(s: seq<Txn>, kind: Kind)
    requires Seqs.SortedDesc(DateOf, s)
    ensures Seqs.SortedDesc(TaggedDate, TagAll(s, kind))
  {
    var r := TagAll(s, kind);
    forall i, j | 0 <= i < j < |r| ensures TaggedDate(r[i]) >= TaggedDate(r[j]) {
      assert TaggedDate(r[i]) == DateOf(s[i]) && TaggedDate(r[j]) == DateOf(s[j]);
    }
  }

  /** What the six reads return, before the handler computes anything: the user's incomes and
      expenses (the total and the recent queries match the same documents) and the two
      windows, already sorted newest first by the store. */
  datatype Reads = Reads(incomes: seq<Txn>, expenses: seq<Txn>, income60: seq<Txn>, expense30: seq<Txn>)

  function Fetch(db: Db, u: UserId, now: int): Reads {
    Reads(
      OwnedBy(db.incomes, u),
      OwnedBy(db.expenses, u),
      ByDateDesc(InWindow(db.incomes, u, Cutoff(now, IncomeWindowDays))),
      ByDateDesc(InWindow(db.expenses, u, Cutoff(now, ExpenseWindowDays))))
  }

  /** `find({userId}).sort({date: -1}).limit(5)` over one collection, tagged with its kind. */
  function LatestTagged(owned: seq<Txn>, kind: Kind): seq<Tagged> {
    TagAll(Seqs.Take(RecentLimit, ByDateDesc(owned)), kind)
  }

  /** Feed entry `e` is a record of `incomes` tagged as an income, or one of `expenses` tagged
      as an expense. */
  ghost predicate TaggedFrom(e: Tagged, incomes: seq<Txn>, expenses: seq<Txn>) {
    || (e.kind == IncomeKind && e.txn in incomes)
    || (e.kind == ExpenseKind && e.txn in expenses)
  }

  /** The recent feed: both five-element lists one after the other, stably sorted newest first,
      cut to five. It is newest first, holds min(5, nIncome + nExpense) entries, and every entry
      is a record of the list it is tagged with. */
  function RecentFeed(incomes: seq<Txn>, expenses: seq<Txn>): (r: seq<Tagged>)
    ensures Seqs.SortedDesc(TaggedDate, r)
    ensures |r| == (if |incomes| + |expenses| < RecentLimit then |incomes| + |expenses| else RecentLimit)
    ensures forall i :: 0 <= i < |r| ==> TaggedFrom(r[i], incomes, expenses)
  {
    var li, le := LatestTagged(incomes, IncomeKind), LatestTagged(expenses, ExpenseKind);
    LatestTaggedFacts(incomes, IncomeKind);
    LatestTaggedFacts(expenses, ExpenseKind);
    FeedOfParts(li, le, incomes, expenses);
    Seqs.Take(RecentLimit, Seqs.SortDesc(TaggedDate, li + le))
  }

  /** The response body, computed from the reads: the lifetime totals are the sums of the
      user's amounts (0 when there are none), the balance is their difference, and each window
      reports its list with that list's sum. */
  function Summarize(q: Reads): (r: Snapshot)
    ensures r.totalIncome == Total(q.incomes) && r.totalExpense == Total(q.expenses)
    ensures r.totalBalance == r.totalIncome - r.totalExpense
    ensures r.last60DaysIncome.transactions == q.income60 && r.last60DaysIncome.total == Total(q.income60)
    ensures r.last30DaysExpenses.transactions == q.expense30 && r.last30DaysExpenses.total == Total(q.expense30)
  {
    LifetimeTotal(q.incomes);
    LifetimeTotal(q.expenses);
    var incomeTotal := FirstTotalOrZero(GroupTotal(q.incomes));
    var expenseTotal := FirstTotalOrZero(GroupTotal(q.expenses));
    Snapshot(
      incomeTotal - expenseTotal,
      incomeTotal,
      expenseTotal,
      Window(Total(q.expense30), q.expense30),
      Window(Total(q.income60), q.income60),
      RecentFeed(q.incomes, q.expenses))
  }

  /** `getDashboardData`. With `faults` the set of reads that throw, any fault yields one 500 and
      no data; otherwise the totals are the sums over the user's records (0 when there are none)
      and the balance is their difference, which may be negative. */
  function GetDashboardData(db: Db, u: UserId, now: int, faults: set<Query>): (r: Result<Snapshot>)
    ensures r.Err? <==> faults != {}
    ensures r.Err? ==> r.error == ApiError(InternalError, DashboardFailed)
    ensures r.Ok? ==>
      && r.value.totalIncome == Total(OwnedBy(db.incomes, u))
      && r.value.totalExpense == Total(OwnedBy(db.expenses, u))
      && r.value.totalBalance == Total(OwnedBy(db.incomes, u)) - Total(OwnedBy(db.expenses, u))
  {
    if faults != {} then Err(ApiError(InternalError, DashboardFailed))
    else Ok(Summarize(Fetch(db, u, now)))
  }

  /** A window holds exactly the matching records of the store, newest first, and its total is
      both the sum of its list and the sum over those records in store order. */
  ghost predicate IsWindow(w: Window, store: seq<Txn>, u: UserId, cutoff: int) {
    && Seqs.SortedDesc(DateOf, w.transactions)
    && multiset(w.transactions) == multiset(InWindow(store, u, cutoff))
    && (forall t :: t in w.transactions <==> t in store && t.userId == u && t.date >= cutoff)
    && w.total == Total(w.transactions)
    && w.total == Total(InWindow(store, u, cutoff))
  }

  lemma {:induction false} WindowOf(store: seq<Txn>, u: UserId, cutoff: int)
    ensures IsWindow(Window(Total(ByDateDesc(InWindow(store, u, cutoff))), ByDateDesc(InWindow(store, u, cutoff))),
                     store, u, cutoff)
  {
    var matching := InWindow(store, u, cutoff);
    var sorted := ByDateDesc(matching);
    Seqs.SumSortDesc(DateOf, AmountOf, matching);
    forall t
      ensures t in sorted <==> t in store && t.userId == u && t.date >= cutoff
    {
      assert t in sorted <==> t in multiset(matching);
      if t in store && t.userId == u && t.date >= cutoff {
        var i :| 0 <= i < |store| && store[i] == t;
        assert t in matching;
      }
    }
  }

  /** `last60DaysIncome`: the user's incomes dated at or after `now` minus 60 days, newest
      first, with their sum. */
  lemma Last60DaysIncome(db: Db, u: UserId, now: int)
    ensures IsWindow(GetDashboardData(db, u, now, {}).value.last60DaysIncome,
                     db.incomes, u, now - 60 * 86400000)
  {
    WindowOf(db.incomes, u, Cutoff(now, IncomeWindowDays));
  }

  /** `last30DaysExpenses`: the user's expenses dated at or after `now` minus 30 days, newest
      first, with their sum. */
  lemma Last30DaysExpenses(db: Db, u: UserId, now: int)
    ensures IsWindow(GetDashboardData(db, u, now, {}).value.last30DaysExpenses,
                     db.expenses, u, now - 30 * 86400000)
  {
    WindowOf(db.expenses, u, Cutoff(now, ExpenseWindowDays));
  }

  /** Entry `e` of the feed is one of user `u`'s records, tagged with its own collection. */
  ghost predicate Belongs(e: Tagged, db: Db, u: UserId) {
    || (e.kind == IncomeKind && e.txn in db.incomes && e.txn.userId == u)
    || (e.kind == ExpenseKind && e.txn in db.expenses && e.txn.userId == u)
  }

  /** The five newest records of one collection, tagged. */
  lemma LatestTaggedFacts(owned: seq<Txn>, kind: Kind)
    ensures var l := LatestTagged(owned, kind);
      && |l| == (if |owned| < RecentLimit then |owned| else RecentLimit)
      && Seqs.SortedDesc(TaggedDate, l)
      && forall i :: 0 <= i < |l| ==> l[i].kind == kind && l[i].txn in owned
  {
    var latest := Seqs.Take(RecentLimit, ByDateDesc(owned));
    Seqs.TakeSorted(DateOf, RecentLimit, ByDateDesc(owned));
    TagAllSorted(latest, kind);
    forall i | 0 <= i < |latest| ensures latest[i] in owned {
      assert latest[i] in multiset(ByDateDesc(owned));
    }
  }

  /** `recentTransactions` is newest first, has `min(5, nIncome + nExpense)` entries, and every
      entry is one of the user's records tagged with the collection it came from. */
  lemma RecentTransactions(db: Db, u: UserId, now: int)
    ensures var recent := GetDashboardData(db, u, now, {}).value.recentTransactions;
      var n := |OwnedBy(db.incomes, u)| + |OwnedBy(db.expenses, u)|;
      && Seqs.SortedDesc(TaggedDate, recent)
      && |recent| == (if n < RecentLimit then n else RecentLimit)
      && forall i :: 0 <= i < |recent| ==> Belongs(recent[i], db, u)
  {
    var recent := RecentFeed(OwnedBy(db.incomes, u), OwnedBy(db.expenses, u));
    FeedOfUser(db, u, now);
    forall i | 0 <= i < |recent| ensures Belongs(recent[i], db, u) {
      OwnedEntryBelongs(recent[i], db, u);
    }
  }

  /** The reported feed is the feed of the user's records. */
  lemma FeedOfUser(db: Db, u: UserId, now: int)
    ensures GetDashboardData(db, u, now, {}).value.recentTransactions
         == RecentFeed(OwnedBy(db.incomes, u), OwnedBy(db.expenses, u))
  {
  }

  /** An entry drawn from the user's own records belongs to the user. */
  lemma OwnedEntryBelongs(e: Tagged, db: Db, u: UserId)
    requires TaggedFrom(e, OwnedBy(db.incomes, u), OwnedBy(db.expenses, u))
    ensures Belongs(e, db, u)
  {
    var oi, oe := OwnedBy(db.incomes, u), OwnedBy(db.expenses, u);
    if e.kind == IncomeKind && e.txn in oi {
      var k :| 0 <= k < |oi| && oi[k] == e.txn;
    } else {
      var k :| 0 <= k < |oe| && oe[k] == e.txn;
    }
  }

  /** The first five of the sorted concatenation of two tagged lists drawn from `incomes` and
      `expenses`. */
  lemma {:induction false} FeedOfParts(a: seq<Tagged>, b: seq<Tagged>, incomes: seq<Txn>, expenses: seq<Txn>)
    requires forall k :: 0 <= k < |a| ==> TaggedFrom(a[k], incomes, expenses)
    requires forall k :: 0 <= k < |b| ==> TaggedFrom(b[k], incomes, expenses)
    ensures var recent := Seqs.Take(RecentLimit, Seqs.SortDesc(TaggedDate, a + b));
      && Seqs.SortedDesc(TaggedDate, recent)
      && |recent| == (if |a| + |b| < RecentLimit then |a| + |b| else RecentLimit)
      && forall i :: 0 <= i < |recent| ==> TaggedFrom(recent[i], incomes, expenses)
  {
    var both := a + b;
    assert forall k :: 0 <= k < |both| ==> TaggedFrom(both[k], incomes, expenses) by {
      forall k | 0 <= k < |both| ensures TaggedFrom(both[k], incomes, expenses) {
        if k < |a| { assert both[k] == a[k]; } else { assert both[k] == b[k - |a|]; }
      }
    }
    var sorted := Seqs.SortDesc(TaggedDate, both);
    var recent := Seqs.Take(RecentLimit, sorted);
    Seqs.TakeSorted(TaggedDate, RecentLimit, sorted);
    forall i | 0 <= i < |recent| ensures TaggedFrom(recent[i], incomes, expenses) {
      assert recent[i] == sorted[i];
      assert sorted[i] in multiset(both);
      var k :| 0 <= k < |both| && both[k] == sorted[i];
    }
  }

  /** Taking the five newest of each kind first loses nothing: the feed is the first five of the
      stable newest-first sort of all the user's records of both kinds. */
  lemma RecentIsTopOfUnion(db: Db, u: UserId, now: int)
    ensures GetDashboardData(db, u, now, {}).value.recentTransactions
         == Seqs.Take(RecentLimit, Seqs.SortDesc(TaggedDate,
              TagAll(ByDateDesc(OwnedBy(db.incomes, u)), IncomeKind)
              + TagAll(ByDateDesc(OwnedBy(db.expenses, u)), ExpenseKind)))
  {
    FeedIsTopOfUnion(OwnedBy(db.incomes, u), OwnedBy(db.expenses, u));
    FeedOfUser(db, u, now);
  }

  lemma {:induction false} FeedIsTopOfUnion(incomes: seq<Txn>, expenses: seq<Txn>)
    ensures RecentFeed(incomes, expenses)
         == Seqs.Take(RecentLimit, Seqs.SortDesc(TaggedDate,
              TagAll(ByDateDesc(incomes), IncomeKind) + TagAll(ByDateDesc(expenses), ExpenseKind)))
  {
    var ti := TagAll(ByDateDesc(incomes), IncomeKind);
    var te := TagAll(ByDateDesc(expenses), ExpenseKind);
    TagAllSorted(ByDateDesc(incomes), IncomeKind);
    TagAllSorted(ByDateDesc(expenses), ExpenseKind);
    assert LatestTagged(incomes, IncomeKind) == Seqs.Take(RecentLimit, ti);
    assert LatestTagged(expenses, ExpenseKind) == Seqs.Take(RecentLimit, te);
    Seqs.TakeSorted(TaggedDate, RecentLimit, ti);
    Seqs.TakeSorted(TaggedDate, RecentLimit, te);
    Seqs.SortConcatIsMerge(TaggedDate, Seqs.Take(RecentLimit, ti), Seqs.Take(RecentLimit, te));
    Seqs.TakeMerge(TaggedDate, RecentLimit, RecentLimit, RecentLimit, ti, te);
    Seqs.SortConcatIsMerge(TaggedDate, ti, te);
  }

  /** A user with no records sees zeros and empty lists, not an error. */
  lemma NoRecordsGivesZeros(db: Db, u: UserId, now: int)
    requires OwnedBy(db.incomes, u) == [] && OwnedBy(db.expenses, u) == []
    ensures GetDashboardData(db, u, now, {})
         == Ok(Snapshot(0, 0, 0, Window(0, []), Window(0, []), []))
  {
    InWindowOfOwned(db.incomes, u, Cutoff(now, IncomeWindowDays));
    InWindowOfOwned(db.expenses, u, Cutoff(now, ExpenseWindowDays));
    assert Fetch(db, u, now) == Reads([], [], [], []);
    assert RecentFeed([], []) == [];
  }

  /** Only the caller's records matter: two databases that agree on the user's records give the
      same dashboard. */
  lemma OnlyOwnRecordsCount(db: Db, db': Db, u: UserId, now: int, faults: set<Query>)
    requires OwnedBy(db.incomes, u) == OwnedBy(db'.incomes, u)
    requires OwnedBy(db.expenses, u) == OwnedBy(db'.expenses, u)
    ensures GetDashboardData(db, u, now, faults) == GetDashboardData(db', u, now, faults)
  {
    SameWindow(db.incomes, db'.incomes, u, Cutoff(now, IncomeWindowDays));
    SameWindow(db.expenses, db'.expenses, u, Cutoff(now, ExpenseWindowDays));
    assert Fetch(db, u, now) == Fetch(db', u, now);
  }

  /** Two stores that agree on the user's records give the same window. */
  lemma SameWindow(store: seq<Txn>, store': seq<Txn>, u: UserId, cutoff: int)
    requires OwnedBy(store, u) == OwnedBy(store', u)
    ensures InWindow(store, u, cutoff) == InWindow(store', u, cutoff)
  {
    InWindowOfOwned(store, u, cutoff);
    InWindowOfOwned(store', u, cutoff);
  }

  /** Two records out of date order come out newest first. */
  lemma SortPair(a: Txn, b: Txn)
    requires a.date < b.date
    ensures ByDateDesc([a, b]) == [b, a]
  {
    assert [a, b][1..] == [b] && [b][1..] == [];
    assert ByDateDesc([b]) == [b];
  }

  /** Incomes of 100 on day 0 and 50 on day 10 and an expense of 30 on day 5, seen at day 0:
      the windows cover every record, since only a lower bound applies. */
  lemma Scenario()
    ensures
      var i0 := Txn(1, 1, None, "salary", 100, 0);
      var i10 := Txn(2, 1, None, "bonus", 50, 10 * DayMs);
      var e5 := Txn(3, 1, None, "food", 30, 5 * DayMs);
      GetDashboardData(Db([i0, i10], [e5]), 1, 0, {})
      == Ok(Snapshot(120, 150, 30, Window(30, [e5]), Window(150, [i10, i0]),
                     [Tagged(i10, IncomeKind), Tagged(e5, ExpenseKind), Tagged(i0, IncomeKind)]))
  {
    var i0 := Txn(1, 1, None, "salary", 100, 0);
    var i10 := Txn(2, 1, None, "bonus", 50, 10 * DayMs);
    var e5 := Txn(3, 1, None, "food", 30, 5 * DayMs);
    ScenarioStores(i0, i10, e5);
    SortPair(i0, i10);
    assert ByDateDesc([e5]) == [e5];
    assert Fetch(Db([i0, i10], [e5]), 1, 0) == Reads([i0, i10], [e5], [i10, i0], [e5]);
    ScenarioFeed(i0, i10, e5);
  }

  lemma ScenarioStores(i0: Txn, i10: Txn, e5: Txn)
    requires i0 == Txn(1, 1, None, "salary", 100, 0)
    requires i10 == Txn(2, 1, None, "bonus", 50, 10 * DayMs)
    requires e5 == Txn(3, 1, None, "food", 30, 5 * DayMs)
    ensures OwnedBy([i0, i10], 1) == [i0, i10] && OwnedBy([e5], 1) == [e5]
    ensures InWindow([i0, i10], 1, Cutoff(0, IncomeWindowDays)) == [i0, i10]
    ensures InWindow([e5], 1, Cutoff(0, ExpenseWindowDays)) == [e5]
    ensures Total([i0, i10]) == 150 && Total([i10, i0]) == 150 && Total([e5]) == 30
  {
    assert [i0, i10][1..] == [i10] && [i10][1..] == [] && [e5][1..] == [] && [i10, i0][1..] == [i0] && [i0][1..] == [];
    var c60 := Cutoff(0, IncomeWindowDays);
    assert InWindow([i10], 1, c60) == [i10];
    assert InWindow([i0, i10], 1, c60) == [i0] + InWindow([i10], 1, c60);
    assert Total([]) == 0;
    assert Total([i10]) == 50 && Total([i0]) == 100 && Total([e5]) == 30;
    assert Total([i0, i10]) == 100 + Total([i10]);
    assert Total([i10, i0]) == 50 + Total([i0]);
  }

  lemma ScenarioFeed(i0: Txn, i10: Txn, e5: Txn)
    requires i0.date < e5.date < i10.date
    requires ByDateDesc([i0, i10]) == [i10, i0] && ByDateDesc([e5]) == [e5]
    ensures RecentFeed([i0, i10], [e5])
         == [Tagged(i10, IncomeKind), Tagged(e5, ExpenseKind), Tagged(i0, IncomeKind)]
  {
    var ti := [Tagged(i10, IncomeKind), Tagged(i0, IncomeKind)];
    var te := [Tagged(e5, ExpenseKind)];
    assert Seqs.Take(RecentLimit, [i10, i0]) == [i10, i0];
    assert LatestTagged([i0, i10], IncomeKind) == ti;
    assert Seqs.Take(RecentLimit, [e5]) == [e5];
    assert LatestTagged([e5], ExpenseKind) == te;
    MergeThree(ti[0], ti[1], te[0]);
    Seqs.SortConcatIsMerge(TaggedDate, ti, te);
    assert Seqs.SortDesc(TaggedDate, ti + te) == [ti[0], te[0], ti[1]];
  }

  /** Merging `[x, z]` with `[y]` where `x` is newest and `z` oldest. */
  lemma MergeThree(x: Tagged, z: Tagged, y: Tagged)
    requires TaggedDate(z) < TaggedDate(y) < TaggedDate(x)
    ensures Seqs.SortedDesc(TaggedDate, [x, z]) && Seqs.SortedDesc(TaggedDate, [y])
    ensures Seqs.Merge(TaggedDate, [x, z], [y]) == [x, y, z]
  {
    assert [x, z][1..] == [z] && [y][1..] == [];
    assert Seqs.Merge(TaggedDate, [z], []) == [z];
    assert Seqs.Merge(TaggedDate, [z], [y]) == [y, z];
  }
}
