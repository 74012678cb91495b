/** The read side of the store: filters, totals, the monthly series and the
    per-category breakdown, all recomputed from the transaction collection. */
module Queries {
  import opened Records

  /** An inclusive date range, as `{ start, end }`. */
  datatype DateRange = DateRange(start: Date, end: Date)

  /** The conditions the store filters transactions by. */
  datatype Sel =
    | KindIs(kind: string)
    | Within(start: Date, end: Date)
    | CategoryIs(categoryId: Id)
    | IdIsNot(id: Id)
    | InMonth(year: int, month: int, income: bool)
    | CategoryNotIn(ids: seq<Id>)

  predicate Holds(t: Tx, s: Sel) {
    match s
    case KindIs(k) => t.kind == k
    case Within(a, b) => DateLe(a, t.date) && DateLe(t.date, b)
    case CategoryIs(c) => t.categoryId == c
    case IdIsNot(id) => t.id != id
    case InMonth(y, m, inc) => t.date.year == y && t.date.month == m && (t.kind == Income) == inc
    case CategoryNotIn(ids) => t.categoryId !in ids
  }

  /** `s.filter(p)`: the elements satisfying `p`, in their original order. */
  function Filter<T>(s: seq<T>, p: T -> bool): seq<T>
    decreases |s|
  {
    if s == [] then [] else Filter(s[..|s| - 1], p) + (if p(s[|s| - 1]) then [s[|s| - 1]] else [])
  }

  /** The kept elements are exactly those of `s` satisfying `p`, and there are no more of them. */
  lemma {:induction false} FilterMembers<T>(s: seq<T>, p: T -> bool)
    ensures |Filter(s, p)| <= |s|
    ensures forall x :: x in Filter(s, p) <==> x in s && p(x)
    decreases |s|
  {
    if s != [] {
      var init, last := s[..|s| - 1], s[|s| - 1];
      assert s == init + [last];
      FilterMembers(init, p);
    }
  }

  lemma FilterSnoc<T>(s: seq<T>, x: T, p: T -> bool)
    ensures Filter(s + [x], p) == Filter(s, p) + (if p(x) then [x] else [])
  {
    assert (s + [x])[..|s|] == s;
  }

  /** Filtering keeps order: it distributes over concatenation. */
  lemma {:induction false} FilterConcat<T>(a: seq<T>, b: seq<T>, p: T -> bool)
    ensures Filter(a + b, p) == Filter(a, p) + Filter(b, p)
    decreases |b|
  {
    if b == [] {
      assert a + b == a;
    } else {
      var init, last := b[..|b| - 1], b[|b| - 1];
      assert b == init + [last];
      assert a + b == (a + init) + [last];
      FilterConcat(a, init, p);
      FilterSnoc(a + init, last, p);
      FilterSnoc(init, last, p);
    }
  }

  /** A filter that every element passes keeps all of them. */
  lemma {:induction false} FilterAll<T>(s: seq<T>, p: T -> bool)
    requires forall j :: 0 <= j < |s| ==> p(s[j])
    ensures Filter(s, p) == s
    decreases |s|
  {
    if s != [] {
      FilterAll(s[..|s| - 1], p);
      assert s == s[..|s| - 1] + [s[|s| - 1]];
    }
  }

  function Pred(s: Sel): Tx -> bool {
    t => Holds(t, s)
  }

  /** The transactions of `ts` satisfying `s`, in order. */
  function Select(ts: seq<Tx>, s: Sel): seq<Tx> {
    Filter(ts, Pred(s))
  }

  lemma SelectMembers(ts: seq<Tx>, s: Sel)
    ensures |Select(ts, s)| <= |ts|
    ensures forall t :: t in Select(ts, s) <==> t in ts && Holds(t, s)
  {
    FilterMembers(ts, Pred(s));
  }

  lemma SelectSnoc(ts: seq<Tx>, t: Tx, s: Sel)
    ensures Select(ts + [t], s) == Select(ts, s) + (if Holds(t, s) then [t] else [])
  {
    FilterSnoc(ts, t, Pred(s));
  }

  // ---------------------------------------------------------------- sums

  /** `reduce((total, t) => total + t.amount, 0)`. */
  function SumAmounts(ts: seq<Tx>): int
    decreases |ts|
  {
    if ts == [] then 0 else SumAmounts(ts[..|ts| - 1]) + ts[|ts| - 1].amount
  }

  lemma SumSnoc(ts: seq<Tx>, t: Tx)
    ensures SumAmounts(ts + [t]) == SumAmounts(ts) + t.amount
  {
    assert (ts + [t])[..|ts|] == ts;
  }

  lemma SelectSumSnoc(ts: seq<Tx>, t: Tx, s: Sel)
    ensures SumAmounts(Select(ts + [t], s)) == SumAmounts(Select(ts, s)) + (if Holds(t, s) then t.amount else 0)
  {
    SelectSnoc(ts, t, s);
    if Holds(t, s) {
      SumSnoc(Select(ts, s), t);
    } else {
      assert Select(ts, s) + [] == Select(ts, s);
    }
  }

  lemma {:induction false} SumNonNegative(ts: seq<Tx>)
    requires forall t :: t in ts ==> t.amount >= 0
    ensures SumAmounts(ts) >= 0
    decreases |ts|
  {
    if ts != [] {
      assert ts[|ts| - 1] in ts;
      SumNonNegative(ts[..|ts| - 1]);
    }
  }

  // ---------------------------------------------------------------- filters

  /** `getTransactionsByDateRange(start, end)`: both ends are included. */
  function GetTransactionsByDateRange(ts: seq<Tx>, start: Date, end: Date): (r: seq<Tx>)
    ensures forall t :: t in r <==> t in ts && DateLe(start, t.date) && DateLe(t.date, end)
  {
    SelectMembers(ts, Within(start, end));
    Select(ts, Within(start, end))
  }

  /** `getTransactionsByCategory(categoryId)`. */
  function GetTransactionsByCategory(ts: seq<Tx>, categoryId: Id): (r: seq<Tx>)
    ensures forall t :: t in r <==> t in ts && t.categoryId == categoryId
  {
    SelectMembers(ts, CategoryIs(categoryId));
    Select(ts, CategoryIs(categoryId))
  }

  /** The transactions an aggregate looks at: all of them, or those in the range when one is given. */
  function Scoped(ts: seq<Tx>, range: Option<DateRange>): seq<Tx> {
    if range.Some? then GetTransactionsByDateRange(ts, range.value.start, range.value.end) else ts
  }

  predicate InScope(t: Tx, range: Option<DateRange>) {
    range.None? || (DateLe(range.value.start, t.date) && DateLe(t.date, range.value.end))
  }

  // ---------------------------------------------------------------- totals

  /** `getTotalsByType(type, dateRange)`: filter by exact type, then sum. */
  function GetTotalsByType(ts: seq<Tx>, kind: string, range: Option<DateRange>): int {
    SumAmounts(Select(Scoped(ts, range), KindIs(kind)))
  }

  /** A reference definition: each transaction adds its amount exactly when its type
      is `kind` and it lies in the range. */
  function MatchedSum(ts: seq<Tx>, kind: string, range: Option<DateRange>): int
    decreases |ts|
  {
    if ts == [] then 0
    else
      var t := ts[|ts| - 1];
      MatchedSum(ts[..|ts| - 1], kind, range) + (if t.kind == kind && InScope(t, range) then t.amount else 0)
  }

  lemma TotalsByTypeIsMatchedSum(ts: seq<Tx>, kind: string, range: Option<DateRange>)
    ensures GetTotalsByType(ts, kind, range) == MatchedSum(ts, kind, range)
  {
    if range.Some? {
      var w := Within(range.value.start, range.value.end);
      KindSumIsMatched(Select(ts, w), kind);
      RangeMatched(ts, kind, range.value);
    } else {
      KindSumIsMatched(ts, kind);
    }
  }

  lemma {:induction false} KindSumIsMatched(ts: seq<Tx>, kind: string)
    ensures SumAmounts(Select(ts, KindIs(kind))) == MatchedSum(ts, kind, None)
    decreases |ts|
  {
    if ts != [] {
      var init, t := ts[..|ts| - 1], ts[|ts| - 1];
      assert ts == init + [t];
      KindSumIsMatched(init, kind);
      SelectSumSnoc(init, t, KindIs(kind));
    }
  }

  lemma {:induction false} RangeMatched(ts: seq<Tx>, kind: string, range: DateRange)
    ensures MatchedSum(Select(ts, Within(range.start, range.end)), kind, None) == MatchedSum(ts, kind, Some(range))
    decreases |ts|
  {
    if ts != [] {
      var init, t := ts[..|ts| - 1], ts[|ts| - 1];
      var w := Within(range.start, range.end);
      assert ts == init + [t];
      RangeMatched(init, kind, range);
      SelectSnoc(init, t, w);
      MatchedSnoc(init, t, kind, Some(range));
      assert InScope(t, Some(range)) == Holds(t, w);
      if Holds(t, w) {
        MatchedSnoc(Select(init, w), t, kind, None);
      } else {
        assert Select(init, w) + [] == Select(init, w);
      }
    }
  }

  lemma MatchedSnoc(ts: seq<Tx>, t: Tx, kind: string, range: Option<DateRange>)
    ensures MatchedSum(ts + [t], kind, range)
         == MatchedSum(ts, kind, range) + (if t.kind == kind && InScope(t, range) then t.amount else 0)
  {
    assert (ts + [t])[..|ts|] == ts;
  }

  /** Saving a transaction raises the total of its own type (in a range that holds its date)
      by its amount and leaves every other total as it was. */
  lemma TotalsAfterAppend(ts: seq<Tx>, t: Tx, kind: string, range: Option<DateRange>)
    ensures GetTotalsByType(ts + [t], kind, range)
         == GetTotalsByType(ts, kind, range) + (if t.kind == kind && InScope(t, range) then t.amount else 0)
  {
    TotalsByTypeIsMatchedSum(ts + [t], kind, range);
    TotalsByTypeIsMatchedSum(ts, kind, range);
    MatchedSnoc(ts, t, kind, range);
  }

  /** With no matching transaction the total is 0, not an error. */
  lemma {:induction false} TotalsNoMatch(ts: seq<Tx>, kind: string, range: Option<DateRange>)
    requires forall j :: 0 <= j < |ts| ==> !(ts[j].kind == kind && InScope(ts[j], range))
    ensures GetTotalsByType(ts, kind, range) == 0
    decreases |ts|
  {
    TotalsByTypeIsMatchedSum(ts, kind, range);
    NoMatchSum(ts, kind, range);
  }

  lemma {:induction false} NoMatchSum(ts: seq<Tx>, kind: string, range: Option<DateRange>)
    requires forall j :: 0 <= j < |ts| ==> !(ts[j].kind == kind && InScope(ts[j], range))
    ensures MatchedSum(ts, kind, range) == 0
    decreases |ts|
  {
    if ts != [] {
      NoMatchSum(ts[..|ts| - 1], kind, range);
    }
  }

  /** With only the two form types, all transactions split into income and expense. */
  lemma {:induction false} KindSplit(ts: seq<Tx>)
    requires forall t :: t in ts ==> t.kind == Income || t.kind == Expense
    ensures SumAmounts(ts) == GetTotalsByType(ts, Income, None) + GetTotalsByType(ts, Expense, None)
    decreases |ts|
  {
    if ts != [] {
      var init, t := ts[..|ts| - 1], ts[|ts| - 1];
      assert ts == init + [t];
      assert t in ts;
      forall u | u in init ensures u.kind == Income || u.kind == Expense {
        assert u in ts;
      }
      KindSplit(init);
      SelectSumSnoc(init, t, KindIs(Income));
      SelectSumSnoc(init, t, KindIs(Expense));
    }
  }

  // ---------------------------------------------------------------- monthly data

  datatype MonthTotals = MonthTotals(income: int, expense: int, savings: int)

  /** Income booked in `month` of `year`. */
  function MonthIncome(ts: seq<Tx>, year: int, month: int): int {
    SumAmounts(Select(ts, InMonth(year, month, true)))
  }

  /** Everything that is not typed `income`, booked in `month` of `year`. */
  function MonthExpense(ts: seq<Tx>, year: int, month: int): int {
    SumAmounts(Select(ts, InMonth(year, month, false)))
  }

  ghost const MonthKeys: set<int> := set k | 1 <= k <= 12

  /** The month buckets once the transactions `ts` are booked, before savings are derived. */
  ghost predicate Booked(m: map<int, MonthTotals>, ts: seq<Tx>, year: int) {
    && m.Keys == MonthKeys
    && forall k :: 1 <= k <= 12 ==> m[k] == MonthTotals(MonthIncome(ts, year, k), MonthExpense(ts, year, k), 0)
  }

  /** Booking one more transaction: only its own month's bucket changes. */
  lemma BookStep(m: map<int, MonthTotals>, ts: seq<Tx>, t: Tx, year: int, m': map<int, MonthTotals>)
    requires Booked(m, ts, year)
    requires m' == if t.date.year != year then m
                   else if t.kind == Income
                   then m[t.date.month := m[t.date.month].(income := m[t.date.month].income + t.amount)]
                   else m[t.date.month := m[t.date.month].(expense := m[t.date.month].expense + t.amount)]
    ensures Booked(m', ts + [t], year)
  {
    assert t.date.month in MonthKeys;
    forall k | 1 <= k <= 12
      ensures m'[k] == MonthTotals(MonthIncome(ts + [t], year, k), MonthExpense(ts + [t], year, k), 0)
    {
      BookMonth(ts, t, year, k);
    }
  }

  /** How one transaction moves month k's income and expense. */
  lemma BookMonth(ts: seq<Tx>, t: Tx, year: int, k: int)
    ensures MonthIncome(ts + [t], year, k)
         == MonthIncome(ts, year, k) + (if t.date.year == year && t.date.month == k && t.kind == Income then t.amount else 0)
    ensures MonthExpense(ts + [t], year, k)
         == MonthExpense(ts, year, k) + (if t.date.year == year && t.date.month == k && t.kind != Income then t.amount else 0)
  {
    SelectSumSnoc(ts, t, InMonth(year, k, true));
    SelectSumSnoc(ts, t, InMonth(year, k, false));
  }

  /** The initial month map: months 1 to 12, all zero. */
  method EmptyMonths() returns (m: map<int, MonthTotals>)
    ensures m.Keys == MonthKeys
    ensures forall k :: 1 <= k <= 12 ==> m[k] == MonthTotals(0, 0, 0)
  {
    m := map[];
    for i := 0 to 12
      invariant forall k :: k in m <==> 1 <= k <= i
      invariant forall k :: 1 <= k <= i ==> m[k] == MonthTotals(0, 0, 0)
    {
      m := m[i + 1 := MonthTotals(0, 0, 0)];
    }
    assert m.Keys == MonthKeys;
  }

  /** The last pass: every month's savings become its income minus its expense. */
  method DeriveSavings(booked: map<int, MonthTotals>) returns (m: map<int, MonthTotals>)
    requires booked.Keys == MonthKeys
    ensures m.Keys == MonthKeys
    ensures forall k :: 1 <= k <= 12 ==>
      m[k] == booked[k].(savings := booked[k].income - booked[k].expense)
  {
    m := booked;
    for k := 1 to 13
      invariant m.Keys == MonthKeys
      invariant forall j :: 1 <= j < k ==> m[j] == booked[j].(savings := booked[j].income - booked[j].expense)
      invariant forall j :: k <= j <= 12 ==> m[j] == booked[j]
    {
      m := m[k := m[k].(savings := m[k].income - m[k].expense)];
    }
  }

  /** `getMonthlyData(year)`: twelve buckets, each zero until a transaction of that year and
      month lands in it; `income` takes the income-typed amounts, `expense` all others. */
  method GetMonthlyData(ts: seq<Tx>, year: int) returns (m: map<int, MonthTotals>)
    ensures m.Keys == MonthKeys
    ensures forall k :: 1 <= k <= 12 ==>
      m[k] == MonthTotals(MonthIncome(ts, year, k), MonthExpense(ts, year, k),
                          MonthIncome(ts, year, k) - MonthExpense(ts, year, k))
  {
    m := EmptyMonths();
    assert Booked(m, ts[..0], year);
    for i := 0 to |ts|
      invariant Booked(m, ts[..i], year)
    {
      var t := ts[i];
      ghost var before := m;
      if t.date.year == year {
        var month := t.date.month;
        if t.kind == Income {
          m := m[month := m[month].(income := m[month].income + t.amount)];
        } else {
          m := m[month := m[month].(expense := m[month].expense + t.amount)];
        }
      }
      BookStep(before, ts[..i], t, year, m);
      assert ts[..i + 1] == ts[..i] + [t];
    }
    assert ts[..|ts|] == ts;
    m := DeriveSavings(m);
  }

  /** The savings of months 1 through n. */
  function SavingsThrough(ts: seq<Tx>, year: int, n: nat): int {
    if n == 0 then 0
    else SavingsThrough(ts, year, n - 1) + (MonthIncome(ts, year, n) - MonthExpense(ts, year, n))
  }

  lemma {:induction false} SavingsThroughSnoc(ts: seq<Tx>, t: Tx, year: int, n: nat)
    ensures SavingsThrough(ts + [t], year, n)
         == SavingsThrough(ts, year, n)
            + (if t.date.year == year && t.date.month <= n
               then (if t.kind == Income then t.amount else -t.amount) else 0)
  {
    if n > 0 {
      SavingsThroughSnoc(ts, t, year, n - 1);
      SelectSumSnoc(ts, t, InMonth(year, n, true));
      SelectSumSnoc(ts, t, InMonth(year, n, false));
    }
  }

  /** When every transaction falls in `year`, the twelve months' savings add up to the income
      total minus everything else. */
  lemma {:induction false} YearSavings(ts: seq<Tx>, year: int)
    requires forall t :: t in ts ==> t.date.year == year
    ensures SavingsThrough(ts, year, 12)
         == GetTotalsByType(ts, Income, None) - (SumAmounts(ts) - GetTotalsByType(ts, Income, None))
    decreases |ts|
  {
    if ts == [] {
      assert SavingsThrough(ts, year, 12) == 0 by {
        ZeroSavings(year, 12);
      }
    } else {
      var init, t := ts[..|ts| - 1], ts[|ts| - 1];
      assert ts == init + [t];
      assert t in ts;
      forall u | u in init ensures u.date.year == year {
        assert u in ts;
      }
      YearSavings(init, year);
      SavingsThroughSnoc(init, t, year, 12);
      SelectSumSnoc(init, t, KindIs(Income));
      SumSnoc(init, t);
    }
  }

  lemma {:induction false} ZeroSavings(year: int, n: nat)
    ensures SavingsThrough([], year, n) == 0
  {
    if n > 0 {
      ZeroSavings(year, n - 1);
    }
  }

  /** The identity the dashboard relies on: with only income and expense transactions, all in
      `year`, the year's monthly savings sum to total income minus total expense. */
  lemma YearSavingsMatchTotals(ts: seq<Tx>, year: int)
    requires forall t :: t in ts ==> t.date.year == year
    requires forall t :: t in ts ==> t.kind == Income || t.kind == Expense
    ensures SavingsThrough(ts, year, 12) == GetTotalsByType(ts, Income, None) - GetTotalsByType(ts, Expense, None)
  {
    YearSavings(ts, year);
    KindSplit(ts);
  }

  // ---------------------------------------------------------------- category breakdown

  /** A breakdown entry: the category's display fields with the accumulated amount and count. */
  datatype Entry = Entry(id: Id, name: string, color: string, icon: string, amount: int, count: nat)

  function EntryId(e: Entry): Id { e.id }

  function Ids(cs: seq<Category>): (r: seq<Id>)
    ensures |r| == |cs|
    ensures forall j :: 0 <= j < |cs| ==> r[j] == cs[j].id
    decreases |cs|
  {
    if cs == [] then [] else Ids(cs[..|cs| - 1]) + [cs[|cs| - 1].id]
  }

  predicate Distinct(s: seq<Id>) {
    forall i, j :: 0 <= i < j < |s| ==> s[i] != s[j]
  }

  /** The keys of the `breakdown` object once every category is written into it: each id once,
      where it first occurs (re-assigning a key keeps its place). */
  function KeyOrder(cs: seq<Category>): (r: seq<Id>)
    ensures Distinct(r)
    ensures forall id :: id in r <==> id in Ids(cs)
    decreases |cs|
  {
    if cs == [] then []
    else
      var k, id := KeyOrder(cs[..|cs| - 1]), cs[|cs| - 1].id;
      if id in k then k else k + [id]
  }

  /** Id `a` occurs in `cs` before every occurrence of id `b`. */
  ghost predicate SeenBefore(cs: seq<Category>, a: Id, b: Id) {
    forall q :: 0 <= q < |cs| && cs[q].id == b ==> a in Ids(cs[..q])
  }

  /** The keys are in the order of first occurrence: of two keys, the earlier one occurs in the
      category list before any occurrence of the later one. */
  lemma {:induction false} KeyOrderFirstSeen(cs: seq<Category>)
    ensures forall i, j :: 0 <= i < j < |KeyOrder(cs)| ==> SeenBefore(cs, KeyOrder(cs)[i], KeyOrder(cs)[j])
    decreases |cs|
  {
    if cs != [] {
      var init, c := cs[..|cs| - 1], cs[|cs| - 1];
      var k, r := KeyOrder(init), KeyOrder(cs);
      KeyOrderFirstSeen(init);
      forall i, j | 0 <= i < j < |r| ensures SeenBefore(cs, r[i], r[j]) {
        assert r[i] in k && r[i] in Ids(init);
        forall q | 0 <= q < |cs| && cs[q].id == r[j] ensures r[i] in Ids(cs[..q]) {
          if q < |init| {
            assert cs[..q] == init[..q];
            if j < |k| {
              assert SeenBefore(init, k[i], k[j]);
            }
          } else {
            assert cs[..q] == init;
          }
        }
      }
    }
  }

  /** The category whose fields an entry shows: the last one written under that id. */
  function LastWithId(cs: seq<Category>, id: Id): (c: Category)
    requires id in Ids(cs)
    ensures c.id == id
    ensures exists j :: 0 <= j < |cs| && cs[j] == c && forall j' :: j < j' < |cs| ==> cs[j'].id != id
    decreases |cs|
  {
    var last := cs[|cs| - 1];
    if last.id == id then last
    else
      var c := LastWithId(cs[..|cs| - 1], id);
      assert forall j :: 0 <= j < |cs| - 1 ==> cs[..|cs| - 1][j] == cs[j];
      c
  }

  /** The entry for `id` after scanning `ts`: its amount sums, and its count counts, the
      transactions filed under `id`. */
  function EntryFor(cs: seq<Category>, ts: seq<Tx>, id: Id): Entry
    requires id in Ids(cs)
  {
    var c := LastWithId(cs, id);
    var filed := Select(ts, CategoryIs(id));
    Entry(id, c.name, c.color, c.icon, SumAmounts(filed), |filed|)
  }

  /** `Object.values(breakdown)` after scanning `ts`, one entry per key. */
  function Table(cs: seq<Category>, ts: seq<Tx>): (r: seq<Entry>)
    ensures |r| == |KeyOrder(cs)|
    ensures forall j :: 0 <= j < |r| ==> r[j].id == KeyOrder(cs)[j]
  {
    var keys := KeyOrder(cs);
    seq(|keys|, j requires 0 <= j < |keys| => EntryFor(cs, ts, keys[j]))
  }

  /** `.filter(item => item.amount > 0)`. */
  predicate IsPositive(e: Entry) {
    e.amount > 0
  }

  function Positive(d: seq<Entry>): seq<Entry> {
    Filter(d, IsPositive)
  }

  lemma PositiveMembers(d: seq<Entry>)
    ensures forall e :: e in Positive(d) <==> e in d && e.amount > 0
  {
    FilterMembers(d, IsPositive);
  }

  /** What `getCategoryBreakdown` returns for the categories `cs` of one type over the
      transactions `ts` (already restricted to the date range). */
  function BreakdownOf(cs: seq<Category>, ts: seq<Tx>, kind: string): seq<Entry> {
    Positive(Table(cs, Select(ts, KindIs(kind))))
  }

  function SumEntries(d: seq<Entry>): int
    decreases |d|
  {
    if d == [] then 0 else SumEntries(d[..|d| - 1]) + d[|d| - 1].amount
  }

  function ZeroEntry(c: Category): Entry {
    Entry(c.id, c.name, c.color, c.icon, 0, 0)
  }

  /** Writing a category whose id is already a key replaces that key's entry in place. */
  lemma ZeroTableReplace(p: seq<Category>, c: Category, j: nat)
    requires j < |KeyOrder(p)| && KeyOrder(p)[j] == c.id
    ensures Table(p + [c], []) == Table(p, [])[j := ZeroEntry(c)]
  {
    assert (p + [c])[..|p|] == p;
    assert KeyOrder(p + [c]) == KeyOrder(p);
    var keys := KeyOrder(p);
    forall jj | 0 <= jj < |keys|
      ensures Table(p + [c], [])[jj] == Table(p, [])[j := ZeroEntry(c)][jj]
    {
      if jj != j {
        assert keys[jj] != c.id;
      }
    }
  }

  /** Writing a category with a new id appends an entry. */
  lemma ZeroTableExtend(p: seq<Category>, c: Category)
    requires c.id !in KeyOrder(p)
    ensures Table(p + [c], []) == Table(p, []) + [ZeroEntry(c)]
  {
    assert (p + [c])[..|p|] == p;
    var keys := KeyOrder(p);
    assert KeyOrder(p + [c]) == keys + [c.id];
    forall jj | 0 <= jj < |keys|
      ensures Table(p + [c], [])[jj] == Table(p, [])[jj]
    {
      assert keys[jj] != c.id;
    }
  }

  /** A scanned transaction filed under a known category adds to that entry alone. */
  lemma TableHit(cs: seq<Category>, ts: seq<Tx>, t: Tx, j: nat)
    requires j < |KeyOrder(cs)| && KeyOrder(cs)[j] == t.categoryId
    ensures Table(cs, ts + [t])
         == Table(cs, ts)[j := Table(cs, ts)[j].(amount := Table(cs, ts)[j].amount + t.amount,
                                                  count := Table(cs, ts)[j].count + 1)]
  {
    var keys := KeyOrder(cs);
    forall jj | 0 <= jj < |keys|
      ensures Table(cs, ts + [t])[jj]
           == Table(cs, ts)[j := Table(cs, ts)[j].(amount := Table(cs, ts)[j].amount + t.amount,
                                                    count := Table(cs, ts)[j].count + 1)][jj]
    {
      SelectSnoc(ts, t, CategoryIs(keys[jj]));
      if jj == j {
        SumSnoc(Select(ts, CategoryIs(keys[jj])), t);
      } else {
        assert Select(ts, CategoryIs(keys[jj])) + [] == Select(ts, CategoryIs(keys[jj]));
      }
    }
  }

  /** A scanned transaction whose category id is not a key changes nothing: it is dropped. */
  lemma TableMiss(cs: seq<Category>, ts: seq<Tx>, t: Tx)
    requires t.categoryId !in KeyOrder(cs)
    ensures Table(cs, ts + [t]) == Table(cs, ts)
  {
    var keys := KeyOrder(cs);
    forall jj | 0 <= jj < |keys|
      ensures Table(cs, ts + [t])[jj] == Table(cs, ts)[jj]
    {
      SelectSnoc(ts, t, CategoryIs(keys[jj]));
      assert Select(ts, CategoryIs(keys[jj])) + [] == Select(ts, CategoryIs(keys[jj]));
    }
  }

  /** The breakdown loop of `getCategoryBreakdown`: build the keyed table from the
      categories, accumulate the transactions of `kind` into it, keep the positive entries. */
  method Breakdown(cs: seq<Category>, ts: seq<Tx>, kind: string) returns (r: seq<Entry>)
    ensures r == BreakdownOf(cs, ts, kind)
  {
    var d := ZeroTable(cs);
    var scanned := Select(ts, KindIs(kind));
    d := Accumulate(cs, d, scanned);
    r := Positive(d);
  }

  /** The first loop: one zero entry per category id, a later category under a known id
      overwriting the earlier one in place. */
  method ZeroTable(cs: seq<Category>) returns (d: seq<Entry>)
    ensures d == Table(cs, [])
  {
    d := [];
    for i := 0 to |cs|
      invariant d == Table(cs[..i], [])
    {
      var c := cs[i];
      assert cs[..i + 1] == cs[..i] + [c];
      match FirstIndex(d, EntryId, c.id)
      case Some(j) =>
        ZeroTableReplace(cs[..i], c, j);
        d := d[j := ZeroEntry(c)];
      case None =>
        ZeroTableExtend(cs[..i], c);
        d := d + [ZeroEntry(c)];
    }
    assert cs[..|cs|] == cs;
  }

  /** The second loop: each scanned transaction adds its amount and one to the count of
      its category's entry, if there is one. */
  method Accumulate(cs: seq<Category>, zero: seq<Entry>, scanned: seq<Tx>) returns (d: seq<Entry>)
    requires zero == Table(cs, [])
    ensures d == Table(cs, scanned)
  {
    d := zero;
    for i := 0 to |scanned|
      invariant d == Table(cs, scanned[..i])
    {
      d := AddOne(cs, d, scanned[..i], scanned[i]);
      assert scanned[..i + 1] == scanned[..i] + [scanned[i]];
    }
    assert scanned[..|scanned|] == scanned;
  }

  /** The body of the second loop: `if (breakdown[t.categoryId]) { amount += …; count += 1 }`. */
  method AddOne(cs: seq<Category>, d: seq<Entry>, done: seq<Tx>, t: Tx) returns (d': seq<Entry>)
    requires d == Table(cs, done)
    ensures d' == Table(cs, done + [t])
  {
    match FirstIndex(d, EntryId, t.categoryId)
    case Some(j) =>
      TableHit(cs, done, t, j);
      d' := d[j := d[j].(amount := d[j].amount + t.amount, count := d[j].count + 1)];
    case None =>
      TableMiss(cs, done, t);
      d' := d;
  }

  /** Every entry returned is positive, belongs to a known category and carries the sum and the
      number of the matching transactions filed under it; conversely every known category with
      a positive sum is returned. */
  lemma BreakdownEntries(cs: seq<Category>, ts: seq<Tx>, kind: string)
    ensures forall e :: e in BreakdownOf(cs, ts, kind) ==>
      && e.amount > 0
      && e.id in Ids(cs)
      && e.amount == SumAmounts(Select(Select(ts, KindIs(kind)), CategoryIs(e.id)))
      && e.count == |Select(Select(ts, KindIs(kind)), CategoryIs(e.id))|
    ensures forall id :: id in Ids(cs) && SumAmounts(Select(Select(ts, KindIs(kind)), CategoryIs(id))) > 0 ==>
      EntryFor(cs, Select(ts, KindIs(kind)), id) in BreakdownOf(cs, ts, kind)
  {
    var scanned := Select(ts, KindIs(kind));
    var table := Table(cs, scanned);
    PositiveMembers(table);
    forall e | e in BreakdownOf(cs, ts, kind)
      ensures e.id in Ids(cs)
      ensures e.amount == SumAmounts(Select(scanned, CategoryIs(e.id)))
      ensures e.count == |Select(scanned, CategoryIs(e.id))|
    {
      var j :| 0 <= j < |table| && table[j] == e;
    }
    forall id | id in Ids(cs) && SumAmounts(Select(scanned, CategoryIs(id))) > 0
      ensures EntryFor(cs, scanned, id) in BreakdownOf(cs, ts, kind)
    {
      var keys := KeyOrder(cs);
      var j :| 0 <= j < |keys| && keys[j] == id;
      assert table[j] == EntryFor(cs, scanned, id);
    }
  }

  /** With distinct category ids the table follows the category list entry by entry. */
  lemma {:induction false} DistinctKeyOrder(cs: seq<Category>)
    requires Distinct(Ids(cs))
    ensures KeyOrder(cs) == Ids(cs)
    ensures forall j :: 0 <= j < |cs| ==> LastWithId(cs, cs[j].id) == cs[j]
    decreases |cs|
  {
    if cs != [] {
      var init, c := cs[..|cs| - 1], cs[|cs| - 1];
      assert Ids(cs) == Ids(init) + [c.id];
      assert Distinct(Ids(init));
      DistinctKeyOrder(init);
      forall i | 0 <= i < |init| ensures Ids(init)[i] != c.id {
        assert Ids(cs)[i] != Ids(cs)[|cs| - 1];
      }
      forall j | 0 <= j < |cs| ensures LastWithId(cs, cs[j].id) == cs[j] {
        if j < |cs| - 1 {
          assert Ids(cs)[j] != Ids(cs)[|cs| - 1];
          assert init[j] == cs[j];
        }
      }
    }
  }

  /** The default lists carry distinct ids, so a breakdown over either follows its order. */
  lemma DefaultIdsDistinct()
    ensures KeyOrder(DefaultCategories.expense) == Ids(DefaultCategories.expense)
    ensures KeyOrder(DefaultCategories.income) == Ids(DefaultCategories.income)
  {
    DefaultExpenseIdsDistinct();
    DefaultIncomeIdsDistinct();
    DistinctKeyOrder(DefaultCategories.expense);
    DistinctKeyOrder(DefaultCategories.income);
  }

  lemma DefaultExpenseIdsDistinct()
    ensures Distinct(Ids(DefaultCategories.expense))
  {
    var e := Ids(DefaultCategories.expense);
    assert e == ["food", "transport", "shopping", "entertainment", "bills", "healthcare", "education", "other"];
    forall i, j | 0 <= i < j < |e| ensures e[i] != e[j] {
      assert |e[i]| != |e[j]| || e[i][0] != e[j][0];
    }
  }

  lemma DefaultIncomeIdsDistinct()
    ensures Distinct(Ids(DefaultCategories.income))
  {
    var n := Ids(DefaultCategories.income);
    assert n == ["salary", "freelance", "investment", "gift", "other_income"];
    forall i, j | 0 <= i < j < |n| ensures n[i] != n[j] {
      assert n[i][0] != n[j][0];
    }
  }

  /** In category-definition order: with distinct ids, the breakdown is the category list,
      each with its sum and count, less the entries whose sum is not positive. */
  lemma BreakdownInCategoryOrder(cs: seq<Category>, ts: seq<Tx>, kind: string)
    requires Distinct(Ids(cs))
    ensures var scanned := Select(ts, KindIs(kind));
      BreakdownOf(cs, ts, kind)
      == Positive(seq(|cs|, j requires 0 <= j < |cs| =>
           Entry(cs[j].id, cs[j].name, cs[j].color, cs[j].icon,
                 SumAmounts(Select(scanned, CategoryIs(cs[j].id))),
                 |Select(scanned, CategoryIs(cs[j].id))|)))
  {
    DistinctKeyOrder(cs);
    var scanned := Select(ts, KindIs(kind));
    var listed := seq(|cs|, j requires 0 <= j < |cs| =>
           Entry(cs[j].id, cs[j].name, cs[j].color, cs[j].icon,
                 SumAmounts(Select(scanned, CategoryIs(cs[j].id))),
                 |Select(scanned, CategoryIs(cs[j].id))|));
    var table := Table(cs, scanned);
    assert |table| == |listed|;
    forall j | 0 <= j < |cs| ensures table[j] == listed[j] {
      assert Ids(cs)[j] == cs[j].id;
    }
    assert table == listed;
  }

  lemma {:induction false} SumEntriesZero(d: seq<Entry>)
    requires forall j :: 0 <= j < |d| ==> d[j].amount == 0
    ensures SumEntries(d) == 0
    decreases |d|
  {
    if d != [] {
      SumEntriesZero(d[..|d| - 1]);
    }
  }

  lemma {:induction false} SumEntriesUpdate(d: seq<Entry>, j: nat, e: Entry)
    requires j < |d|
    ensures SumEntries(d[j := e]) == SumEntries(d) + e.amount - d[j].amount
    decreases |d|
  {
    var n := |d| - 1;
    if j == n {
      assert d[j := e][..n] == d[..n];
    } else {
      assert d[j := e][..n] == d[..n][j := e];
      SumEntriesUpdate(d[..n], j, e);
    }
  }

  /** The amounts scanned under a category id that is not a key of the table. */
  function Dangling(cs: seq<Category>, ts: seq<Tx>): int {
    SumAmounts(Select(ts, CategoryNotIn(KeyOrder(cs))))
  }

  lemma SumEntriesSnoc(d: seq<Entry>, e: Entry)
    ensures SumEntries(d + [e]) == SumEntries(d) + e.amount
  {
    assert (d + [e])[..|d|] == d;
  }

  lemma ConservationHit(cs: seq<Category>, ts: seq<Tx>, t: Tx)
    requires t.categoryId in KeyOrder(cs)
    ensures SumEntries(Table(cs, ts + [t])) == SumEntries(Table(cs, ts)) + t.amount
    ensures Dangling(cs, ts + [t]) == Dangling(cs, ts)
  {
    var keys := KeyOrder(cs);
    DanglingSkips(ts, t, keys);
    var j :| 0 <= j < |keys| && keys[j] == t.categoryId;
    TableSumHit(cs, ts, t, j);
  }

  lemma DanglingSkips(ts: seq<Tx>, t: Tx, keys: seq<Id>)
    requires t.categoryId in keys
    ensures SumAmounts(Select(ts + [t], CategoryNotIn(keys))) == SumAmounts(Select(ts, CategoryNotIn(keys)))
  {
    SelectSumSnoc(ts, t, CategoryNotIn(keys));
  }

  lemma TableSumHit(cs: seq<Category>, ts: seq<Tx>, t: Tx, j: nat)
    requires j < |KeyOrder(cs)| && KeyOrder(cs)[j] == t.categoryId
    ensures SumEntries(Table(cs, ts + [t])) == SumEntries(Table(cs, ts)) + t.amount
  {
    var d := Table(cs, ts);
    var e := d[j].(amount := d[j].amount + t.amount, count := d[j].count + 1);
    TableHit(cs, ts, t, j);
    assert Table(cs, ts + [t]) == d[j := e];
    SumEntriesUpdate(d, j, e);
  }

  lemma ConservationMiss(cs: seq<Category>, ts: seq<Tx>, t: Tx)
    requires t.categoryId !in KeyOrder(cs)
    ensures Table(cs, ts + [t]) == Table(cs, ts)
    ensures Dangling(cs, ts + [t]) == Dangling(cs, ts) + t.amount
  {
    SelectSumSnoc(ts, t, CategoryNotIn(KeyOrder(cs)));
    TableMiss(cs, ts, t);
  }

  /** Nothing is lost but the dangling ids: the table's amounts plus the amounts filed under an
      id that is no category add up to the amounts scanned. */
  lemma {:induction false} TableConservation(cs: seq<Category>, ts: seq<Tx>)
    ensures SumEntries(Table(cs, ts)) + Dangling(cs, ts) == SumAmounts(ts)
    decreases |ts|
  {
    if ts == [] {
      SumEntriesZero(Table(cs, ts));
    } else {
      var init, t := ts[..|ts| - 1], ts[|ts| - 1];
      assert ts == init + [t];
      TableConservation(cs, init);
      if t.categoryId in KeyOrder(cs) {
        ConservationHit(cs, init, t);
      } else {
        ConservationMiss(cs, init, t);
      }
      SumSnoc(init, t);
    }
  }

  lemma {:induction false} PositiveSum(d: seq<Entry>)
    requires forall j :: 0 <= j < |d| ==> d[j].amount >= 0
    ensures SumEntries(Positive(d)) == SumEntries(d)
    decreases |d|
  {
    if d != [] {
      var init, last := d[..|d| - 1], d[|d| - 1];
      assert d == init + [last];
      PositiveSum(init);
      FilterSnoc(init, last, IsPositive);
      if last.amount > 0 {
        SumEntriesSnoc(Positive(init), last);
      } else {
        assert Positive(init) + [] == Positive(init);
      }
    }
  }

  /** The breakdown's amounts plus the amounts of transactions whose category id is unknown equal
      `getTotalsByType(type, range)`, provided no amount is negative (the form only lets positive
      amounts through). */
  lemma BreakdownConservation(cs: seq<Category>, ts: seq<Tx>, kind: string, range: Option<DateRange>)
    requires forall t :: t in ts ==> t.amount >= 0
    ensures SumEntries(BreakdownOf(cs, Scoped(ts, range), kind))
            + Dangling(cs, Select(Scoped(ts, range), KindIs(kind)))
         == GetTotalsByType(ts, kind, range)
  {
    var scanned := Select(Scoped(ts, range), KindIs(kind));
    var table := Table(cs, scanned);
    forall j | 0 <= j < |table| ensures table[j].amount >= 0 {
      var e := table[j];
      SelectMembers(scanned, CategoryIs(e.id));
      SelectMembers(Scoped(ts, range), KindIs(kind));
      if range.Some? {
        SelectMembers(ts, Within(range.value.start, range.value.end));
      }
      SumNonNegative(Select(scanned, CategoryIs(e.id)));
    }
    PositiveSum(table);
    TableConservation(cs, scanned);
  }
}
