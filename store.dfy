/** The storage layer of the budget planner: the four collections kept in the browser's
    local storage, and the read-modify-write operations over them. */
module Store {
  import opened Records
  import opened Queries

  /** The persisted collections. A collection that `getTransactions`/`getGoals` read as
      absent is the empty sequence; absent categories and settings stay `None`, because
      reading them falls back to a default. `seed` is the pair of module-level default
      category lists held in memory, which a first read of the categories hands out. */
  class Store {
    var transactions: seq<Tx>
    var categories: Option<Cats>
    var goals: seq<Goal>
    var settings: Option<Settings>
    var seed: Cats

    /** A store over what the browser already holds, with the default lists as loaded. */
    constructor Open(ts: seq<Tx>, cats: Option<Cats>, gs: seq<Goal>, st: Option<Settings>)
      ensures transactions == ts && categories == cats && goals == gs && settings == st
      ensures seed == DefaultCategories
    {
      transactions := ts;
      categories := cats;
      goals := gs;
      settings := st;
      seed := DefaultCategories;
    }

    // ------------------------------------------------------------ transactions

    /** `saveTransaction(input)`: the new record goes at the end; nothing before it moves. */
    method SaveTransaction(input: TxInput, newId: Id, now: Timestamp) returns (r: Tx)
      modifies this`transactions
      ensures r == NewTx(input, newId, now)
      ensures transactions == old(transactions) + [r]
    {
      r := NewTx(input, newId, now);
      transactions := transactions + [r];
    }

    /** `updateTransaction(id, updates)`: the first record with that id is merged with the
        update and refreshed; an unknown id changes nothing and gives None. */
    method UpdateTransaction(id: Id, p: TxPatch, now: Timestamp) returns (r: Option<Tx>)
      modifies this`transactions
      ensures FirstIndex(old(transactions), TxId, id).None? ==>
        r.None? && transactions == old(transactions)
      ensures FirstIndex(old(transactions), TxId, id).Some? ==>
        var i := FirstIndex(old(transactions), TxId, id).value;
        && r == Some(PatchTx(old(transactions)[i], p, now))
        && transactions == old(transactions)[i := r.value]
    {
      var index := FirstIndex(transactions, TxId, id);
      if index.Some? {
        var t := PatchTx(transactions[index.value], p, now);
        transactions := transactions[index.value := t];
        r := Some(t);
      } else {
        r := None;
      }
    }

    /** `deleteTransaction(id)`: every record with that id goes, the others keep their order. */
    method DeleteTransaction(id: Id) returns (ok: bool)
      modifies this`transactions
      ensures ok
      ensures transactions == Select(old(transactions), IdIsNot(id))
      ensures forall t :: t in transactions <==> t in old(transactions) && t.id != id
    {
      SelectMembers(transactions, IdIsNot(id));
      transactions := Select(transactions, IdIsNot(id));
      ok := true;
    }

    // ------------------------------------------------------------ categories

    /** What `getCategories` hands out: the stored record, or the in-memory defaults. */
    function Seeded(): (c: Cats)
      reads this
      ensures categories.Some? ==> c == categories.value
      ensures categories.None? ==> c == seed
    {
      if categories.Some? then categories.value else seed
    }

    /** `getCategories()`: an absent record is seeded with the defaults and persisted;
        a stored record is returned as it is. */
    method GetCategories() returns (r: Cats)
      modifies this`categories
      ensures r == old(Seeded())
      ensures categories == Some(r)
    {
      if categories.None? {
        categories := Some(seed);
      }
      r := categories.value;
    }

    /** `addCategory(kind, input)` with the defaults copied when seeded, so that the
        in-memory lists never change. After seeding, an unknown kind fails with None and
        leaves the seeded record. */
    method AddCategory(kind: string, input: CategoryInput, newId: Id) returns (r: Option<Category>)
      modifies this`categories
      ensures ListOf(old(Seeded()), kind).None? ==> r.None? && categories == Some(old(Seeded()))
      ensures ListOf(old(Seeded()), kind).Some? ==>
        && r == Some(NewCategory(input, newId))
        && categories == WithAppended(old(Seeded()), kind, r.value)
    {
      var current := GetCategories();
      var c := NewCategory(input, newId);
      var updated := WithAppended(current, kind, c);
      if updated.Some? {
        categories := updated;
        r := Some(c);
      } else {
        r := None;
      }
    }

    /** `addCategory(kind, input)` as written: when the record was absent, the list it
        appends to is the in-memory default list itself, so the defaults change too. */
    method AddCategoryAsWritten(kind: string, input: CategoryInput, newId: Id) returns (r: Option<Category>)
      modifies this`categories, this`seed
      ensures ListOf(old(Seeded()), kind).None? ==>
        r.None? && categories == Some(old(Seeded())) && seed == old(seed)
      ensures ListOf(old(Seeded()), kind).Some? ==>
        && r == Some(NewCategory(input, newId))
        && categories == WithAppended(old(Seeded()), kind, r.value)
        && seed == (if old(categories).None? then categories.value else old(seed))
    {
      var wasAbsent := categories.None?;
      var current := GetCategories();
      var c := NewCategory(input, newId);
      var updated := WithAppended(current, kind, c);
      if updated.Some? {
        categories := updated;
        if wasAbsent {
          seed := updated.value;
        }
        r := Some(c);
      } else {
        r := None;
      }
    }

    /** `getCategoryBreakdown(kind, range)`: seeds the categories like every read of them,
        then runs the breakdown over the kind's list; an unknown kind fails with None. */
    method GetCategoryBreakdown(kind: string, range: Option<DateRange>) returns (r: Option<seq<Entry>>)
      modifies this`categories
      ensures categories == Some(old(Seeded()))
      ensures ListOf(old(Seeded()), kind).None? ==> r.None?
      ensures ListOf(old(Seeded()), kind).Some? ==>
        r == Some(BreakdownOf(ListOf(old(Seeded()), kind).value, Scoped(transactions, range), kind))
    {
      var cats := GetCategories();
      var list := ListOf(cats, kind);
      if list.Some? {
        var b := Breakdown(list.value, Scoped(transactions, range), kind);
        r := Some(b);
      } else {
        r := None;
      }
    }

    // ------------------------------------------------------------ goals

    /** `saveGoal(input)`: appended at the end, stamped with createdAt only. */
    method SaveGoal(input: GoalInput, newId: Id, now: Timestamp) returns (r: Goal)
      modifies this`goals
      ensures r == NewGoal(input, newId, now)
      ensures goals == old(goals) + [r]
    {
      r := NewGoal(input, newId, now);
      goals := goals + [r];
    }

    /** `updateGoal(id, updates)`: the first goal with that id is merged with the update,
        with no timestamp refreshed; an unknown id changes nothing and gives None. */
    method UpdateGoal(id: Id, p: GoalPatch) returns (r: Option<Goal>)
      modifies this`goals
      ensures FirstIndex(old(goals), GoalId, id).None? ==> r.None? && goals == old(goals)
      ensures FirstIndex(old(goals), GoalId, id).Some? ==>
        var i := FirstIndex(old(goals), GoalId, id).value;
        && r == Some(PatchGoal(old(goals)[i], p))
        && goals == old(goals)[i := r.value]
    {
      var index := FirstIndex(goals, GoalId, id);
      if index.Some? {
        var g := PatchGoal(goals[index.value], p);
        goals := goals[index.value := g];
        r := Some(g);
      } else {
        r := None;
      }
    }

    // ------------------------------------------------------------ settings

    /** `getSettings()`: the stored settings or, when none are stored, the defaults; it writes nothing. */
    function GetSettings(): (r: Settings)
      reads this
      ensures settings.Some? ==> r == settings.value
      ensures settings.None? ==> r == DefaultSettings
    {
      if settings.Some? then settings.value else DefaultSettings
    }

    /** `updateSettings(partial)`: the shallow merge of the current settings with `partial`, persisted. */
    method UpdateSettings(partial: Settings) returns (r: Settings)
      modifies this`settings
      ensures r == MergeSettings(old(GetSettings()), partial)
      ensures settings == Some(r)
    {
      r := MergeSettings(GetSettings(), partial);
      settings := Some(r);
    }

    // ------------------------------------------------------------ export, import, clear

    /** `exportData()`: the four collections as read (so the categories are seeded) and the time. */
    method ExportData(now: Timestamp) returns (e: ExportDoc)
      modifies this`categories
      ensures e == ExportDoc(transactions, old(Seeded()), goals, GetSettings(), now)
      ensures categories == Some(old(Seeded()))
    {
      var cats := GetCategories();
      e := ExportDoc(transactions, cats, goals, GetSettings(), now);
    }

    /** `importData(text)`: a document that does not parse writes nothing and gives false;
        otherwise each present field replaces its collection and the others stay. */
    method ImportData(doc: ImportDoc) returns (ok: bool)
      modifies this`transactions, this`categories, this`goals, this`settings
      ensures ok == doc.Document?
      ensures doc.Malformed? ==>
        && transactions == old(transactions) && categories == old(categories)
        && goals == old(goals) && settings == old(settings)
      ensures doc.Document? ==>
        && transactions == doc.transactions.GetOr(old(transactions))
        && categories == doc.categories.Or(old(categories))
        && goals == doc.goals.GetOr(old(goals))
        && settings == doc.settings.Or(old(settings))
    {
      if doc.Malformed? {
        return false;
      }
      if doc.transactions.Some? {
        transactions := doc.transactions.value;
      }
      if doc.categories.Some? {
        categories := doc.categories;
      }
      if doc.goals.Some? {
        goals := doc.goals.value;
      }
      if doc.settings.Some? {
        settings := doc.settings;
      }
      ok := true;
    }

    /** `clearAllData()`: the four storage keys are removed; the in-memory defaults stay as they are. */
    method ClearAllData()
      modifies this`transactions, this`categories, this`goals, this`settings
      ensures transactions == [] && categories == None && goals == [] && settings == None
    {
      transactions := [];
      categories := None;
      goals := [];
      settings := None;
    }
  }

  // -------------------------------------------------------------- properties across calls

  /** Deleting an id that no record carries leaves the collection as it was. */
  lemma DeleteAbsent(ts: seq<Tx>, id: Id)
    requires forall i :: 0 <= i < |ts| ==> ts[i].id != id
    ensures Select(ts, IdIsNot(id)) == ts
  {
    FilterAll(ts, Pred(IdIsNot(id)));
  }

  /** Deleting twice is deleting once. */
  lemma DeleteIdempotent(ts: seq<Tx>, id: Id)
    ensures Select(Select(ts, IdIsNot(id)), IdIsNot(id)) == Select(ts, IdIsNot(id))
  {
    var once := Select(ts, IdIsNot(id));
    SelectMembers(ts, IdIsNot(id));
    forall i | 0 <= i < |once|
      ensures once[i].id != id
    {
      assert once[i] in once;
    }
    DeleteAbsent(once, id);
  }

  /** Deleting the id of a record just saved under a fresh id undoes the save. */
  lemma DeleteUndoesSave(ts: seq<Tx>, t: Tx)
    requires forall i :: 0 <= i < |ts| ==> ts[i].id != t.id
    ensures Select(ts + [t], IdIsNot(t.id)) == ts
  {
    SelectSnoc(ts, t, IdIsNot(t.id));
    DeleteAbsent(ts, t.id);
  }

  /** Deleting splits over a concatenation: the records on either side keep their relative order. */
  lemma DeleteKeepsOrder(a: seq<Tx>, b: seq<Tx>, id: Id)
    ensures Select(a + b, IdIsNot(id)) == Select(a, IdIsNot(id)) + Select(b, IdIsNot(id))
  {
    FilterConcat(a, b, Pred(IdIsNot(id)));
  }

  /** A record saved under a fresh id is the one a later update of that id reaches. */
  lemma SavedIsFound(ts: seq<Tx>, t: Tx)
    requires forall i :: 0 <= i < |ts| ==> ts[i].id != t.id
    ensures FirstIndex(ts + [t], TxId, t.id) == Some(|ts|)
  {
    var s := ts + [t];
    assert TxId(s[|ts|]) == t.id;
  }

  // -------------------------------------------------------------- whole-store scenarios

  /** Exporting and importing the export back restores every collection; the settings may go
      from absent to the stored defaults, which reads the same. */
  method ExportImportRoundTrip(s: Store, now: Timestamp) returns (ok: bool)
    modifies s
    ensures ok
    ensures s.transactions == old(s.transactions) && s.goals == old(s.goals)
    ensures s.categories == Some(old(s.Seeded()))
    ensures s.GetSettings() == old(s.GetSettings())
    ensures s.seed == old(s.seed)
  {
    var e := s.ExportData(now);
    ok := s.ImportData(Reparse(e));
  }

  /** With the source's `addCategory`, a category added before the first stored record
      survives `clearAllData` in the defaults the next read seeds. */
  method SeedLeakAsWritten(input: CategoryInput, newId: Id) returns (reseeded: Cats)
    ensures reseeded.expense == DefaultExpenseCategories + [NewCategory(input, newId)]
    ensures reseeded != DefaultCategories
  {
    var s := new Store.Open([], None, [], None);
    var added := s.AddCategoryAsWritten(Expense, input, newId);
    s.ClearAllData();
    reseeded := s.GetCategories();
    assert |reseeded.expense| != |DefaultCategories.expense|;
  }

  /** With the corrected `addCategory`, clearing the data brings back exactly the defaults. */
  method SeedKeptAfterClear(input: CategoryInput, newId: Id) returns (reseeded: Cats)
    ensures reseeded == DefaultCategories
  {
    var s := new Store.Open([], None, [], None);
    var added := s.AddCategory(Expense, input, newId);
    s.ClearAllData();
    reseeded := s.GetCategories();
  }
}
