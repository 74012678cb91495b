/** The records kept by the budget planner's store: transactions, categories,
    goals and settings, with the object-spread merges the store applies to them. */
module Records {

  datatype Option<+T> = None | Some(value: T) {
    function GetOr(default: T): T {
      if Some? then value else default
    }

    /** `b.Or(a)`: the value of `b` when present, otherwise `a` (the later spread wins). */
    function Or(earlier: Option<T>): Option<T> {
      if Some? then this else earlier
    }
  }

  type Id = string

  /** `findIndex(x => key(x) === id)`: the first position whose key is `id`, or None. */
  function FirstIndex<T>(s: seq<T>, key: T -> Id, id: Id): (r: Option<nat>)
    ensures r.Some? ==> r.value < |s| && key(s[r.value]) == id
    ensures r.Some? ==> forall j :: 0 <= j < r.value ==> key(s[j]) != id
    ensures r.None? ==> forall j :: 0 <= j < |s| ==> key(s[j]) != id
  {
    if s == [] then None
    else if key(s[0]) == id then Some(0)
    else match FirstIndex(s[1..], key, id)
      case None => None
      case Some(i) => Some(i + 1)
  }

  /** An ISO timestamp as produced by the host clock; the clock itself is a parameter. */
  type Timestamp = string

  type Month = m: int | 1 <= m <= 12 witness 1
  type Day = d: int | 1 <= d <= 31 witness 1

  /** A calendar date such as the form's "2024-03-05". */
  datatype Date = Date(year: int, month: Month, day: Day)

  /** Chronological order on dates: year, then month, then day. */
  predicate DateLe(a: Date, b: Date) {
    a.year < b.year
    || (a.year == b.year && (a.month < b.month || (a.month == b.month && a.day <= b.day)))
  }

  /** The two transaction types the forms produce, which are also the keys of the categories record. */
  const Income: string := "income"
  const Expense: string := "expense"

  // ---------------------------------------------------------------- transactions

  /** A stored transaction. The source's `type` field is called `kind` here. */
  datatype Tx = Tx(
    id: Id,
    kind: string,
    amount: int,            // in cents
    description: string,
    categoryId: Id,
    date: Date,
    createdAt: Timestamp,
    updatedAt: Timestamp)

  function TxId(t: Tx): Id { t.id }

  /** What a caller hands to the store; an `id` is normally absent but, when present, wins. */
  datatype TxInput = TxInput(
    id: Option<Id>,
    kind: string,
    amount: int,
    description: string,
    categoryId: Id,
    date: Date)

  /** The record built by `{ id: generateId(), ...input, createdAt: now, updatedAt: now }`. */
  function NewTx(input: TxInput, newId: Id, now: Timestamp): (r: Tx)
    ensures input.id.None? ==> r.id == newId
    ensures input.id.Some? ==> r.id == input.id.value
    ensures r.kind == input.kind && r.amount == input.amount && r.description == input.description
    ensures r.categoryId == input.categoryId && r.date == input.date
    ensures r.createdAt == now && r.updatedAt == now
  {
    Tx(input.id.GetOr(newId), input.kind, input.amount, input.description,
       input.categoryId, input.date, now, now)
  }

  /** The fields an update may carry; an absent field keeps the stored value. */
  datatype TxPatch = TxPatch(
    id: Option<Id>,
    kind: Option<string>,
    amount: Option<int>,
    description: Option<string>,
    categoryId: Option<Id>,
    date: Option<Date>,
    createdAt: Option<Timestamp>)

  const NoTxChange: TxPatch := TxPatch(None, None, None, None, None, None, None)

  /** `{ ...t, ...p, updatedAt: now }`. */
  function PatchTx(t: Tx, p: TxPatch, now: Timestamp): Tx {
    Tx(p.id.GetOr(t.id), p.kind.GetOr(t.kind), p.amount.GetOr(t.amount),
       p.description.GetOr(t.description), p.categoryId.GetOr(t.categoryId),
       p.date.GetOr(t.date), p.createdAt.GetOr(t.createdAt), now)
  }

  /** The patch whose effect is `p` followed by `q`. */
  function ThenTx(p: TxPatch, q: TxPatch): TxPatch {
    TxPatch(q.id.Or(p.id), q.kind.Or(p.kind), q.amount.Or(p.amount),
            q.description.Or(p.description), q.categoryId.Or(p.categoryId),
            q.date.Or(p.date), q.createdAt.Or(p.createdAt))
  }

  /** A patch overrides exactly the fields it carries, keeps the others, and always refreshes updatedAt. */
  lemma PatchTxFields(t: Tx, p: TxPatch, now: Timestamp)
    ensures var r := PatchTx(t, p, now);
      && (r.id == if p.id.Some? then p.id.value else t.id)
      && (r.kind == if p.kind.Some? then p.kind.value else t.kind)
      && (r.amount == if p.amount.Some? then p.amount.value else t.amount)
      && (r.description == if p.description.Some? then p.description.value else t.description)
      && (r.categoryId == if p.categoryId.Some? then p.categoryId.value else t.categoryId)
      && (r.date == if p.date.Some? then p.date.value else t.date)
      && (r.createdAt == if p.createdAt.Some? then p.createdAt.value else t.createdAt)
      && r.updatedAt == now
  {
  }

  /** Two updates in a row act as one update carrying both, the later one winning. */
  lemma PatchTxCompose(t: Tx, p: TxPatch, q: TxPatch, now1: Timestamp, now2: Timestamp)
    ensures PatchTx(PatchTx(t, p, now1), q, now2) == PatchTx(t, ThenTx(p, q), now2)
  {
  }

  /** An empty update only refreshes updatedAt. */
  lemma NoTxChangeRefreshesOnly(t: Tx, now: Timestamp)
    ensures PatchTx(t, NoTxChange, now) == t.(updatedAt := now)
  {
  }

  // ---------------------------------------------------------------- goals

  datatype Goal = Goal(
    id: Id,
    title: string,
    targetAmount: int,      // in cents
    targetDate: Date,
    description: string,
    status: string,
    createdAt: Timestamp)

  function GoalId(g: Goal): Id { g.id }

  datatype GoalInput = GoalInput(
    id: Option<Id>,
    title: string,
    targetAmount: int,
    targetDate: Date,
    description: string,
    status: string)

  /** The record built by `{ id: generateId(), ...goal, createdAt: now }`; goals have no updatedAt. */
  function NewGoal(input: GoalInput, newId: Id, now: Timestamp): (r: Goal)
    ensures input.id.None? ==> r.id == newId
    ensures input.id.Some? ==> r.id == input.id.value
    ensures r.title == input.title && r.targetAmount == input.targetAmount
    ensures r.targetDate == input.targetDate && r.description == input.description
    ensures r.status == input.status && r.createdAt == now
  {
    Goal(input.id.GetOr(newId), input.title, input.targetAmount, input.targetDate,
         input.description, input.status, now)
  }

  datatype GoalPatch = GoalPatch(
    id: Option<Id>,
    title: Option<string>,
    targetAmount: Option<int>,
    targetDate: Option<Date>,
    description: Option<string>,
    status: Option<string>,
    createdAt: Option<Timestamp>)

  /** `{ ...g, ...p }`: unlike a transaction update, nothing is refreshed. */
  function PatchGoal(g: Goal, p: GoalPatch): Goal {
    Goal(p.id.GetOr(g.id), p.title.GetOr(g.title), p.targetAmount.GetOr(g.targetAmount),
         p.targetDate.GetOr(g.targetDate), p.description.GetOr(g.description),
         p.status.GetOr(g.status), p.createdAt.GetOr(g.createdAt))
  }

  function ThenGoal(p: GoalPatch, q: GoalPatch): GoalPatch {
    GoalPatch(q.id.Or(p.id), q.title.Or(p.title), q.targetAmount.Or(p.targetAmount),
              q.targetDate.Or(p.targetDate), q.description.Or(p.description),
              q.status.Or(p.status), q.createdAt.Or(p.createdAt))
  }

  /** A goal update overrides exactly the fields it carries and keeps all others. */
  lemma PatchGoalFields(g: Goal, p: GoalPatch)
    ensures var r := PatchGoal(g, p);
      && (r.id == if p.id.Some? then p.id.value else g.id)
      && (r.title == if p.title.Some? then p.title.value else g.title)
      && (r.targetAmount == if p.targetAmount.Some? then p.targetAmount.value else g.targetAmount)
      && (r.targetDate == if p.targetDate.Some? then p.targetDate.value else g.targetDate)
      && (r.description == if p.description.Some? then p.description.value else g.description)
      && (r.status == if p.status.Some? then p.status.value else g.status)
      && (r.createdAt == if p.createdAt.Some? then p.createdAt.value else g.createdAt)
  {
  }

  /** Applying the same goal update twice is the same as applying it once. */
  lemma PatchGoalIdempotent(g: Goal, p: GoalPatch)
    ensures PatchGoal(PatchGoal(g, p), p) == PatchGoal(g, p)
  {
  }

  lemma PatchGoalCompose(g: Goal, p: GoalPatch, q: GoalPatch)
    ensures PatchGoal(PatchGoal(g, p), q) == PatchGoal(g, ThenGoal(p, q))
  {
  }

  // ---------------------------------------------------------------- categories

  datatype Category = Category(id: Id, name: string, color: string, icon: string)

  datatype CategoryInput = CategoryInput(id: Option<Id>, name: string, color: string, icon: string)

  /** The record built by `{ id: generateId(), ...category }`. */
  function NewCategory(input: CategoryInput, newId: Id): (r: Category)
    ensures r.id == if input.id.Some? then input.id.value else newId
    ensures r.name == input.name && r.color == input.color && r.icon == input.icon
  {
    Category(input.id.GetOr(newId), input.name, input.color, input.icon)
  }

  /** The categories record: one ordered list per transaction type. */
  datatype Cats = Cats(income: seq<Category>, expense: seq<Category>)

  /** `categories[kind]`: only the two keys of the record hold a list. */
  function ListOf(c: Cats, kind: string): (r: Option<seq<Category>>)
    ensures r.Some? <==> kind == Income || kind == Expense
  {
    if kind == Income then Some(c.income)
    else if kind == Expense then Some(c.expense)
    else None
  }

  /** `categories[kind].push(cat)`: None when `categories[kind]` is undefined (a TypeError in the source). */
  function WithAppended(c: Cats, kind: string, cat: Category): (r: Option<Cats>)
    ensures r.Some? <==> ListOf(c, kind).Some?
    ensures r.Some? ==> ListOf(r.value, kind) == Some(ListOf(c, kind).value + [cat])
    ensures r.Some? && kind == Income ==> r.value.expense == c.expense
    ensures r.Some? && kind == Expense ==> r.value.income == c.income
  {
    if kind == Income then Some(c.(income := c.income + [cat]))
    else if kind == Expense then Some(c.(expense := c.expense + [cat]))
    else None
  }

  const DefaultExpenseCategories: seq<Category> := [
    Category("food", "Food & Dining", "#FF6B6B", "\U{1F37D}\U{FE0F}"),
    Category("transport", "Transportation", "#4ECDC4", "\U{1F697}"),
    Category("shopping", "Shopping", "#45B7D1", "\U{1F6CD}\U{FE0F}"),
    Category("entertainment", "Entertainment", "#96CEB4", "\U{1F3AC}"),
    Category("bills", "Bills & Utilities", "#FFEAA7", "\U{1F4A1}"),
    Category("healthcare", "Healthcare", "#DDA0DD", "\U{1F3E5}"),
    Category("education", "Education", "#98D8C8", "\U{1F4DA}"),
    Category("other", "Other", "#F7DC6F", "\U{1F4E6}")
  ]

  const DefaultIncomeCategories: seq<Category> := [
    Category("salary", "Salary", "#2ECC71", "\U{1F4BC}"),
    Category("freelance", "Freelance", "#3498DB", "\U{1F4BB}"),
    Category("investment", "Investment", "#9B59B6", "\U{1F4C8}"),
    Category("gift", "Gift", "#E74C3C", "\U{1F381}"),
    Category("other_income", "Other Income", "#F39C12", "\U{1F4B0}")
  ]

  const DefaultCategories: Cats := Cats(DefaultIncomeCategories, DefaultExpenseCategories)

  // ---------------------------------------------------------------- settings

  /** A settings value: the defaults are strings and flags; `budgetLimits` maps keys to amounts. */
  datatype Val = Text(text: string) | Flag(flag: bool) | Number(number: int) | Limits(limits: map<string, int>)

  type Settings = map<string, Val>

  const DefaultSettings: Settings := map[
    "currency" := Text("USD"),
    "theme" := Text("light"),
    "notifications" := Flag(true),
    "budgetAlerts" := Flag(true)
  ]

  /** The defaults `getSettings` falls back to: exactly these four keys. */
  lemma DefaultSettingsValues()
    ensures DefaultSettings.Keys == {"currency", "theme", "notifications", "budgetAlerts"}
    ensures DefaultSettings["currency"] == Text("USD") && DefaultSettings["theme"] == Text("light")
    ensures DefaultSettings["notifications"] == Flag(true) && DefaultSettings["budgetAlerts"] == Flag(true)
  {
  }

  /** `{ ...current, ...partial }`: a shallow merge; a nested value in `partial` replaces the old one whole. */
  function MergeSettings(current: Settings, partial: Settings): (r: Settings)
    ensures r.Keys == current.Keys + partial.Keys
    ensures forall k :: k in partial ==> r[k] == partial[k]
    ensures forall k :: k in current && k !in partial ==> r[k] == current[k]
  {
    current + partial
  }

  /** Merging the same partial settings twice changes nothing the first merge did not. */
  lemma MergeSettingsIdempotent(current: Settings, partial: Settings)
    ensures MergeSettings(MergeSettings(current, partial), partial) == MergeSettings(current, partial)
  {
  }

  // ---------------------------------------------------------------- export / import documents

  /** The document `exportData` serialises. */
  datatype ExportDoc = ExportDoc(
    transactions: seq<Tx>,
    categories: Cats,
    goals: seq<Goal>,
    settings: Settings,
    exportDate: Timestamp)

  /** The outcome of parsing an import document. A field is None when it is absent or falsy.
      `Malformed` stands for a parse error and for a document whose field access throws (`null`). */
  datatype ImportDoc =
    | Malformed
    | Document(
        transactions: Option<seq<Tx>>,
        categories: Option<Cats>,
        goals: Option<seq<Goal>>,
        settings: Option<Settings>)

  /** Parsing the text of an exported document gives back every field it was written with. */
  function Reparse(e: ExportDoc): (r: ImportDoc)
    ensures r.Document?
    ensures r.transactions == Some(e.transactions) && r.categories == Some(e.categories)
    ensures r.goals == Some(e.goals) && r.settings == Some(e.settings)
  {
    Document(Some(e.transactions), Some(e.categories), Some(e.goals), Some(e.settings))
  }
}
