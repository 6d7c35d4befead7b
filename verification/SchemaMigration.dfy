/**
  The schema migration planners: which DDL statements they plan from an inspected schema, and why a
  migration that is cut short can simply be planned again.
*/
module SchemaMigration {
  import opened Common

  datatype Table = EdgeNodes | NodeRegistrationRequests | StoreConnectionLeases | NodeEnrollments
                 | LocalHistoryEntries | DeviceSessions | OtherTable(name: string)

  datatype Column = Platform | Status | StoreId | OwnerUserId | DeviceId | EdgeNodeId | MachineFingerprint
                  | PublicKeyFingerprint | Url | UserId | ActiveStoreId | ActiveOwnerUserId | ActiveDeviceId
                  | ActiveEdgeNodeId | ActiveMachineFingerprint | ActivePublicKeyFingerprint | UrlSha256
                  | OtherColumn(name: string)

  datatype Index = ActiveStoreLease | ActiveStoreUserDeviceLease | ActiveNodeEnrollment
                 | ActiveRegistrationMachine | ActiveRegistrationKey | LocalHistoryUserUrl | OtherIndex(name: string)

  /** The table's own `ck_<table>_platform`, and the two named constraints of `device_sessions`. */
  datatype Check = TablePlatform | PlatformMacos | PlatformSupported | OtherCheck(name: string)

  datatype Object = ColumnOf(table: Table, column: Column) | IndexOf(table: Table, index: Index)
                  | CheckOf(table: Table, check: Check)

  /** The columns, indexes and named check constraints that the database has. */
  type Schema = set<Object>

  /** `needs` are the columns that a generated column, an index or a constraint is defined on. */
  datatype Statement = Create(what: Object, needs: set<Object>) | Drop(what: Object) {
    /** The database accepts the statement. */
    predicate Applicable(schema: Schema) {
      match this
      case Create(o, needs) => o !in schema && needs <= schema
      case Drop(o) => o in schema
    }
    function Apply(schema: Schema): Schema {
      match this
      case Create(o, _) => schema + {o}
      case Drop(o) => schema - {o}
    }
  }

  /** Executes statements in order; the database refuses an inapplicable one. */
  function Execute(schema: Schema, statements: seq<Statement>): Option<Schema>
    decreases |statements|
  {
    if statements == [] then Some(schema)
    else if !statements[0].Applicable(schema) then None
    else Execute(statements[0].Apply(schema), statements[1..])
  }

  // ---- What a planner looks at, one entry after the other ----

  /** A statement that is planned where it changes something, unless one of `unless` exists already. */
  datatype Item = Item(st: Statement, unless: set<Object>) {
    predicate Wanted(schema: Schema) {
      (st.Create? <==> st.what !in schema) && unless !! schema
    }
  }

  function Plan(items: seq<Item>, schema: Schema): seq<Statement> {
    if items == [] then []
    else (if items[0].Wanted(schema) then [items[0].st] else []) + Plan(items[1..], schema)
  }

  lemma {:induction false} PlanAppend(a: seq<Item>, b: seq<Item>, schema: Schema)
    ensures Plan(a + b, schema) == Plan(a, schema) + Plan(b, schema)
  {
    if a == [] {
      assert a + b == b;
    } else {
      PlanAppend(a[1..], b, schema);
      assert (a + b)[1..] == a[1..] + b && (a + b)[0] == a[0];
      PlanCons(a + b, schema);
      PlanCons(a, schema);
    }
  }

  lemma PlanCons(items: seq<Item>, schema: Schema)
    requires items != []
    ensures Plan(items, schema) == (if items[0].Wanted(schema) then [items[0].st] else []) + Plan(items[1..], schema)
  {
  }

  function On(table: Table, columns: seq<Column>): set<Object> { set c | c in columns :: ColumnOf(table, c) }

  function AddColumn(table: Table, column: Column, from: seq<Column>): Item {
    Item(Create(ColumnOf(table, column), On(table, from)), {})
  }
  function AddIndex(table: Table, index: Index, columns: seq<Column>): Item {
    Item(Create(IndexOf(table, index), On(table, columns)), {})
  }
  function AddPlatformCheck(table: Table): Item {
    Item(Create(CheckOf(table, TablePlatform), On(table, [Platform])), {})
  }

  /** An entry of `_MYSQL_ACTIVE_UNIQUENESS`; `from` are the columns its generated expression reads. */
  datatype Entry = Entry(table: Table, column: Column, from: seq<Column>, index: Index, indexed: seq<Column>) {
    function Items(): seq<Item> { [AddColumn(table, column, from), AddIndex(table, index, indexed)] }
  }

  const ENTRIES: seq<Entry> := [
    Entry(NodeEnrollments, ActiveEdgeNodeId, [Status, EdgeNodeId], ActiveNodeEnrollment, [ActiveEdgeNodeId]),
    Entry(NodeRegistrationRequests, ActiveMachineFingerprint, [Status, MachineFingerprint],
          ActiveRegistrationMachine, [ActiveMachineFingerprint]),
    Entry(NodeRegistrationRequests, ActivePublicKeyFingerprint, [Status, PublicKeyFingerprint],
          ActiveRegistrationKey, [ActivePublicKeyFingerprint]),
    Entry(LocalHistoryEntries, UrlSha256, [Url], LocalHistoryUserUrl, [UserId, UrlSha256])]

  function EntryItems(entries: seq<Entry>): seq<Item> {
    if entries == [] then [] else entries[0].Items() + EntryItems(entries[1..])
  }

  datatype Generated = Generated(column: Column, from: seq<Column>)

  const GENERATED: seq<Generated> := [
    Generated(ActiveStoreId, [Status, StoreId]), Generated(ActiveOwnerUserId, [Status, OwnerUserId]),
    Generated(ActiveDeviceId, [Status, DeviceId])]

  function GeneratedItems(columns: seq<Generated>): seq<Item> {
    if columns == [] then []
    else [AddColumn(StoreConnectionLeases, columns[0].column, columns[0].from)] + GeneratedItems(columns[1..])
  }

  const DROP_LEGACY := Item(Drop(IndexOf(StoreConnectionLeases, ActiveStoreLease)), {})
  const ADD_SCOPED :=
    AddIndex(StoreConnectionLeases, ActiveStoreUserDeviceLease, [ActiveStoreId, ActiveOwnerUserId, ActiveDeviceId])

  function LeaseItems(): seq<Item> { [DROP_LEGACY] + GeneratedItems(GENERATED) + [ADD_SCOPED] }

  function UniquenessItems(): seq<Item> { LeaseItems() + EntryItems(ENTRIES) }

  const SUPPORTED := CheckOf(DeviceSessions, PlatformSupported)
  const MACOS := CheckOf(DeviceSessions, PlatformMacos)

  function DeviceItems(): seq<Item> {
    [Item(Drop(MACOS), {SUPPORTED}), Item(Create(SUPPORTED, On(DeviceSessions, [Platform])), {})]
  }

  datatype Dialect = Sqlite | Mysql | OtherDialect

  function EdgeTableItems(table: Table, dialect: Dialect): seq<Item> {
    [AddColumn(table, Platform, [])] + if dialect.Mysql? then [AddPlatformCheck(table)] else []
  }

  function EdgeItems(dialect: Dialect): seq<Item> {
    EdgeTableItems(EdgeNodes, dialect) + EdgeTableItems(NodeRegistrationRequests, dialect)
  }

  function EdgeItemsUpTo(i: nat, dialect: Dialect): seq<Item> {
    if i == 0 then [] else if i == 1 then EdgeTableItems(EdgeNodes, dialect) else EdgeItems(dialect)
  }

  // ---- The planners ----

  function Columns(schema: Schema, table: Table): (r: set<Column>)
    ensures forall c :: c in r <==> ColumnOf(table, c) in schema
  {
    set o | o in schema && o.ColumnOf? && o.table == table :: o.column
  }

  function Indexes(schema: Schema, table: Table): (r: set<Index>)
    ensures forall i :: i in r <==> IndexOf(table, i) in schema
  {
    set o | o in schema && o.IndexOf? && o.table == table :: o.index
  }

  function Checks(schema: Schema, table: Table): (r: set<Check>)
    ensures forall c :: c in r <==> CheckOf(table, c) in schema
  {
    set o | o in schema && o.CheckOf? && o.table == table :: o.check
  }

  lemma {:induction false} EntryItemsAppend(entries: seq<Entry>, e: Entry)
    ensures EntryItems(entries + [e]) == EntryItems(entries) + e.Items()
  {
    if entries == [] {
      assert entries + [e] == [e] && [e][1..] == [];
    } else {
      assert (entries + [e])[1..] == entries[1..] + [e];
      EntryItemsAppend(entries[1..], e);
    }
  }

  lemma {:induction false} GeneratedItemsAppend(columns: seq<Generated>, g: Generated)
    ensures GeneratedItems(columns + [g])
            == GeneratedItems(columns) + [AddColumn(StoreConnectionLeases, g.column, g.from)]
  {
    if columns == [] {
      assert columns + [g] == [g] && [g][1..] == [];
    } else {
      assert (columns + [g])[1..] == columns[1..] + [g];
      GeneratedItemsAppend(columns[1..], g);
    }
  }

  lemma PlanOne(item: Item, schema: Schema)
    ensures Plan([item], schema) == if item.Wanted(schema) then [item.st] else []
  {
    assert [item][1..] == [];
  }

  lemma PlanSnoc(items: seq<Item>, item: Item, schema: Schema)
    ensures Plan(items + [item], schema) == Plan(items, schema) + (if item.Wanted(schema) then [item.st] else [])
  {
    PlanOne(item, schema);
    PlanAppend(items, [item], schema);
  }

  function LeaseItemsUpTo(i: nat): seq<Item>
    requires i <= |GENERATED|
  {
    [DROP_LEGACY] + GeneratedItems(GENERATED[..i])
  }

  lemma NextGenerated(i: nat)
    requires i < |GENERATED|
    ensures var g := GENERATED[i];
            LeaseItemsUpTo(i + 1) == LeaseItemsUpTo(i) + [AddColumn(StoreConnectionLeases, g.column, g.from)]
  {
    assert GENERATED[..i + 1] == GENERATED[..i] + [GENERATED[i]];
    GeneratedItemsAppend(GENERATED[..i], GENERATED[i]);
  }

  method LeaseStatements(schema: Schema) returns (statements: seq<Statement>)
    ensures statements == Plan(LeaseItems(), schema)
  {
    var columns := Columns(schema, StoreConnectionLeases);
    var indexes := Indexes(schema, StoreConnectionLeases);
    statements := [];
    if ActiveStoreLease in indexes {
      statements := statements + [Drop(IndexOf(StoreConnectionLeases, ActiveStoreLease))];
    }
    PlanOne(DROP_LEGACY, schema);
    assert LeaseItemsUpTo(0) == [DROP_LEGACY];
    for i := 0 to |GENERATED|
      invariant statements == Plan(LeaseItemsUpTo(i), schema)
    {
      var g := GENERATED[i];
      var item := AddColumn(StoreConnectionLeases, g.column, g.from);
      if g.column !in columns {
        statements := statements + [item.st];
      }
      NextGenerated(i);
      PlanSnoc(LeaseItemsUpTo(i), item, schema);
    }
    assert GENERATED[..|GENERATED|] == GENERATED;
    if ActiveStoreUserDeviceLease !in indexes {
      statements := statements + [ADD_SCOPED.st];
    }
    PlanSnoc(LeaseItemsUpTo(|GENERATED|), ADD_SCOPED, schema);
  }

  function ItemsUpTo(i: nat): seq<Item>
    requires i <= |ENTRIES|
  {
    LeaseItems() + EntryItems(ENTRIES[..i])
  }

  lemma NextEntry(i: nat)
    requires i < |ENTRIES|
    ensures ItemsUpTo(i + 1) == ItemsUpTo(i) + ENTRIES[i].Items()
  {
    assert ENTRIES[..i + 1] == ENTRIES[..i] + [ENTRIES[i]];
    EntryItemsAppend(ENTRIES[..i], ENTRIES[i]);
  }

  lemma PlanEntry(e: Entry, schema: Schema)
    ensures Plan(e.Items(), schema) ==
            (if ColumnOf(e.table, e.column) in schema then [] else [AddColumn(e.table, e.column, e.from).st])
            + (if IndexOf(e.table, e.index) in schema then [] else [AddIndex(e.table, e.index, e.indexed).st])
  {
    var items := e.Items();
    assert items[1..] == [AddIndex(e.table, e.index, e.indexed)];
    PlanOne(items[1], schema);
  }

  method UniquenessStatements(schema: Schema) returns (statements: seq<Statement>)
    ensures statements == Plan(UniquenessItems(), schema)
  {
    statements := LeaseStatements(schema);
    var byTable: map<Table, (set<Column>, set<Index>)> := map[];
    assert ItemsUpTo(0) == LeaseItems();
    for i := 0 to |ENTRIES|
      invariant forall t :: t in byTable ==> byTable[t] == (Columns(schema, t), Indexes(schema, t))
      invariant statements == Plan(ItemsUpTo(i), schema)
    {
      var e := ENTRIES[i];
      if e.table !in byTable {
        byTable := byTable[e.table := (Columns(schema, e.table), Indexes(schema, e.table))];
      }
      var (columns, indexes) := byTable[e.table];
      if e.column !in columns {
        statements := statements + [AddColumn(e.table, e.column, e.from).st];
      }
      if e.index !in indexes {
        statements := statements + [AddIndex(e.table, e.index, e.indexed).st];
      }
      PlanEntry(e, schema);
      NextEntry(i);
      PlanAppend(ItemsUpTo(i), e.Items(), schema);
    }
    assert ENTRIES[..|ENTRIES|] == ENTRIES;
  }

  method DeviceStatements(schema: Schema) returns (statements: seq<Statement>)
    ensures statements == Plan(DeviceItems(), schema)
  {
    var names := Checks(schema, DeviceSessions);
    PlanOne(DeviceItems()[1], schema);
    assert DeviceItems()[1..] == [DeviceItems()[1]];
    if PlatformSupported in names {
      return [];
    }
    statements := [];
    if PlatformMacos in names {
      statements := statements + [Drop(MACOS)];
    }
    statements := statements + [Create(SUPPORTED, On(DeviceSessions, [Platform]))];
  }

  lemma PlanEdgeTable(items: seq<Item>, table: Table, dialect: Dialect, schema: Schema)
    ensures Plan(items + EdgeTableItems(table, dialect), schema) ==
            Plan(items, schema)
            + (if ColumnOf(table, Platform) in schema then [] else [AddColumn(table, Platform, []).st])
            + (if dialect.Mysql? && CheckOf(table, TablePlatform) !in schema then [AddPlatformCheck(table).st] else [])
  {
    var mine := EdgeTableItems(table, dialect);
    PlanSnoc(items, mine[0], schema);
    if dialect.Mysql? {
      PlanSnoc(items + [mine[0]], mine[1], schema);
      assert items + [mine[0]] + [mine[1]] == items + mine;
    } else {
      assert mine == [mine[0]];
    }
  }

  method EdgeStatements(schema: Schema, dialect: Dialect) returns (statements: seq<Statement>)
    ensures statements == Plan(EdgeItems(dialect), schema)
  {
    var tables := [EdgeNodes, NodeRegistrationRequests];
    statements := [];
    for i := 0 to |tables|
      invariant statements == Plan(EdgeItemsUpTo(i, dialect), schema)
    {
      var table := tables[i];
      if Platform !in Columns(schema, table) {
        statements := statements + [AddColumn(table, Platform, []).st];
      }
      if dialect.Mysql? {
        if TablePlatform !in Checks(schema, table) {
          statements := statements + [AddPlatformCheck(table).st];
        }
      }
      PlanEdgeTable(EdgeItemsUpTo(i, dialect), table, dialect, schema);
      assert EdgeItemsUpTo(i + 1, dialect) == EdgeItemsUpTo(i, dialect) + EdgeTableItems(table, dialect);
    }
  }

  // ---- Planning again resumes where the last run stopped ----

  /** No entry undoes or blocks another, and each is defined on columns of `base` or of an earlier entry. */
  ghost predicate Sound(items: seq<Item>, base: set<Object>) {
    && (forall i, j :: 0 <= i < j < |items| ==> Independent(items[i], items[j]))
    && (forall i :: 0 <= i < |items| ==> items[i].st.what !in base && items[i].st.what !in items[i].unless)
    && (forall i, o :: 0 <= i < |items| && items[i].st.Create? && o in items[i].st.needs ==>
          o in base || CreatedBefore(items, i, o))
  }

  /** `late` comes after `early`. */
  ghost predicate Independent(early: Item, late: Item) {
    && early.st.what != late.st.what && early.st.what !in late.unless
    && (late.st.Drop? ==> late.st.what !in early.unless)
  }

  ghost predicate CreatedBefore(items: seq<Item>, i: nat, o: Object) {
    exists j :: 0 <= j < i < |items| && items[j].st.Create? && items[j].st.what == o && items[j].unless == {}
  }

  /** Nothing is wanted from `items` exactly when the plan is empty. */
  lemma {:induction false} PlanIsEmpty(items: seq<Item>, schema: Schema)
    ensures Plan(items, schema) == [] <==> forall i :: 0 <= i < |items| ==> !items[i].Wanted(schema)
  {
    if items == [] {
      assert Plan(items, schema) == [];
    } else {
      PlanIsEmpty(items[1..], schema);
      assert forall i :: 0 <= i < |items[1..]| ==> items[1..][i] == items[i + 1];
      assert forall i :: 0 < i < |items| ==> items[i] == items[1..][i - 1];
    }
  }

  lemma {:induction false} FirstWanted(items: seq<Item>, schema: Schema) returns (i: nat)
    requires Plan(items, schema) != []
    ensures i < |items| && items[i].Wanted(schema) && forall j :: 0 <= j < i ==> !items[j].Wanted(schema)
    ensures Plan(items, schema) == [items[i].st] + Plan(items[i + 1..], schema)
  {
    if items[0].Wanted(schema) {
      i := 0;
    } else {
      var k := FirstWanted(items[1..], schema);
      i := k + 1;
      assert items[1..][k + 1..] == items[i + 1..];
      assert forall j :: 0 < j < i ==> items[j] == items[1..][j - 1];
    }
  }

  lemma {:induction false} SamePlan(items: seq<Item>, schema: Schema, schema': Schema)
    requires forall i :: 0 <= i < |items| ==> (items[i].Wanted(schema) <==> items[i].Wanted(schema'))
    ensures Plan(items, schema) == Plan(items, schema')
  {
    if items == [] {
      assert Plan(items, schema) == [];
    } else {
      assert forall i :: 0 <= i < |items[1..]| ==> items[1..][i] == items[i + 1];
      SamePlan(items[1..], schema, schema');
    }
  }

  lemma FirstIsApplicable(items: seq<Item>, base: set<Object>, schema: Schema, i: nat)
    requires Sound(items, base) && base <= schema && i < |items| && items[i].Wanted(schema)
    requires forall j :: 0 <= j < i ==> !items[j].Wanted(schema)
    ensures items[i].st.Applicable(schema)
  {
    if items[i].st.Create? {
      forall o | o in items[i].st.needs ensures o in schema {
        if o !in base {
          assert CreatedBefore(items, i, o);
          var j :| 0 <= j < i < |items| && items[j].st.Create? && items[j].st.what == o && items[j].unless == {};
          assert !items[j].Wanted(schema);
        }
      }
    }
  }

  lemma BaseStays(items: seq<Item>, base: set<Object>, schema: Schema, i: nat)
    requires Sound(items, base) && base <= schema && i < |items|
    ensures base <= items[i].st.Apply(schema)
  {
  }

  /** What was not wanted before an entry is executed is not wanted after it, nor is the entry itself. */
  lemma NoneBefore(items: seq<Item>, base: set<Object>, schema: Schema, i: nat)
    requires Sound(items, base) && i < |items| && items[i].Wanted(schema)
    requires forall j :: 0 <= j < i ==> !items[j].Wanted(schema)
    ensures Plan(items[..i + 1], items[i].st.Apply(schema)) == []
  {
    var before, schema' := items[..i + 1], items[i].st.Apply(schema);
    forall j | 0 <= j < |before| ensures !before[j].Wanted(schema') {
      if j < i { assert Independent(items[j], items[i]); }
    }
    PlanIsEmpty(before, schema');
  }

  /** What comes later is wanted after an entry exactly if it was before. */
  lemma SameAfter(items: seq<Item>, base: set<Object>, schema: Schema, i: nat)
    requires Sound(items, base) && i < |items|
    ensures Plan(items[i + 1..], items[i].st.Apply(schema)) == Plan(items[i + 1..], schema)
  {
    var after, schema' := items[i + 1..], items[i].st.Apply(schema);
    forall j | 0 <= j < |after| ensures after[j].Wanted(schema) <==> after[j].Wanted(schema') {
      assert after[j] == items[i + 1 + j] && Independent(items[i], items[i + 1 + j]);
    }
    SamePlan(after, schema, schema');
  }

  /** The first planned statement is applicable, and after it the plan is the rest of the old plan. */
  lemma FirstStatement(items: seq<Item>, base: set<Object>, schema: Schema)
    requires Sound(items, base) && base <= schema && Plan(items, schema) != []
    ensures var plan := Plan(items, schema);
            && plan[0].Applicable(schema) && base <= plan[0].Apply(schema)
            && Plan(items, plan[0].Apply(schema)) == plan[1..]
  {
    var i := FirstWanted(items, schema);
    var schema' := items[i].st.Apply(schema);
    FirstIsApplicable(items, base, schema, i);
    BaseStays(items, base, schema, i);
    NoneBefore(items, base, schema, i);
    SameAfter(items, base, schema, i);
    assert items == items[..i + 1] + items[i + 1..];
    PlanAppend(items[..i + 1], items[i + 1..], schema');
  }

  /**
    A migration cut after any number of statements: everything up to there was applicable, and planning
    again from the schema it left yields exactly the statements that are still missing.
  */
  lemma {:induction false} CutAndReplan(items: seq<Item>, base: set<Object>, schema: Schema, k: nat)
    requires Sound(items, base) && base <= schema && k <= |Plan(items, schema)|
    ensures var cut := Execute(schema, Plan(items, schema)[..k]);
            && cut.Some? && base <= cut.value
            && Plan(items, cut.value) == Plan(items, schema)[k..]
    decreases k
  {
    var plan := Plan(items, schema);
    if k > 0 {
      FirstStatement(items, base, schema);
      var next := plan[0].Apply(schema);
      CutAndReplan(items, base, next, k - 1);
      assert plan[..k][1..] == plan[1..][..k - 1] && plan[1..][k - 1..] == plan[k..];
    } else {
      assert plan[..0] == [] && plan[0..] == plan;
    }
  }

  lemma {:induction false} ExecuteAppend(schema: Schema, a: seq<Statement>, b: seq<Statement>)
    ensures Execute(schema, a + b) ==
            (if Execute(schema, a).None? then None else Execute(Execute(schema, a).value, b))
    decreases |a|
  {
    if a == [] {
      assert a + b == b;
    } else {
      assert (a + b)[1..] == a[1..] + b && (a + b)[0] == a[0];
      if a[0].Applicable(schema) { ExecuteAppend(a[0].Apply(schema), a[1..], b); }
    }
  }

  lemma ExecuteSplit(schema: Schema, statements: seq<Statement>, k: nat)
    requires k <= |statements| && Execute(schema, statements[..k]).Some?
    ensures Execute(schema, statements) == Execute(Execute(schema, statements[..k]).value, statements[k..])
  {
    assert statements[..k] + statements[k..] == statements;
    ExecuteAppend(schema, statements[..k], statements[k..]);
  }

  lemma FullRun(items: seq<Item>, base: set<Object>, schema: Schema)
    requires Sound(items, base) && base <= schema
    ensures var full := Execute(schema, Plan(items, schema)); full.Some? && Plan(items, full.value) == []
  {
    var plan := Plan(items, schema);
    CutAndReplan(items, base, schema, |plan|);
    assert plan[..|plan|] == plan;
  }

  /** Run to the end, or cut anywhere and planned again: the same schema, at which nothing is left to do. */
  lemma Resumable(items: seq<Item>, base: set<Object>, schema: Schema, k: nat)
    requires Sound(items, base) && base <= schema && k <= |Plan(items, schema)|
    ensures var full := Execute(schema, Plan(items, schema));
            var cut := Execute(schema, Plan(items, schema)[..k]);
            && full.Some? && cut.Some?
            && Execute(cut.value, Plan(items, cut.value)) == full
            && Plan(items, full.value) == []
  {
    FullRun(items, base, schema);
    CutAndReplan(items, base, schema, k);
    ExecuteSplit(schema, Plan(items, schema), k);
  }

  // ---- What the schema ends up with ----

  function Created(items: seq<Item>): set<Object> { set i | i in items && i.st.Create? :: i.st.what }
  function Dropped(items: seq<Item>): set<Object> { set i | i in items && i.st.Drop? :: i.st.what }

  /** An unconditional migration ends with everything it creates, without what it drops, and touches nothing else. */
  lemma {:induction false} Reaches(items: seq<Item>, base: set<Object>, schema: Schema)
    requires Sound(items, base) && base <= schema && forall i :: 0 <= i < |items| ==> items[i].unless == {}
    ensures Execute(schema, Plan(items, schema)) == Some(schema - Dropped(items) + Created(items))
    decreases |Plan(items, schema)|
  {
    var plan := Plan(items, schema);
    if plan == [] {
      PlanIsEmpty(items, schema);
      assert schema - Dropped(items) + Created(items) == schema;
    } else {
      var i := FirstWanted(items, schema);
      FirstStatement(items, base, schema);
      var next := plan[0].Apply(schema);
      Reaches(items, base, next);
      assert items[i] in items && items[i].st == plan[0];
      NothingTwice(items, base);
      assert next - Dropped(items) + Created(items) == schema - Dropped(items) + Created(items);
    }
  }

  lemma NothingTwice(items: seq<Item>, base: set<Object>)
    requires Sound(items, base)
    ensures Created(items) !! Dropped(items)
  {
    forall a, b | a in items && b in items && a.st.Create? && b.st.Drop? ensures a.st.what != b.st.what {
      var i :| 0 <= i < |items| && items[i] == a;
      var j :| 0 <= j < |items| && items[j] == b;
      assert i < j ==> Independent(items[i], items[j]);
      assert j < i ==> Independent(items[j], items[i]);
    }
  }

  // ---- The three migrations ----

  const UNIQUENESS_BASE: set<Object> :=
    On(StoreConnectionLeases, [Status, StoreId, OwnerUserId, DeviceId]) + On(NodeEnrollments, [Status, EdgeNodeId])
    + On(NodeRegistrationRequests, [Status, MachineFingerprint, PublicKeyFingerprint])
    + On(LocalHistoryEntries, [Url, UserId])

  lemma LeaseItemsAre()
    ensures |LeaseItems()| == 5
    ensures LeaseItems()[0] == DROP_LEGACY && LeaseItems()[4] == ADD_SCOPED
    ensures forall i :: 1 <= i < 4 ==>
      LeaseItems()[i] == AddColumn(StoreConnectionLeases, GENERATED[i - 1].column, GENERATED[i - 1].from)
  {
    assert GENERATED[1..][1..][1..] == [];
    assert GENERATED[1..][0] == GENERATED[1] && GENERATED[1..][1..][0] == GENERATED[2];
  }

  lemma {:induction false} EntryItemsAre(entries: seq<Entry>)
    ensures |EntryItems(entries)| == 2 * |entries|
    ensures forall i :: 0 <= i < |entries| ==>
      EntryItems(entries)[2 * i] == entries[i].Items()[0] && EntryItems(entries)[2 * i + 1] == entries[i].Items()[1]
  {
    if entries == [] {
      assert EntryItems(entries) == [];
    } else {
      EntryItemsAre(entries[1..]);
    }
  }

  lemma LeaseItemsAreRooted()
    ensures forall i, o :: 0 <= i < |LeaseItems()| && LeaseItems()[i].st.Create? && o in LeaseItems()[i].st.needs ==>
      o in UNIQUENESS_BASE || CreatedBefore(LeaseItems(), i, o)
  {
    var items := LeaseItems();
    LeaseItemsAre();
    forall o | o in ADD_SCOPED.st.needs ensures CreatedBefore(items, 4, o) {
      assert items[1].st.what == ColumnOf(StoreConnectionLeases, ActiveStoreId);
      assert items[2].st.what == ColumnOf(StoreConnectionLeases, ActiveOwnerUserId);
      assert items[3].st.what == ColumnOf(StoreConnectionLeases, ActiveDeviceId);
    }
  }

  lemma LeaseItemsAreSound()
    ensures Sound(LeaseItems(), UNIQUENESS_BASE)
    ensures forall i :: 0 <= i < |LeaseItems()| ==>
      LeaseItems()[i].st.what.table == StoreConnectionLeases && LeaseItems()[i].unless == {}
  {
    LeaseItemsAre();
    LeaseItemsAreRooted();
  }

  lemma SoundConcat(a: seq<Item>, b: seq<Item>, base: set<Object>)
    requires Sound(a, base) && Sound(b, base)
    requires forall i, j :: 0 <= i < |a| && 0 <= j < |b| ==> Independent(a[i], b[j])
    ensures Sound(a + b, base)
  {
    var items := a + b;
    forall i, o | 0 <= i < |items| && items[i].st.Create? && o in items[i].st.needs
      ensures o in base || CreatedBefore(items, i, o)
    {
      if o !in base {
        var list, k := if i < |a| then a else b, if i < |a| then i else i - |a|;
        assert list[k] == items[i] && CreatedBefore(list, k, o);
        var j :| 0 <= j < k && list[j].st.Create? && list[j].st.what == o && list[j].unless == {};
        assert items[if i < |a| then j else j + |a|] == list[j];
      }
    }
  }

  /** The entry reads columns that exist, and indexes them or its own. */
  ghost predicate Rooted(e: Entry, base: set<Object>) {
    && ColumnOf(e.table, e.column) !in base && IndexOf(e.table, e.index) !in base
    && On(e.table, e.from) <= base && On(e.table, e.indexed) <= base + {ColumnOf(e.table, e.column)}
  }

  ghost predicate Distinct(e: Entry, e': Entry) {
    e.table != e'.table || (e.column != e'.column && e.index != e'.index)
  }

  lemma EntryIsSound(e: Entry, base: set<Object>)
    requires Rooted(e, base)
    ensures Sound(e.Items(), base)
  {
    var items := e.Items();
    forall i, o | 0 <= i < |items| && o in items[i].st.needs ensures o in base || CreatedBefore(items, i, o) {
      assert i == 1 && o !in base ==> items[0].st.what == o;
    }
  }

  lemma {:induction false} EntryItemsAreSound(entries: seq<Entry>, base: set<Object>)
    requires forall i :: 0 <= i < |entries| ==> Rooted(entries[i], base)
    requires forall i, j :: 0 <= i < j < |entries| ==> Distinct(entries[i], entries[j])
    ensures Sound(EntryItems(entries), base)
  {
    if entries == [] {
      assert EntryItems(entries) == [];
    } else {
      var e, rest := entries[0], entries[1..];
      EntryIsSound(e, base);
      EntryItemsAreSound(rest, base);
      EntryItemsAre(rest);
      forall i, j | 0 <= i < |e.Items()| && 0 <= j < |EntryItems(rest)|
        ensures Independent(e.Items()[i], EntryItems(rest)[j])
      {
        assert Distinct(e, entries[j / 2 + 1]);
        assert j == 2 * (j / 2) || j == 2 * (j / 2) + 1;
      }
      SoundConcat(e.Items(), EntryItems(rest), base);
    }
  }

  lemma EntriesAreRooted()
    ensures forall i :: 0 <= i < |ENTRIES| ==> Rooted(ENTRIES[i], UNIQUENESS_BASE)
    ensures forall i, j :: 0 <= i < j < |ENTRIES| ==> Distinct(ENTRIES[i], ENTRIES[j])
  {
  }

  lemma EntryItemsElsewhere()
    ensures forall j :: 0 <= j < |EntryItems(ENTRIES)| ==>
      EntryItems(ENTRIES)[j].st.what.table != StoreConnectionLeases && EntryItems(ENTRIES)[j].unless == {}
  {
    EntryItemsAre(ENTRIES);
    forall j | 0 <= j < |EntryItems(ENTRIES)|
      ensures EntryItems(ENTRIES)[j].st.what.table != StoreConnectionLeases && EntryItems(ENTRIES)[j].unless == {}
    {
      assert j == 2 * (j / 2) || j == 2 * (j / 2) + 1;
      assert EntryItems(ENTRIES)[j].st.what.table == ENTRIES[j / 2].table;
    }
  }

  lemma UniquenessItemsAreSound()
    ensures Sound(UniquenessItems(), UNIQUENESS_BASE)
    ensures forall i :: 0 <= i < |UniquenessItems()| ==> UniquenessItems()[i].unless == {}
  {
    LeaseItemsAreSound();
    EntriesAreRooted();
    EntryItemsAreSound(ENTRIES, UNIQUENESS_BASE);
    EntryItemsElsewhere();
    SoundConcat(LeaseItems(), EntryItems(ENTRIES), UNIQUENESS_BASE);
  }

  /** What the uniqueness migration adds: the generated columns and the unique indexes, and the columns each is on. */
  function UniquenessOf(o: Object): Option<seq<Column>> {
    match o
    case ColumnOf(StoreConnectionLeases, ActiveStoreId) => Some([Status, StoreId])
    case ColumnOf(StoreConnectionLeases, ActiveOwnerUserId) => Some([Status, OwnerUserId])
    case ColumnOf(StoreConnectionLeases, ActiveDeviceId) => Some([Status, DeviceId])
    case IndexOf(StoreConnectionLeases, ActiveStoreUserDeviceLease) =>
      Some([ActiveStoreId, ActiveOwnerUserId, ActiveDeviceId])
    case ColumnOf(NodeEnrollments, ActiveEdgeNodeId) => Some([Status, EdgeNodeId])
    case IndexOf(NodeEnrollments, ActiveNodeEnrollment) => Some([ActiveEdgeNodeId])
    case ColumnOf(NodeRegistrationRequests, ActiveMachineFingerprint) => Some([Status, MachineFingerprint])
    case IndexOf(NodeRegistrationRequests, ActiveRegistrationMachine) => Some([ActiveMachineFingerprint])
    case ColumnOf(NodeRegistrationRequests, ActivePublicKeyFingerprint) => Some([Status, PublicKeyFingerprint])
    case IndexOf(NodeRegistrationRequests, ActiveRegistrationKey) => Some([ActivePublicKeyFingerprint])
    case ColumnOf(LocalHistoryEntries, UrlSha256) => Some([Url])
    case IndexOf(LocalHistoryEntries, LocalHistoryUserUrl) => Some([UserId, UrlSha256])
    case _ => None
  }

  /** The statement creates one of the wanted objects, on the columns that it is to be on. */
  ghost predicate AsWanted(st: Statement) {
    && st.Create? && UniquenessOf(st.what).Some? && st.needs == On(st.what.table, UniquenessOf(st.what).value)
  }

  lemma LeaseItemsAsWanted()
    ensures forall i :: 0 < i < |LeaseItems()| ==> AsWanted(LeaseItems()[i].st)
  {
    LeaseItemsAre();
  }

  lemma EntryItemsAsWanted()
    ensures forall i :: 0 <= i < |EntryItems(ENTRIES)| ==> AsWanted(EntryItems(ENTRIES)[i].st)
  {
    EntryItemsAre(ENTRIES);
    forall i | 0 <= i < |EntryItems(ENTRIES)| ensures AsWanted(EntryItems(ENTRIES)[i].st) {
      assert i == 2 * (i / 2) || i == 2 * (i / 2) + 1;
      EntryAsWanted(i / 2);
    }
  }

  lemma EntryAsWanted(i: nat)
    requires i < |ENTRIES|
    ensures AsWanted(ENTRIES[i].Items()[0].st) && AsWanted(ENTRIES[i].Items()[1].st)
  {
  }

  lemma LeaseObjects(o: Object) returns (i: nat)
    requires UniquenessOf(o).Some? && o.table == StoreConnectionLeases
    ensures 0 < i < |LeaseItems()| && LeaseItems()[i].st.what == o
  {
    LeaseItemsAre();
    i := if o.IndexOf? then 4 else if o.column == ActiveStoreId then 1
         else if o.column == ActiveOwnerUserId then 2 else 3;
  }

  lemma EntryObjects(o: Object) returns (i: nat)
    requires UniquenessOf(o).Some? && o.table != StoreConnectionLeases
    ensures i < |EntryItems(ENTRIES)| && EntryItems(ENTRIES)[i].st.what == o
  {
    EntryItemsAre(ENTRIES);
    var e := EntryOf(o);
    i := 2 * e + if o.IndexOf? then 1 else 0;
  }

  lemma EntryOf(o: Object) returns (i: nat)
    requires UniquenessOf(o).Some? && o.table != StoreConnectionLeases
    ensures i < |ENTRIES| && ENTRIES[i].Items()[if o.IndexOf? then 1 else 0].st.what == o
  {
    var machine := {ColumnOf(NodeRegistrationRequests, ActiveMachineFingerprint),
                    IndexOf(NodeRegistrationRequests, ActiveRegistrationMachine)};
    i := if o.table == NodeEnrollments then 0 else if o.table == LocalHistoryEntries then 3
         else if o in machine then 1 else 2;
  }

  /** The planner drops the legacy index; all else that it looks at are wanted objects on their columns. */
  lemma UniquenessItemsAre()
    ensures UniquenessItems()[0].st == Drop(IndexOf(StoreConnectionLeases, ActiveStoreLease))
    ensures forall i :: 0 < i < |UniquenessItems()| ==> AsWanted(UniquenessItems()[i].st)
  {
    LeaseItemsAre();
    LeaseItemsAsWanted();
    EntryItemsAsWanted();
  }

  lemma UniquenessObjects()
    ensures forall o :: o in Created(UniquenessItems()) <==> UniquenessOf(o).Some?
  {
    UniquenessItemsAre();
    forall o | UniquenessOf(o).Some? ensures o in Created(UniquenessItems()) {
      if o.table == StoreConnectionLeases {
        var i := LeaseObjects(o);
        assert UniquenessItems()[i] == LeaseItems()[i];
      } else {
        var i := EntryObjects(o);
        assert UniquenessItems()[|LeaseItems()| + i] == EntryItems(ENTRIES)[i];
      }
    }
  }

  /**
    The MySQL uniqueness migration, from any schema that has the tables' own columns: every planned
    statement is applicable when it is reached, and drops the legacy index or adds a wanted object on its
    columns; cut after any of them and planned again it ends with the same schema, the old one without the
    legacy index and with everything that is wanted; and there nothing is left to plan.
  */
  lemma UniquenessMigration(schema: Schema, k: nat) returns (goal: Schema)
    requires UNIQUENESS_BASE <= schema && k <= |Plan(UniquenessItems(), schema)|
    ensures forall st :: st in Plan(UniquenessItems(), schema) ==>
      st == Drop(IndexOf(StoreConnectionLeases, ActiveStoreLease)) || AsWanted(st)
    ensures forall o :: o in goal <==>
      (o in schema && o != IndexOf(StoreConnectionLeases, ActiveStoreLease)) || UniquenessOf(o).Some?
    ensures var cut := Execute(schema, Plan(UniquenessItems(), schema)[..k]);
            && Execute(schema, Plan(UniquenessItems(), schema)) == Some(goal)
            && cut.Some? && Execute(cut.value, Plan(UniquenessItems(), cut.value)) == Some(goal)
            && Plan(UniquenessItems(), goal) == []
  {
    UniquenessItemsAreSound();
    Resumable(UniquenessItems(), UNIQUENESS_BASE, schema, k);
    goal := UniquenessGoal(schema);
    UniquenessPlanned(schema);
  }

  lemma UniquenessGoal(schema: Schema) returns (goal: Schema)
    requires UNIQUENESS_BASE <= schema
    ensures Execute(schema, Plan(UniquenessItems(), schema)) == Some(goal)
    ensures forall o :: o in goal <==>
      (o in schema && o != IndexOf(StoreConnectionLeases, ActiveStoreLease)) || UniquenessOf(o).Some?
  {
    UniquenessItemsAreSound();
    Reaches(UniquenessItems(), UNIQUENESS_BASE, schema);
    goal := schema - Dropped(UniquenessItems()) + Created(UniquenessItems());
    OnlyLegacyIsDropped();
    UniquenessObjects();
  }

  lemma UniquenessPlanned(schema: Schema)
    ensures forall st :: st in Plan(UniquenessItems(), schema) ==>
      st == Drop(IndexOf(StoreConnectionLeases, ActiveStoreLease)) || AsWanted(st)
  {
    UniquenessItemsAre();
    PlannedIsListed(UniquenessItems(), schema);
  }

  lemma {:induction false} PlannedIsListed(items: seq<Item>, schema: Schema)
    ensures forall st :: st in Plan(items, schema) ==> exists i :: 0 <= i < |items| && items[i].st == st
  {
    if items == [] {
      assert Plan(items, schema) == [];
    } else {
      PlannedIsListed(items[1..], schema);
      forall st | st in Plan(items[1..], schema) ensures exists i :: 0 <= i < |items| && items[i].st == st {
        var i :| 0 <= i < |items[1..]| && items[1..][i].st == st;
        assert items[i + 1].st == st;
      }
    }
  }

  lemma OnlyLegacyIsDropped()
    ensures Dropped(UniquenessItems()) == {DROP_LEGACY.st.what}
  {
    LeaseItemsAre();
    EntryItemsAre(ENTRIES);
    assert UniquenessItems()[0] == DROP_LEGACY;
    forall i | 0 < i < |UniquenessItems()| ensures UniquenessItems()[i].st.Create? {
      var j := i - |LeaseItems()|;
      if j >= 0 {
        assert j == 2 * (j / 2) || j == 2 * (j / 2) + 1;
      }
    }
  }

  /** What the Edge migration adds: the platform columns, and on MySQL a constraint on each. */
  function EdgeObjects(dialect: Dialect): set<Object> {
    {ColumnOf(EdgeNodes, Platform), ColumnOf(NodeRegistrationRequests, Platform)}
    + if dialect == Mysql then {CheckOf(EdgeNodes, TablePlatform), CheckOf(NodeRegistrationRequests, TablePlatform)}
      else {}
  }

  lemma EdgeItemsAre(dialect: Dialect)
    ensures Created(EdgeItems(dialect)) == EdgeObjects(dialect)
  {
    var items := EdgeItems(dialect);
    assert items[0] == AddColumn(EdgeNodes, Platform, []);
    if dialect.Mysql? {
      assert items[1] == AddPlatformCheck(EdgeNodes);
      assert items[2] == AddColumn(NodeRegistrationRequests, Platform, []);
      assert items[3] == AddPlatformCheck(NodeRegistrationRequests);
    } else {
      assert items[1] == AddColumn(NodeRegistrationRequests, Platform, []);
    }
  }

  /** Adding the platform column, and on MySQL its constraint, to the two Edge tables. */
  lemma EdgeMigration(schema: Schema, dialect: Dialect, k: nat)
    requires k <= |Plan(EdgeItems(dialect), schema)|
    ensures var goal := schema + EdgeObjects(dialect);
            var cut := Execute(schema, Plan(EdgeItems(dialect), schema)[..k]);
            && Execute(schema, Plan(EdgeItems(dialect), schema)) == Some(goal)
            && cut.Some? && Execute(cut.value, Plan(EdgeItems(dialect), cut.value)) == Some(goal)
            && Plan(EdgeItems(dialect), goal) == []
  {
    EdgeItemsAreSound(dialect);
    EdgeItemsAre(dialect);
    Resumable(EdgeItems(dialect), {}, schema, k);
    Reaches(EdgeItems(dialect), {}, schema);
    EdgeDropsNothing(dialect);
    assert schema - {} == schema;
  }

  lemma EdgeDropsNothing(dialect: Dialect)
    ensures Dropped(EdgeItems(dialect)) == {}
  {
    assert forall i :: 0 <= i < |EdgeItems(dialect)| ==> EdgeItems(dialect)[i].st.Create?;
  }

  lemma EdgeTableIsSound(table: Table, dialect: Dialect)
    ensures Sound(EdgeTableItems(table, dialect), {})
  {
    var items := EdgeTableItems(table, dialect);
    forall i, o | 0 <= i < |items| && o in items[i].st.needs ensures CreatedBefore(items, i, o) {
      assert i == 1 && items[0].st.what == o;
    }
  }

  lemma EdgeItemsAreSound(dialect: Dialect)
    ensures Sound(EdgeItems(dialect), {})
    ensures forall i :: 0 <= i < |EdgeItems(dialect)| ==> EdgeItems(dialect)[i].unless == {}
  {
    EdgeTableIsSound(EdgeNodes, dialect);
    EdgeTableIsSound(NodeRegistrationRequests, dialect);
    SoundConcat(EdgeTableItems(EdgeNodes, dialect), EdgeTableItems(NodeRegistrationRequests, dialect), {});
  }

  /** Where the supported constraint exists nothing changes; otherwise it replaces the macOS-only one. */
  lemma DeviceMigration(schema: Schema, k: nat)
    requires ColumnOf(DeviceSessions, Platform) in schema && k <= |Plan(DeviceItems(), schema)|
    ensures var macos, supported := CheckOf(DeviceSessions, PlatformMacos), CheckOf(DeviceSessions, PlatformSupported);
            var goal := if supported in schema then schema else schema - {macos} + {supported};
            var cut := Execute(schema, Plan(DeviceItems(), schema)[..k]);
            && Execute(schema, Plan(DeviceItems(), schema)) == Some(goal)
            && cut.Some? && Execute(cut.value, Plan(DeviceItems(), cut.value)) == Some(goal)
            && Plan(DeviceItems(), goal) == []
  {
    var base := {ColumnOf(DeviceSessions, Platform)};
    assert Sound(DeviceItems(), base);
    Resumable(DeviceItems(), base, schema, k);
    DeviceGoal(schema);
  }

  lemma ExecuteOne(schema: Schema, st: Statement)
    requires st.Applicable(schema)
    ensures Execute(schema, [st]) == Some(st.Apply(schema))
  {
    assert [st][1..] == [];
  }

  lemma DevicePlan(schema: Schema)
    ensures var items := DeviceItems();
            Plan(items, schema) == (if SUPPORTED in schema then [] else if MACOS in schema then [items[0].st] else [])
                                   + (if SUPPORTED in schema then [] else [items[1].st])
  {
    var items := DeviceItems();
    assert items[1..] == [items[1]];
    PlanOne(items[1], schema);
  }

  lemma DeviceGoal(schema: Schema)
    requires ColumnOf(DeviceSessions, Platform) in schema
    ensures Execute(schema, Plan(DeviceItems(), schema))
            == Some(if SUPPORTED in schema then schema else schema - {MACOS} + {SUPPORTED})
  {
    DevicePlan(schema);
    var drop, add := DeviceItems()[0].st, DeviceItems()[1].st;
    if SUPPORTED !in schema {
      if MACOS in schema {
        ExecuteOne(schema, drop);
        ExecuteOne(schema - {MACOS}, add);
        ExecuteAppend(schema, [drop], [add]);
      } else {
        ExecuteOne(schema, add);
        assert schema - {MACOS} == schema && [] + [add] == [add];
      }
    }
  }
}
