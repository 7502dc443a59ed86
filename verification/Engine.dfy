/** The in-memory object store: tables, id sequences and index upkeep
    (btpay/orm/engine.py). Index objects are held as values. */
module Engine {
  import opened Columns
  import opened Indexing
  import opened Values
  import opened Wrappers

  type Indexes = map<string, Index>

  /** What the store holds for one model. */
  datatype Model = Model(rows: Table, sequence: int, indexes: Indexes)

  /** A result of an operation that may raise half-way. */
  datatype Outcome<T> = Outcome(state: T, ok: bool)

  // ---- Index upkeep ---------------------------------------------------------

  /** `_update_indexes`: column after column, until one raises; that one has lost the old
      value by then. */
  function UpdatedIndexes(columns: seq<Column>, indexes: Indexes, pk: int, before: Row, after: Row): Outcome<Indexes> {
    if columns == [] then Outcome(indexes, true)
    else
      var name := columns[0].name;
      if name !in indexes then UpdatedIndexes(columns[1..], indexes, pk, before, after)
      else
        match Replaced(indexes[name], pk, Get(before, name), Get(after, name))
        case Some(index) => UpdatedIndexes(columns[1..], indexes[name := index], pk, before, after)
        case None => Outcome(indexes[name := Interrupted(indexes[name], pk, Get(before, name))], false)
  }

  function Interrupted(index: Index, pk: int, before: Value): Index {
    if before != Null then Removed(index, before, pk) else index
  }

  /** `_remove_indexes`. */
  function RemovedIndexes(columns: seq<Column>, indexes: Indexes, pk: int, row: Row): Indexes {
    if columns == [] then indexes
    else
      var name := columns[0].name;
      RemovedIndexes(columns[1..],
        if name in indexes then indexes[name := Interrupted(indexes[name], pk, Get(row, name))] else indexes,
        pk, row)
  }

  ghost predicate Distinct(columns: seq<Column>) {
    forall i, j :: 0 <= i < j < |columns| ==> columns[i].name != columns[j].name
  }

  ghost predicate Named(columns: seq<Column>, name: string) {
    exists i :: 0 <= i < |columns| && columns[i].name == name
  }

  function Present(rows: Table, pk: int): Row {
    if pk in rows then rows[pk] else map[]
  }

  lemma DistinctRest(columns: seq<Column>)
    requires Distinct(columns) && columns != []
    ensures Distinct(columns[1..]) && !Named(columns[1..], columns[0].name)
    ensures forall name :: Named(columns, name) <==> name == columns[0].name || Named(columns[1..], name)
  {
    forall name ensures Named(columns, name) <==> name == columns[0].name || Named(columns[1..], name) {
      if Named(columns, name) {
        var i :| 0 <= i < |columns| && columns[i].name == name;
        if i > 0 {
          assert columns[1..][i - 1].name == name;
        }
      }
      if Named(columns[1..], name) {
        var i :| 0 <= i < |columns[1..]| && columns[1..][i].name == name;
        assert columns[i + 1].name == name;
      }
    }
  }

  /** A row, unless it is absent or empty. */
  function Fetched(rows: Table, pk: int): Option<Row> {
    if pk in rows && rows[pk] != map[] then Some(rows[pk]) else None
  }

  /** The replacement the index of one column goes through. */
  function Change(indexes: Indexes, name: string, pk: int, before: Row, after: Row): Option<Index>
    requires name in indexes
  {
    Replaced(indexes[name], pk, Get(before, name), Get(after, name))
  }

  /** An update succeeds exactly if no column conflicts; then every column's index has
      been replaced. If it fails, some conflicting column only lost its old value. */
  lemma {:induction false} UpdatedEach(columns: seq<Column>, indexes: Indexes, pk: int, before: Row, after: Row)
    requires Distinct(columns)
    ensures var r := UpdatedIndexes(columns, indexes, pk, before, after);
      && r.state.Keys == indexes.Keys
      && (r.ok <==> forall name :: name in indexes && Named(columns, name) ==>
          Change(indexes, name, pk, before, after).Some?)
      && (forall name :: name in indexes && !Named(columns, name) ==> r.state[name] == indexes[name])
      && (r.ok ==> forall name :: name in indexes && Named(columns, name) ==>
          r.state[name] == Change(indexes, name, pk, before, after).value)
      && (!r.ok ==> exists name ::
            name in indexes && Named(columns, name)
            && Change(indexes, name, pk, before, after) == None
            && r.state[name] == Interrupted(indexes[name], pk, Get(before, name)))
  {
    hide Replaced, Interrupted, Get, Distinct, Named;
    if columns == [] {
      NothingNamed();
    } else {
      DistinctRest(columns);
      var name := columns[0].name;
      if name !in indexes {
        UpdatedEach(columns[1..], indexes, pk, before, after);
      } else {
        var change := Change(indexes, name, pk, before, after);
        if change.Some? {
          UpdatedEach(columns[1..], indexes[name := change.value], pk, before, after);
          assert forall other :: other != name && other in indexes ==>
            Change(indexes[name := change.value], other, pk, before, after)
                == Change(indexes, other, pk, before, after);
        }
      }
    }
  }

  lemma NothingNamed()
    ensures forall name :: !Named([], name)
  {
  }

  lemma {:induction false} RemovedEach(columns: seq<Column>, indexes: Indexes, pk: int, row: Row)
    requires Distinct(columns)
    ensures var r := RemovedIndexes(columns, indexes, pk, row);
      && r.Keys == indexes.Keys
      && forall name :: name in indexes ==>
           r[name] == if Named(columns, name) then Interrupted(indexes[name], pk, Get(row, name)) else indexes[name]
  {
    hide Interrupted, Get, Distinct, Named;
    if columns == [] {
      NothingNamed();
    } else {
      DistinctRest(columns);
      var name := columns[0].name;
      RemovedEach(columns[1..],
        if name in indexes then indexes[name := Interrupted(indexes[name], pk, Get(row, name))] else indexes,
        pk, row);
    }
  }

  // ---- Operations on one model ----------------------------------------------

  /** What the program does to the store: saving a new instance, saving one that has an id,
      deleting, clearing the store, and loading stored rows, with the sequence to set
      afterwards if they come from a file. */
  datatype Op =
    | Create(data: Row)
    | Save(pk: int, data: Row)
    | Drop(pk: int)
    | Clear
    | Load(entries: seq<(int, Row)>, sequence: Option<int>)

  /** `insert` or `update`: the row is written first, whatever the indexes say. */
  function Written(columns: seq<Column>, m: Model, pk: int, before: Row, data: Row): Outcome<Model> {
    var updated := UpdatedIndexes(columns, m.indexes, pk, before, data);
    Outcome(m.(rows := m.rows[pk := data], indexes := updated.state), updated.ok)
  }

  function Deleted(columns: seq<Column>, m: Model, pk: int): Model {
    if pk !in m.rows then m
    else m.(rows := m.rows - {pk}, indexes := RemovedIndexes(columns, m.indexes, pk, m.rows[pk]))
  }

  function ClearedModel(m: Model): Model {
    Model(map[], 1, map name | name in m.indexes :: Cleared(m.indexes[name]))
  }

  /** The column values of a stored row, read back. */
  function LoadedRow(conv: Conversions, columns: seq<Column>, row: Row): Result<Row> {
    if columns == [] then Ok(row)
    else if columns[0].name !in row then LoadedRow(conv, columns[1..], row)
    else
      match FromStorage(conv, columns[0], row[columns[0].name])
      case Error => Error
      case Ok(value) => LoadedRow(conv, columns[1..], row[columns[0].name := value])
  }

  /** Every column the row has is converted, and nothing else changes; it raises exactly if a
      conversion does. */
  lemma {:induction false} LoadedColumns(conv: Conversions, columns: seq<Column>, row: Row)
    requires Distinct(columns)
    ensures LoadedRow(conv, columns, row) == Error <==>
      exists i :: 0 <= i < |columns| && columns[i].name in row
        && FromStorage(conv, columns[i], row[columns[i].name]) == Error
    ensures LoadedRow(conv, columns, row).Ok? ==>
      var loaded := LoadedRow(conv, columns, row).value;
      && loaded.Keys == row.Keys
      && (forall name :: name in row && !Named(columns, name) ==> loaded[name] == row[name])
      && (forall i :: 0 <= i < |columns| && columns[i].name in row ==>
            FromStorage(conv, columns[i], row[columns[i].name]) == Ok(loaded[columns[i].name]))
  {
    hide FromStorage;
    if columns != [] {
      var c, rest := columns[0], columns[1..];
      DistinctRest(columns);
      assert forall i :: 0 <= i < |rest| ==> rest[i] == columns[i + 1] && rest[i].name != c.name;
      assert forall i :: 0 < i < |columns| ==> columns[i] == rest[i - 1];
      if c.name !in row {
        LoadedColumns(conv, rest, row);
      } else if FromStorage(conv, c, row[c.name]).Ok? {
        LoadedColumns(conv, rest, row[c.name := FromStorage(conv, c, row[c.name]).value]);
      }
    }
  }

  /** `load_table_data`: rows one by one into the table and the indexes, then the sequence
      past the largest id; it stops where a conversion or an index raises. */
  function Loaded(conv: Conversions, columns: seq<Column>, m: Model, maxPk: int,
        entries: seq<(int, Row)>): Outcome<Model>
    decreases |entries|
  {
    if entries == [] then Outcome(m.(sequence := maxPk + 1), true)
    else
      var pk := entries[0].0;
      match LoadedRow(conv, columns, entries[0].1)
      case Error => Outcome(m, false)
      case Ok(row) =>
        var written := Written(columns, m, pk, map[], row);
        if written.ok then Loaded(conv, columns, written.state, if pk > maxPk then pk else maxPk, entries[1..])
        else written
  }

  function RowsOf(base: Table, entries: seq<(int, Row)>): Table
    decreases |entries|
  {
    if entries == [] then base else RowsOf(base[entries[0].0 := entries[0].1], entries[1..])
  }

  function MaxPk(maxPk: int, entries: seq<(int, Row)>): int
    decreases |entries|
  {
    if entries == [] then maxPk else MaxPk(if entries[0].0 > maxPk then entries[0].0 else maxPk, entries[1..])
  }

  /** `load_table_data`, and `set_sequence` if that did not raise. */
  function LoadedWith(conv: Conversions, columns: seq<Column>, m: Model, entries: seq<(int, Row)>,
        sequence: Option<int>): Outcome<Model> {
    var loaded := Loaded(conv, columns, m, 0, entries);
    if loaded.ok && sequence.Some? then Outcome(loaded.state.(sequence := sequence.value), true) else loaded
  }

  function Step(conv: Conversions, columns: seq<Column>, m: Model, op: Op): Outcome<Model> {
    match op
    case Create(data) => Written(columns, m.(sequence := m.sequence + 1), m.sequence, map[], data)
    case Save(pk, data) => Written(columns, m, pk, Present(m.rows, pk), data)
    case Drop(pk) => Outcome(Deleted(columns, m, pk), true)
    case Clear => Outcome(ClearedModel(m), true)
    case Load(entries, sequence) => LoadedWith(conv, columns, m, entries, sequence)
  }

  /** A freshly registered model: unique columns have a unique index, other indexed ones
      a hash index. */
  function Registered(columns: seq<Column>): Model {
    Model(map[], 1, IndexesFor(columns))
  }

  function IndexesFor(columns: seq<Column>): Indexes {
    if columns == [] then map[]
    else
      var c := columns[|columns| - 1];
      var rest := IndexesFor(columns[..|columns| - 1]);
      if c.unique then rest[c.name := Unique(map[])]
      else if c.index then rest[c.name := Hash(map[])]
      else rest
  }

  /** Every index agrees with a scan of the table. */
  ghost predicate AllCoherent(m: Model) {
    forall name :: name in m.indexes ==> Coherent(m.indexes[name], m.rows, name)
  }

  /** Ids in use are below the sequence. */
  ghost predicate IdsBelow(m: Model) {
    forall pk :: pk in m.rows ==> pk < m.sequence
  }

  ghost predicate Inv(columns: seq<Column>, m: Model) {
    && Distinct(columns)
    && (forall name :: name in m.indexes ==> Named(columns, name))
    && AllCoherent(m)
    && IdsBelow(m)
  }

  /** Saving with an id demands that the id was issued. */
  predicate Issued(m: Model, op: Op) {
    op.Save? ==> op.pk < m.sequence
  }

  /** Writing `data` under `pk` breaks no unique constraint. */
  ghost predicate NoConflict(m: Model, pk: int, data: Row) {
    forall name :: name in m.indexes && m.indexes[name].Unique? && Get(data, name) != Null ==>
      Holders(m.rows, name, Get(data, name)) - {pk} == {}
  }

  /** The sequence a load ends with: the file's, or one past the largest id loaded. */
  function LoadSequence(entries: seq<(int, Row)>, sequence: Option<int>): int {
    if sequence.Some? then sequence.value else MaxPk(0, entries) + 1
  }

  ghost predicate AllBelow(rows: Table, next: int) {
    forall pk :: pk in rows ==> pk < next
  }

  /** When an operation keeps a model in order: writes break no unique constraint, and loads
      read back, break none either, replace no indexed value by another, and leave the
      sequence above every id in the table. */
  ghost predicate Allowed(conv: Conversions, columns: seq<Column>, m: Model, op: Op) {
    match op
    case Create(data) => NoConflict(m, m.sequence, data)
    case Save(pk, data) => NoConflict(m, pk, data)
    case Drop(pk) => true
    case Clear => true
    case Load(entries, sequence) =>
      && Converts(conv, columns, entries)
      && var read := Converted(conv, columns, entries);
         && KeepsValues(m.indexes.Keys, m.rows, read)
         && UniqueRespected(m.indexes, RowsOf(m.rows, read))
         && AllBelow(RowsOf(m.rows, read), LoadSequence(read, sequence))
  }

  lemma ChangeConflicts(m: Model, name: string, pk: int, data: Row)
    requires AllCoherent(m) && name in m.indexes
    ensures Change(m.indexes, name, pk, Present(m.rows, pk), data) == None
      <==> m.indexes[name].Unique? && Get(data, name) != Null && Holders(m.rows, name, Get(data, name)) - {pk} != {}
    ensures Change(m.indexes, name, pk, Present(m.rows, pk), data).Some? ==>
      Coherent(Change(m.indexes, name, pk, Present(m.rows, pk), data).value, m.rows[pk := data], name)
  {
    hide Coherent, Replaced, Holders;
    assert Coherent(m.indexes[name], m.rows, name);
    ConflictExactly(m.indexes[name], m.rows, name, pk, data);
    if Change(m.indexes, name, pk, Present(m.rows, pk), data).Some? {
      ReplaceCoherent(m.indexes[name], m.rows, name, pk, data);
    }
  }

  /** After a conflict the unique index names only the other row. */
  lemma ConflictIncoherent(index: Index, rows: Table, name: string, pk: int, data: Row)
    requires Coherent(index, rows, name)
    requires Replaced(index, pk, Get(Present(rows, pk), name), Get(data, name)) == None
    ensures !Coherent(Interrupted(index, pk, Get(Present(rows, pk), name)), rows[pk := data], name)
  {
    var before, after := Get(Present(rows, pk), name), Get(data, name);
    var left := Interrupted(index, pk, before);
    assert left.Unique? && after in left.pks && left.pks[after] != pk;
    assert pk in Holders(rows[pk := data], name, after);
    assert Lookup(left, after) == {left.pks[after]};
  }

  /** Writing succeeds exactly if no other row has a unique value of it, and leaves the
      indexes coherent exactly if it succeeded; the row is in the table in either case. */
  lemma WrittenExactly(columns: seq<Column>, m: Model, pk: int, data: Row)
    requires Distinct(columns) && AllCoherent(m) && forall name :: name in m.indexes ==> Named(columns, name)
    ensures var r := Written(columns, m, pk, Present(m.rows, pk), data);
      && r.state.rows == m.rows[pk := data] && r.state.sequence == m.sequence && r.state.indexes.Keys == m.indexes.Keys
      && (r.ok <==> NoConflict(m, pk, data))
      && (AllCoherent(r.state) <==> r.ok)
  {
    hide Coherent, Replaced, Distinct, Named, UpdatedIndexes, Get, Holders, Present, Interrupted;
    var before := Present(m.rows, pk);
    UpdatedEach(columns, m.indexes, pk, before, data);
    var r := Written(columns, m, pk, before, data);
    forall name | name in m.indexes
      ensures Change(m.indexes, name, pk, before, data) == None
        <==> m.indexes[name].Unique? && Get(data, name) != Null && Holders(m.rows, name, Get(data, name)) - {pk} != {}
      ensures Change(m.indexes, name, pk, before, data).Some? ==>
        Coherent(Change(m.indexes, name, pk, before, data).value, m.rows[pk := data], name)
    {
      ChangeConflicts(m, name, pk, data);
    }
    if !r.ok {
      var name :| name in m.indexes && Named(columns, name) && Change(m.indexes, name, pk, before, data) == None
        && r.state.indexes[name] == Interrupted(m.indexes[name], pk, Get(before, name));
      ConflictIncoherent(m.indexes[name], m.rows, name, pk, data);
      assert !Coherent(r.state.indexes[name], r.state.rows, name);
    }
  }

  /** `insert` under an id that is in the table leaves stale index entries: if it succeeds,
      the indexes stay coherent exactly if the old row had, in every indexed column, nothing
      or what the new row has. */
  lemma InsertedExactly(columns: seq<Column>, m: Model, pk: int, data: Row)
    requires Distinct(columns) && AllCoherent(m) && forall name :: name in m.indexes ==> Named(columns, name)
    requires Written(columns, m, pk, map[], data).ok
    ensures AllCoherent(Written(columns, m, pk, map[], data).state)
      <==> forall name :: name in m.indexes ==> KeepsValue(m.rows, pk, data, name)
  {
    hide Coherent, Replaced, Distinct, Named, UpdatedIndexes, Get, Present, Interrupted, KeepsValue;
    UpdatedEach(columns, m.indexes, pk, map[], data);
    var after := Written(columns, m, pk, map[], data).state;
    assert after.indexes.Keys == m.indexes.Keys;
    forall name | name in m.indexes
      ensures Coherent(after.indexes[name], after.rows, name) <==> KeepsValue(m.rows, pk, data, name)
    {
      InsertedColumn(m, name, pk, data);
    }
  }

  predicate KeepsValue(rows: Table, pk: int, data: Row, name: string) {
    pk in rows ==> Get(rows[pk], name) == Null || Get(rows[pk], name) == Get(data, name)
  }

  lemma InsertedColumn(m: Model, name: string, pk: int, data: Row)
    requires AllCoherent(m) && name in m.indexes && Change(m.indexes, name, pk, map[], data).Some?
    ensures Coherent(Change(m.indexes, name, pk, map[], data).value, m.rows[pk := data], name)
        <==> KeepsValue(m.rows, pk, data, name)
  {
    hide Coherent, Replaced;
    assert Coherent(m.indexes[name], m.rows, name);
    InsertCoherent(m.indexes[name], m.rows, name, pk, data);
  }

  lemma DeletedCoherent(columns: seq<Column>, m: Model, pk: int)
    requires Distinct(columns) && AllCoherent(m) && forall name :: name in m.indexes ==> Named(columns, name)
    ensures Deleted(columns, m, pk).indexes.Keys == m.indexes.Keys && AllCoherent(Deleted(columns, m, pk))
  {
    hide Coherent, Distinct, Named, RemovedIndexes, Get;
    if pk in m.rows {
      RemovedEach(columns, m.indexes, pk, m.rows[pk]);
      forall name | name in m.indexes
        ensures Coherent(Interrupted(m.indexes[name], pk, Get(m.rows[pk], name)), m.rows - {pk}, name)
      {
        RemoveCoherent(m.indexes[name], m.rows, name, pk);
      }
    }
  }

  lemma EmptyCoherent(index: Index, name: string)
    requires index == Cleared(index)
    ensures Coherent(index, map[], name)
  {
  }

  lemma ClearedCoherent(m: Model)
    ensures AllCoherent(ClearedModel(m))
  {
    hide Coherent;
    forall name | name in m.indexes ensures Coherent(Cleared(m.indexes[name]), map[], name) {
      EmptyCoherent(Cleared(m.indexes[name]), name);
    }
  }

  lemma FreshId(m: Model)
    requires IdsBelow(m)
    ensures Present(m.rows, m.sequence) == map[] && m.sequence !in m.rows
  {
  }

  // ---- Loading --------------------------------------------------------------

  /** Reading a row back leaves it as it is. */
  ghost predicate Stable(conv: Conversions, columns: seq<Column>, row: Row) {
    forall i :: 0 <= i < |columns| && columns[i].name in row ==>
      FromStorage(conv, columns[i], row[columns[i].name]) == Ok(row[columns[i].name])
  }

  /** No two rows share a value of a column with a unique index. */
  ghost predicate UniqueRespected(indexes: Indexes, rows: Table) {
    forall name, p, q ::
      (name in indexes && indexes[name].Unique?
       && p in rows && q in rows && Get(rows[p], name) == Get(rows[q], name) != Null)
      ==> p == q
  }

  ghost predicate SameKinds(a: Indexes, b: Indexes) {
    a.Keys == b.Keys && forall name :: name in a ==> (a[name].Unique? <==> b[name].Unique?)
  }

  /** Every row can be read back. */
  predicate Converts(conv: Conversions, columns: seq<Column>, entries: seq<(int, Row)>) {
    entries == [] || (LoadedRow(conv, columns, entries[0].1).Ok? && Converts(conv, columns, entries[1..]))
  }

  /** The rows as read back. */
  function Converted(conv: Conversions, columns: seq<Column>, entries: seq<(int, Row)>): (read: seq<(int, Row)>)
    requires Converts(conv, columns, entries)
    ensures |read| == |entries| && forall i :: 0 <= i < |read| ==> read[i].0 == entries[i].0
  {
    if entries == [] then []
    else [(entries[0].0, LoadedRow(conv, columns, entries[0].1).value)] + Converted(conv, columns, entries[1..])
  }

  /** What a row has in these columns, the table has under its id. */
  predicate Agrees(names: set<string>, rows: Table, pk: int, data: Row) {
    forall name :: name in names && Get(data, name) != Null ==> pk in Holders(rows, name, Get(data, name))
  }

  /** No value in these columns, of a row there before or of any loaded one, is replaced by
      another; an id listed twice counts like a row there before. */
  ghost predicate KeepsValues(names: set<string>, base: Table, entries: seq<(int, Row)>) {
    && (forall pk :: pk in base ==> Agrees(names, RowsOf(base, entries), pk, base[pk]))
    && AllAgree(names, RowsOf(base, entries), entries)
  }

  ghost predicate AllAgree(names: set<string>, rows: Table, entries: seq<(int, Row)>) {
    forall i :: 0 <= i < |entries| ==> Agrees(names, rows, entries[i].0, entries[i].1)
  }

  lemma RestAgrees(names: set<string>, rows: Table, entries: seq<(int, Row)>)
    requires AllAgree(names, rows, entries) && entries != []
    ensures Agrees(names, rows, entries[0].0, entries[0].1) && AllAgree(names, rows, entries[1..])
  {
    forall i | 0 <= i < |entries[1..]| ensures Agrees(names, rows, entries[1..][i].0, entries[1..][i].1) {
      assert Agrees(names, rows, entries[i + 1].0, entries[i + 1].1);
    }
  }

  lemma {:induction false} StableRow(conv: Conversions, columns: seq<Column>, row: Row)
    requires Stable(conv, columns, row)
    ensures LoadedRow(conv, columns, row) == Ok(row)
  {
    hide FromStorage;
    if columns != [] {
      assert forall i :: 0 <= i < |columns[1..]| ==> columns[1..][i] == columns[i + 1];
      StableRow(conv, columns[1..], row);
      if columns[0].name in row {
        assert row[columns[0].name := row[columns[0].name]] == row;
      }
    }
  }

  lemma {:induction false} StableConverts(conv: Conversions, columns: seq<Column>, entries: seq<(int, Row)>)
    requires forall i :: 0 <= i < |entries| ==> Stable(conv, columns, entries[i].1)
    ensures Converts(conv, columns, entries) && Converted(conv, columns, entries) == entries
  {
    hide Stable, LoadedRow;
    if entries != [] {
      StableRow(conv, columns, entries[0].1);
      assert forall i :: 0 <= i < |entries[1..]| ==> entries[1..][i] == entries[i + 1];
      StableConverts(conv, columns, entries[1..]);
    }
  }

  lemma CoherentUniques(m: Model)
    requires AllCoherent(m)
    ensures UniqueRespected(m.indexes, m.rows)
  {
    forall name, p, q | name in m.indexes && m.indexes[name].Unique? && p in m.rows && q in m.rows
      && Get(m.rows[p], name) == Get(m.rows[q], name) != Null
      ensures p == q
    {
      var value := Get(m.rows[p], name);
      assert Coherent(m.indexes[name], m.rows, name);
      assert Lookup(m.indexes[name], value) == Holders(m.rows, name, value);
      assert p in Holders(m.rows, name, value) && q in Holders(m.rows, name, value);
    }
  }

  lemma KindsOfWritten(columns: seq<Column>, m: Model, pk: int, row: Row)
    ensures SameKinds(m.indexes, Written(columns, m, pk, map[], row).state.indexes)
  {
    hide Get, Distinct, Named, UpdatedIndexes;
    KindsOfUpdated(columns, m.indexes, pk, map[], row);
  }

  lemma {:induction false} KindsOfUpdated(columns: seq<Column>, indexes: Indexes, pk: int, before: Row, after: Row)
    ensures SameKinds(indexes, UpdatedIndexes(columns, indexes, pk, before, after).state)
  {
    hide Get;
    if columns != [] && columns[0].name in indexes {
      var name := columns[0].name;
      var change := Replaced(indexes[name], pk, Get(before, name), Get(after, name));
      if change.Some? {
        KindsOfUpdated(columns[1..], indexes[name := change.value], pk, before, after);
      }
    } else if columns != [] {
      KindsOfUpdated(columns[1..], indexes, pk, before, after);
    }
  }

  /** What an insert adds to the indexes leaves their old entries. */
  lemma {:induction false} InsertOnlyAdds(columns: seq<Column>, indexes: Indexes, pk: int, after: Row, name: string,
        value: Value)
    requires name in indexes
    ensures name in UpdatedIndexes(columns, indexes, pk, map[], after).state
    ensures var updated := UpdatedIndexes(columns, indexes, pk, map[], after).state;
      Lookup(indexes[name], value) <= Lookup(updated[name], value)
  {
    if columns != [] {
      var first := columns[0].name;
      if first !in indexes {
        InsertOnlyAdds(columns[1..], indexes, pk, after, name, value);
      } else {
        AddedKeeps(indexes[first], pk, Get(after, first), value);
        var change := Replaced(indexes[first], pk, Null, Get(after, first));
        if change.Some? {
          InsertOnlyAdds(columns[1..], indexes[first := change.value], pk, after, name, value);
        }
      }
    }
  }

  lemma AddedKeeps(index: Index, pk: int, after: Value, value: Value)
    ensures Interrupted(index, pk, Null) == index && Get(map[], "") == Null
    ensures Replaced(index, pk, Null, after).Some? ==>
      Lookup(index, value) <= Lookup(Replaced(index, pk, Null, after).value, value)
  {
    if after != Null && !Conflicts(index, after, pk) {
      LookupAfterAdd(index, after, pk, value);
    }
  }

  /** An index under way: it has every value of the rows so far, and none that the table the
      load ends with has not. */
  ghost predicate Gathers(index: Index, rows: Table, name: string, end: Table) {
    && Tidy(index)
    && (forall pk :: pk in rows && Get(rows[pk], name) != Null ==> pk in Lookup(index, Get(rows[pk], name)))
    && forall value :: value != Null ==> Lookup(index, value) <= Holders(end, name, value)
  }

  /** No entry for None, and none without ids. */
  ghost predicate Tidy(index: Index) {
    !Has(index, Null) && forall value :: value != Null ==> (Has(index, value) <==> Lookup(index, value) != {})
  }

  ghost predicate AllGather(m: Model, end: Table) {
    forall name :: name in m.indexes ==> Gathers(m.indexes[name], m.rows, name, end)
  }

  lemma CoherentGathers(m: Model, end: Table)
    requires AllCoherent(m) && forall pk :: pk in m.rows ==> Agrees(m.indexes.Keys, end, pk, m.rows[pk])
    ensures AllGather(m, end)
  {
    forall name | name in m.indexes ensures Gathers(m.indexes[name], m.rows, name, end) {
      hide Lookup, Has;
      assert Coherent(m.indexes[name], m.rows, name);
      assert name in m.indexes.Keys;
      forall value | value != Null ensures Holders(m.rows, name, value) <= Holders(end, name, value) {
        forall pk | pk in Holders(m.rows, name, value) ensures pk in Holders(end, name, value) {
          assert Agrees(m.indexes.Keys, end, pk, m.rows[pk]);
        }
      }
    }
  }

  /** With nothing left to load, such an index agrees with the table. */
  lemma GatheredCoherent(m: Model)
    requires AllGather(m, m.rows)
    ensures AllCoherent(m)
  {
    hide Lookup, Has, Get;
    forall name | name in m.indexes ensures Coherent(m.indexes[name], m.rows, name) {
      assert Gathers(m.indexes[name], m.rows, name, m.rows);
      forall value | value != Null ensures Holders(m.rows, name, value) <= Lookup(m.indexes[name], value) {
        forall pk | pk in Holders(m.rows, name, value) ensures pk in Lookup(m.indexes[name], value) {
          HolderOf(m.rows, name, value, pk);
        }
      }
    }
  }

  /** One column of an insert that agrees with the end: no conflict, and the index goes on. */
  lemma GatherColumn(m: Model, end: Table, name: string, pk: int, row: Row)
    requires name in m.indexes && Gathers(m.indexes[name], m.rows, name, end)
    requires UniqueRespected(m.indexes, end) && Agrees(m.indexes.Keys, end, pk, row)
    ensures var change := Change(m.indexes, name, pk, map[], row);
      change.Some? && Gathers(change.value, m.rows[pk := row], name, end)
  {
    var index, after := m.indexes[name], Get(row, name);
    NothingBefore(name);
    assert name in m.indexes.Keys;
    if after != Null {
      NoForeignKey(m, end, name, pk, after);
      forall value ensures Lookup(Added(index, after, pk), value)
                        == Lookup(index, value) + (if value == after then {pk} else {})
        ensures Has(Added(index, after, pk), value) <==> Has(index, value) || value == after
      {
        LookupAfterAdd(index, after, pk, value);
      }
    }
    hide Lookup, Has, Added, Conflicts, Get;
  }

  lemma NothingBefore(name: string)
    ensures Get(map[], name) == Null
  {
  }

  lemma NoForeignKey(m: Model, end: Table, name: string, pk: int, value: Value)
    requires name in m.indexes && value != Null && pk in Holders(end, name, value)
    requires Lookup(m.indexes[name], value) <= Holders(end, name, value) && UniqueRespected(m.indexes, end)
    ensures !Conflicts(m.indexes[name], value, pk)
  {
    if m.indexes[name].Unique? && value in m.indexes[name].pks {
      var other := m.indexes[name].pks[value];
      assert other in Lookup(m.indexes[name], value);
      assert Get(end[other], name) == Get(end[pk], name) != Null;
    }
  }

  lemma GatherStep(columns: seq<Column>, m: Model, end: Table, pk: int, row: Row)
    requires Distinct(columns) && (forall name :: name in m.indexes ==> Named(columns, name))
    requires AllGather(m, end) && UniqueRespected(m.indexes, end) && Agrees(m.indexes.Keys, end, pk, row)
    ensures var written := Written(columns, m, pk, map[], row);
      written.ok && written.state.indexes.Keys == m.indexes.Keys && AllGather(written.state, end)
  {
    hide Gathers, UniqueRespected, Agrees, Distinct, Named, UpdatedIndexes, Replaced, Get;
    UpdatedEach(columns, m.indexes, pk, map[], row);
    forall name | name in m.indexes
      ensures var change := Change(m.indexes, name, pk, map[], row);
        change.Some? && Gathers(change.value, m.rows[pk := row], name, end)
    {
      GatherColumn(m, end, name, pk, row);
    }
  }

  /** Rows that agree with the table they end in load without conflict, and gather. */
  lemma {:induction false} GatherAll(conv: Conversions, columns: seq<Column>, m: Model, maxPk: int,
        entries: seq<(int, Row)>, end: Table)
    requires Distinct(columns) && (forall name :: name in m.indexes ==> Named(columns, name))
    requires AllGather(m, end) && UniqueRespected(m.indexes, end) && Converts(conv, columns, entries)
    requires AllAgree(m.indexes.Keys, end, Converted(conv, columns, entries))
    ensures var r := Loaded(conv, columns, m, maxPk, entries); r.ok && AllGather(r.state, end)
    decreases |entries|
  {
    hide AllGather, UniqueRespected, Agrees, AllAgree, Distinct, Named, Written, LoadedRow;
    if entries == [] {
      SequenceGathers(m, maxPk + 1, end);
    } else {
      var read := Converted(conv, columns, entries);
      var pk, row, rest := entries[0].0, LoadedRow(conv, columns, entries[0].1).value, entries[1..];
      assert read[0] == (pk, row) && read[1..] == Converted(conv, columns, rest);
      RestAgrees(m.indexes.Keys, end, read);
      GatherStep(columns, m, end, pk, row);
      KindsOfWritten(columns, m, pk, row);
      var written := Written(columns, m, pk, map[], row);
      UniquesBothWays(m.indexes, written.state.indexes, end);
      GatherAll(conv, columns, written.state, if pk > maxPk then pk else maxPk, rest, end);
    }
  }

  lemma SequenceGathers(m: Model, sequence: int, end: Table)
    requires AllGather(m, end)
    ensures AllGather(m.(sequence := sequence), end)
  {
  }

  /** Whatever is loaded, the indexes only grow, and keep every value of every row loaded. */
  lemma {:induction false} LoadGrows(conv: Conversions, columns: seq<Column>, m: Model, maxPk: int,
        entries: seq<(int, Row)>, name: string, value: Value)
    requires Distinct(columns) && name in m.indexes && Named(columns, name) && value != Null
    ensures var r := Loaded(conv, columns, m, maxPk, entries);
      && name in r.state.indexes && Lookup(m.indexes[name], value) <= Lookup(r.state.indexes[name], value)
      && (r.ok && Converts(conv, columns, entries) ==>
            var read := Converted(conv, columns, entries);
            forall i :: 0 <= i < |read| && Get(read[i].1, name) == value ==>
              read[i].0 in Lookup(r.state.indexes[name], value))
    decreases |entries|
  {
    hide UpdatedIndexes, LoadedRow, Lookup, Get, Distinct, Named;
    if entries != [] {
      var row := LoadedRow(conv, columns, entries[0].1);
      if row.Ok? {
        var pk := entries[0].0;
        InsertOnlyAdds(columns, m.indexes, pk, row.value, name, value);
        InsertAdds(columns, m, pk, row.value, name);
        var written := Written(columns, m, pk, map[], row.value);
        if written.ok {
          LoadGrows(conv, columns, written.state, if pk > maxPk then pk else maxPk, entries[1..], name, value);
          if Converts(conv, columns, entries) {
            var read := Converted(conv, columns, entries);
            assert read[0] == (pk, row.value) && read[1..] == Converted(conv, columns, entries[1..]);
          }
        }
      }
    }
  }

  lemma InsertAdds(columns: seq<Column>, m: Model, pk: int, row: Row, name: string)
    requires Distinct(columns) && name in m.indexes && Named(columns, name)
    ensures var written := Written(columns, m, pk, map[], row);
      written.ok && Get(row, name) != Null ==>
        name in written.state.indexes && pk in Lookup(written.state.indexes[name], Get(row, name))
  {
    hide UpdatedIndexes, Lookup, Distinct, Named, Conflicts, Added, Get;
    UpdatedEach(columns, m.indexes, pk, map[], row);
    NothingBefore(name);
    if Get(row, name) != Null && !Conflicts(m.indexes[name], Get(row, name), pk) {
      LookupAfterAdd(m.indexes[name], Get(row, name), pk, Get(row, name));
    }
  }

  /** What a load leaves, if it does not raise: the rows on top of those there, and the
      sequence past the largest id loaded. */
  lemma {:induction false} LoadedShape(conv: Conversions, columns: seq<Column>, m: Model, maxPk: int,
        entries: seq<(int, Row)>)
    ensures var r := Loaded(conv, columns, m, maxPk, entries);
      && SameKinds(m.indexes, r.state.indexes)
      && (r.ok ==> Converts(conv, columns, entries))
      && (r.ok ==> r.state.rows == RowsOf(m.rows, Converted(conv, columns, entries)))
      && (r.ok ==> r.state.sequence == MaxPk(maxPk, entries) + 1)
      && (!r.ok ==> r.state.sequence == m.sequence)
    decreases |entries|
  {
    hide LoadedRow, UpdatedIndexes;
    if entries != [] {
      var row := LoadedRow(conv, columns, entries[0].1);
      if row.Ok? {
        KindsOfWritten(columns, m, entries[0].0, row.value);
        var written := Written(columns, m, entries[0].0, map[], row.value);
        if written.ok {
          LoadedShape(conv, columns, written.state, if entries[0].0 > maxPk then entries[0].0 else maxPk, entries[1..]);
          if Converts(conv, columns, entries) {
            var read := Converted(conv, columns, entries);
            assert read[0] == (entries[0].0, row.value) && read[1..] == Converted(conv, columns, entries[1..]);
          }
        }
      }
    }
  }

  /** A load that ends coherent has replaced no indexed value. */
  lemma CoherentKeeps(conv: Conversions, columns: seq<Column>, m: Model, maxPk: int, entries: seq<(int, Row)>)
    requires Distinct(columns) && AllCoherent(m) && (forall name :: name in m.indexes ==> Named(columns, name))
    requires Converts(conv, columns, entries)
    requires var r := Loaded(conv, columns, m, maxPk, entries); r.ok && AllCoherent(r.state)
    ensures KeepsValues(m.indexes.Keys, m.rows, Converted(conv, columns, entries))
  {
    var read, r := Converted(conv, columns, entries), Loaded(conv, columns, m, maxPk, entries);
    LoadedShape(conv, columns, m, maxPk, entries);
    hide Distinct, Named, Converts, Converted, Loaded, RowsOf, Lookup, Has, Get;
    forall pk | pk in m.rows ensures Agrees(m.indexes.Keys, r.state.rows, pk, m.rows[pk]) {
      forall name | name in m.indexes.Keys && Get(m.rows[pk], name) != Null
        ensures pk in Holders(r.state.rows, name, Get(m.rows[pk], name))
      {
        LoadGrows(conv, columns, m, maxPk, entries, name, Get(m.rows[pk], name));
        HeldAtEnd(m, name, pk, Get(m.rows[pk], name));
        FoundAtEnd(r.state, name, pk, Get(m.rows[pk], name));
      }
    }
    forall i | 0 <= i < |read| ensures Agrees(m.indexes.Keys, r.state.rows, read[i].0, read[i].1) {
      forall name | name in m.indexes.Keys && Get(read[i].1, name) != Null
        ensures read[i].0 in Holders(r.state.rows, name, Get(read[i].1, name))
      {
        LoadGrows(conv, columns, m, maxPk, entries, name, Get(read[i].1, name));
        FoundAtEnd(r.state, name, read[i].0, Get(read[i].1, name));
      }
    }
  }

  lemma HeldAtEnd(m: Model, name: string, pk: int, value: Value)
    requires AllCoherent(m) && name in m.indexes && value != Null && pk in m.rows && Get(m.rows[pk], name) == value
    ensures pk in Lookup(m.indexes[name], value)
  {
    assert Coherent(m.indexes[name], m.rows, name);
    assert pk in Holders(m.rows, name, value);
  }

  lemma FoundAtEnd(m: Model, name: string, pk: int, value: Value)
    requires AllCoherent(m) && name in m.indexes && value != Null && pk in Lookup(m.indexes[name], value)
    ensures pk in Holders(m.rows, name, value)
  {
    assert Coherent(m.indexes[name], m.rows, name);
  }

  /** Loading rows into a coherent table, with any ids, succeeds and leaves it coherent exactly
      if they can be read back, replace no indexed value by another, and leave no two rows
      sharing a unique one. */
  lemma LoadedExactly(conv: Conversions, columns: seq<Column>, m: Model, maxPk: int, entries: seq<(int, Row)>)
    requires Distinct(columns) && AllCoherent(m) && (forall name :: name in m.indexes ==> Named(columns, name))
    ensures var r := Loaded(conv, columns, m, maxPk, entries);
      (r.ok && AllCoherent(r.state)) <==>
        && Converts(conv, columns, entries)
        && var read := Converted(conv, columns, entries);
           KeepsValues(m.indexes.Keys, m.rows, read) && UniqueRespected(m.indexes, RowsOf(m.rows, read))
  {
    var r := Loaded(conv, columns, m, maxPk, entries);
    LoadedShape(conv, columns, m, maxPk, entries);
    hide AllCoherent, Distinct, Named, Converts, Converted, Loaded, RowsOf, UniqueRespected, Agrees, AllAgree;
    hide AllGather;
    if Converts(conv, columns, entries) {
      var read := Converted(conv, columns, entries);
      var end := RowsOf(m.rows, read);
      if r.ok && AllCoherent(r.state) {
        CoherentKeeps(conv, columns, m, maxPk, entries);
        CoherentUniques(r.state);
        UniquesBothWays(m.indexes, r.state.indexes, end);
      }
      if KeepsValues(m.indexes.Keys, m.rows, read) && UniqueRespected(m.indexes, end) {
        CoherentGathers(m, end);
        GatherAll(conv, columns, m, maxPk, entries, end);
        GatheredCoherent(r.state);
      }
    }
  }

  lemma UniquesBothWays(a: Indexes, b: Indexes, rows: Table)
    requires SameKinds(a, b)
    ensures UniqueRespected(a, rows) <==> UniqueRespected(b, rows)
  {
  }

  // ---- One step -------------------------------------------------------------

  lemma {:induction false} MaxPkIsLargest(maxPk: int, entries: seq<(int, Row)>)
    ensures maxPk <= MaxPk(maxPk, entries)
    ensures forall i :: 0 <= i < |entries| ==> entries[i].0 <= MaxPk(maxPk, entries)
    decreases |entries|
  {
    if entries != [] {
      MaxPkIsLargest(if entries[0].0 > maxPk then entries[0].0 else maxPk, entries[1..]);
      forall i | 0 <= i < |entries| ensures entries[i].0 <= MaxPk(maxPk, entries) {
        assert i > 0 ==> entries[i] == entries[1..][i - 1];
      }
    }
  }

  lemma {:induction false} SameMaxPk(maxPk: int, a: seq<(int, Row)>, b: seq<(int, Row)>)
    requires |a| == |b| && forall i :: 0 <= i < |a| ==> a[i].0 == b[i].0
    ensures MaxPk(maxPk, a) == MaxPk(maxPk, b)
    decreases |a|
  {
    if a != [] {
      SameMaxPk(if a[0].0 > maxPk then a[0].0 else maxPk, a[1..], b[1..]);
    }
  }

  lemma {:induction false} RowsOfIds(base: Table, entries: seq<(int, Row)>, next: int)
    ensures AllBelow(RowsOf(base, entries), next) <==>
      AllBelow(base, next) && forall i :: 0 <= i < |entries| ==> entries[i].0 < next
    decreases |entries|
  {
    if entries != [] {
      var after := base[entries[0].0 := entries[0].1];
      RowsOfIds(after, entries[1..], next);
      assert AllBelow(after, next) <==> AllBelow(base, next) && entries[0].0 < next by {
        assert entries[0].0 in after;
        assert forall pk :: pk in base ==> pk in after;
      }
      assert forall i :: 0 < i < |entries| ==> entries[i] == entries[1..][i - 1];
      assert forall i :: 0 <= i < |entries[1..]| ==> entries[1..][i] == entries[i + 1];
    }
  }

  /** A load into a model in order succeeds and keeps it in order exactly if it is allowed. */
  lemma LoadStep(conv: Conversions, columns: seq<Column>, m: Model, entries: seq<(int, Row)>, sequence: Option<int>)
    requires Inv(columns, m)
    ensures var r := LoadedWith(conv, columns, m, entries, sequence);
      r.ok && Inv(columns, r.state) <==> Allowed(conv, columns, m, Load(entries, sequence))
    ensures var r := LoadedWith(conv, columns, m, entries, sequence);
      r.ok ==>
        Converts(conv, columns, entries)
        && r.state.rows == RowsOf(m.rows, Converted(conv, columns, entries))
        && r.state.sequence == LoadSequence(Converted(conv, columns, entries), sequence)
  {
    LoadedShape(conv, columns, m, 0, entries);
    hide Loaded, Distinct, Named, AllCoherent, KeepsValues, UniqueRespected, Converts, RowsOf;
    var loaded := Loaded(conv, columns, m, 0, entries);
    if Converts(conv, columns, entries) {
      LoadedExactly(conv, columns, m, 0, entries);
      SameMaxPk(0, entries, Converted(conv, columns, entries));
      if sequence.Some? {
        CoherentWithSequence(loaded.state, sequence.value);
      }
    }
  }

  lemma CoherentWithSequence(m: Model, sequence: int)
    ensures AllCoherent(m.(sequence := sequence)) <==> AllCoherent(m)
  {
  }

  /** Loading rows that forget and repeat nothing into a model in order: with the sequence
      that `load_table_data` sets, the model stays in order exactly if no id in the table
      is above the largest one loaded; with a file's, exactly if that is above them all. */
  lemma LoadKeepsOrder(conv: Conversions, columns: seq<Column>, m: Model, entries: seq<(int, Row)>,
        sequence: Option<int>)
    requires Inv(columns, m) && Converts(conv, columns, entries)
    requires KeepsValues(m.indexes.Keys, m.rows, Converted(conv, columns, entries))
    requires UniqueRespected(m.indexes, RowsOf(m.rows, Converted(conv, columns, entries)))
    ensures var after := LoadedWith(conv, columns, m, entries, sequence).state;
      && (sequence.None? ==> (Inv(columns, after) <==> forall pk :: pk in m.rows ==> pk <= MaxPk(0, entries)))
      && (sequence.Some? ==> (Inv(columns, after) <==>
            forall pk :: pk in RowsOf(m.rows, Converted(conv, columns, entries)) ==> pk < sequence.value))
  {
    var read := Converted(conv, columns, entries);
    LoadStep(conv, columns, m, entries, sequence);
    SameMaxPk(0, entries, read);
    MaxPkIsLargest(0, read);
    RowsOfIds(m.rows, read, MaxPk(0, read) + 1);
    LoadSucceeds(conv, columns, m, entries, sequence);
    hide Inv, LoadedWith, KeepsValues, UniqueRespected, RowsOf, Converts, MaxPk;
  }

  /** A file without a sequence sets it to 1: if that is an id in the table, the next new
      instance replaces its row. */
  lemma MissingSequenceReplaces(conv: Conversions, columns: seq<Column>, m: Model, data: Row)
    requires 1 in m.rows
    ensures var loaded := Step(conv, columns, m, Load([], Some(1))).state;
      Step(conv, columns, loaded, Create(data)).state.rows == m.rows[1 := data]
  {
    hide UpdatedIndexes;
  }

  lemma LoadSucceeds(conv: Conversions, columns: seq<Column>, m: Model, entries: seq<(int, Row)>, sequence: Option<int>)
    requires Inv(columns, m) && Converts(conv, columns, entries)
    requires KeepsValues(m.indexes.Keys, m.rows, Converted(conv, columns, entries))
    requires UniqueRespected(m.indexes, RowsOf(m.rows, Converted(conv, columns, entries)))
    ensures LoadedWith(conv, columns, m, entries, sequence).ok
  {
    hide Loaded, Distinct, Named, AllCoherent, KeepsValues, UniqueRespected, Converts, RowsOf;
    LoadedExactly(conv, columns, m, 0, entries);
  }

  /** One operation on a model in order: it succeeds and leaves the model in order exactly
      if it is allowed. Other than a load, it raises exactly if it is not, and then the
      model is not in order. */
  lemma StepExactly(conv: Conversions, columns: seq<Column>, m: Model, op: Op)
    requires Inv(columns, m) && Issued(m, op)
    ensures var r := Step(conv, columns, m, op);
      && (r.ok && Inv(columns, r.state) <==> Allowed(conv, columns, m, op))
      && (!op.Load? ==> (r.ok <==> Inv(columns, r.state)) && IdsBelow(r.state))
  {
    hide Coherent, Distinct, Named, Written, Deleted, Present, Get, Holders, Loaded, LoadedWith, Converts, RowsOf;
    hide AllCoherent, KeepsValues, UniqueRespected;
    match op
    case Create(data) =>
      FreshId(m);
      var next := m.(sequence := m.sequence + 1);
      SameCoherent(m, next);
      WrittenExactly(columns, next, m.sequence, data);
    case Save(pk, data) =>
      WrittenExactly(columns, m, pk, data);
    case Drop(pk) =>
      DeletedCoherent(columns, m, pk);
      DeletedIds(columns, m, pk);
    case Clear =>
      ClearedCoherent(m);
    case Load(entries, sequence) =>
      LoadStep(conv, columns, m, entries, sequence);
  }

  lemma SameCoherent(m: Model, n: Model)
    requires AllCoherent(m) && n.rows == m.rows && n.indexes == m.indexes
    ensures AllCoherent(n)
  {
  }

  lemma DeletedIds(columns: seq<Column>, m: Model, pk: int)
    requires IdsBelow(m)
    ensures IdsBelow(Deleted(columns, m, pk))
  {
  }

  /** A registered model is in order, with an index of the right kind for exactly the
      columns that ask for one. */
  lemma {:induction false} RegisteredInOrder(columns: seq<Column>)
    requires Distinct(columns)
    ensures Inv(columns, Registered(columns))
    ensures forall i {:trigger columns[i]} :: 0 <= i < |columns| ==>
              (columns[i].name in IndexesFor(columns) <==> columns[i].unique || columns[i].index)
              && (columns[i].unique ==> IndexesFor(columns)[columns[i].name].Unique?)
              && (columns[i].index && !columns[i].unique ==> IndexesFor(columns)[columns[i].name].Hash?)
  {
    IndexesEmpty(columns);
    hide Coherent;
    var m := Registered(columns);
    forall name | name in m.indexes ensures Coherent(m.indexes[name], m.rows, name) {
      EmptyCoherent(m.indexes[name], name);
    }
    forall i | 0 <= i < |columns|
      ensures columns[i].name in IndexesFor(columns) <==> columns[i].unique || columns[i].index
      ensures columns[i].unique ==> IndexesFor(columns)[columns[i].name].Unique?
      ensures columns[i].index && !columns[i].unique ==> IndexesFor(columns)[columns[i].name].Hash?
    {
      IndexOf(columns, i);
    }
  }

  lemma {:induction false} IndexesEmpty(columns: seq<Column>)
    ensures forall name :: name in IndexesFor(columns) ==>
              Named(columns, name) && IndexesFor(columns)[name] == Cleared(IndexesFor(columns)[name])
  {
    if columns != [] {
      var front, c := columns[..|columns| - 1], columns[|columns| - 1];
      IndexesEmpty(front);
      forall name | name in IndexesFor(columns) ensures Named(columns, name) {
        if name == c.name {
          assert columns[|columns| - 1].name == name;
        } else {
          assert name in IndexesFor(front) && Named(front, name);
          var i :| 0 <= i < |front| && front[i].name == name;
          assert columns[i].name == name;
        }
      }
    }
  }

  lemma {:induction false} IndexOf(columns: seq<Column>, i: nat)
    requires Distinct(columns) && i < |columns|
    ensures columns[i].name in IndexesFor(columns) <==> columns[i].unique || columns[i].index
    ensures columns[i].unique ==> IndexesFor(columns)[columns[i].name].Unique?
    ensures columns[i].index && !columns[i].unique ==> IndexesFor(columns)[columns[i].name].Hash?
  {
    var front := columns[..|columns| - 1];
    if i < |front| {
      assert front[i] == columns[i];
      IndexOf(front, i);
    } else {
      IndexesEmpty(front);
      LastNotNamed(columns);
      assert columns[i].name in IndexesFor(front) ==> Named(front, columns[i].name);
    }
  }

  lemma LastNotNamed(columns: seq<Column>)
    requires Distinct(columns) && columns != []
    ensures !Named(columns[..|columns| - 1], columns[|columns| - 1].name)
  {
    assert forall j :: 0 <= j < |columns| - 1 ==> columns[..|columns| - 1][j].name == columns[j].name;
  }

  // ---- Runs -----------------------------------------------------------------

  /** The model after a run; operations that raise leave what they leave. */
  function Run(conv: Conversions, columns: seq<Column>, m: Model, ops: seq<Op>): Model
    decreases |ops|
  {
    if ops == [] then m else Run(conv, columns, Step(conv, columns, m, ops[0]).state, ops[1..])
  }

  /** Saves name only ids issued before, and no operation conflicts. */
  ghost predicate Orderly(conv: Conversions, columns: seq<Column>, m: Model, ops: seq<Op>)
    decreases |ops|
  {
    ops == [] || (
      && Issued(m, ops[0]) && Allowed(conv, columns, m, ops[0])
      && Orderly(conv, columns, Step(conv, columns, m, ops[0]).state, ops[1..]))
  }

  /** What the same run does to a plain table with an id counter. */
  function PlainStep(conv: Conversions, columns: seq<Column>, rows: Table, next: int, op: Op): (Table, int) {
    match op
    case Create(data) => (rows[next := data], next + 1)
    case Save(pk, data) => (rows[pk := data], next)
    case Drop(pk) => (rows - {pk}, next)
    case Clear => (map[], 1)
    case Load(entries, sequence) =>
      if !Converts(conv, columns, entries) then (rows, next)
      else
        var read := Converted(conv, columns, entries);
        (RowsOf(rows, read), LoadSequence(read, sequence))
  }

  function PlainRun(conv: Conversions, columns: seq<Column>, rows: Table, next: int, ops: seq<Op>): (Table, int)
    decreases |ops|
  {
    if ops == [] then (rows, next)
    else var (r, n) := PlainStep(conv, columns, rows, next, ops[0]); PlainRun(conv, columns, r, n, ops[1..])
  }

  lemma StepIsPlain(conv: Conversions, columns: seq<Column>, m: Model, op: Op)
    requires Inv(columns, m) && Issued(m, op) && (op.Load? ==> Step(conv, columns, m, op).ok)
    ensures var r := Step(conv, columns, m, op).state;
      PlainStep(conv, columns, m.rows, m.sequence, op) == (r.rows, r.sequence)
  {
    hide UpdatedIndexes, RemovedIndexes, Inv, LoadedWith, Converts;
    match op
    case Drop(pk) =>
      if pk !in m.rows {
        assert m.rows - {pk} == m.rows;
      }
    case Load(entries, sequence) =>
      LoadStep(conv, columns, m, entries, sequence);
    case _ =>
  }

  /** In every run of allowed operations the indexes stay coherent with the table, ids stay
      below the sequence, and the table is what a plain one would be. */
  lemma {:induction false} RunKeepsOrder(conv: Conversions, columns: seq<Column>, m: Model, ops: seq<Op>)
    requires Inv(columns, m) && Orderly(conv, columns, m, ops)
    ensures Inv(columns, Run(conv, columns, m, ops))
    ensures var r := Run(conv, columns, m, ops);
      PlainRun(conv, columns, m.rows, m.sequence, ops) == (r.rows, r.sequence)
    decreases |ops|
  {
    hide Inv, Step, PlainStep, Allowed, Issued;
    if ops != [] {
      StepExactly(conv, columns, m, ops[0]);
      StepIsPlain(conv, columns, m, ops[0]);
      RunKeepsOrder(conv, columns, Step(conv, columns, m, ops[0]).state, ops[1..]);
    }
  }

  /** The ids issued in a run, conflicts included. */
  function Ids(conv: Conversions, columns: seq<Column>, m: Model, ops: seq<Op>): (ids: seq<int>)
    decreases |ops|
  {
    if ops == [] then []
    else
      (if ops[0].Create? then [m.sequence] else [])
        + Ids(conv, columns, Step(conv, columns, m, ops[0]).state, ops[1..])
  }

  /** A save names an issued id, nothing is cleared, and a load sets no lower sequence and lists
      only ids below the one that holds afterwards; if it raises, that is the old one. */
  predicate KeepsIssued(conv: Conversions, columns: seq<Column>, m: Model, op: Op) {
    match op
    case Save(pk, _) => pk < m.sequence
    case Clear => false
    case Load(entries, sequence) =>
      var next := if Step(conv, columns, m, op).ok then LoadSequence(entries, sequence) else m.sequence;
      m.sequence <= next && forall i :: 0 <= i < |entries| ==> entries[i].0 < next
    case _ => true
  }

  predicate NeverReset(conv: Conversions, columns: seq<Column>, m: Model, ops: seq<Op>)
    decreases |ops|
  {
    ops == []
    || (&& KeepsIssued(conv, columns, m, ops[0])
        && NeverReset(conv, columns, Step(conv, columns, m, ops[0]).state, ops[1..]))
  }

  lemma {:induction false} LoadedIds(conv: Conversions, columns: seq<Column>, m: Model, maxPk: int,
        entries: seq<(int, Row)>, next: int)
    requires AllBelow(m.rows, next) && forall i :: 0 <= i < |entries| ==> entries[i].0 < next
    ensures AllBelow(Loaded(conv, columns, m, maxPk, entries).state.rows, next)
    decreases |entries|
  {
    hide LoadedRow, UpdatedIndexes;
    if entries != [] {
      var row := LoadedRow(conv, columns, entries[0].1);
      if row.Ok? {
        var written := Written(columns, m, entries[0].0, map[], row.value);
        assert AllBelow(written.state.rows, next);
        if written.ok {
          LoadedIds(conv, columns, written.state, if entries[0].0 > maxPk then entries[0].0 else maxPk, entries[1..],
                    next);
        }
      }
    }
  }

  lemma LoadKeepsIds(conv: Conversions, columns: seq<Column>, m: Model, op: Op)
    requires IdsBelow(m) && op.Load? && KeepsIssued(conv, columns, m, op)
    ensures var next := Step(conv, columns, m, op).state; IdsBelow(next) && m.sequence <= next.sequence
  {
    var next := if Step(conv, columns, m, op).ok then LoadSequence(op.entries, op.sequence) else m.sequence;
    LoadedShape(conv, columns, m, 0, op.entries);
    LoadedIds(conv, columns, m, 0, op.entries, next);
    hide Loaded, Converts, Converted, RowsOf, MaxPk;
  }

  lemma StepKeepsIds(conv: Conversions, columns: seq<Column>, m: Model, op: Op)
    requires IdsBelow(m) && (op.Save? ==> op.pk < m.sequence) && !op.Load?
    ensures IdsBelow(Step(conv, columns, m, op).state) || op.Clear?
    ensures !op.Clear? ==> Step(conv, columns, m, op).state.sequence == m.sequence + if op.Create? then 1 else 0
  {
    hide UpdatedIndexes, RemovedIndexes, LoadedWith;
  }

  /** From lo up to below hi, each above the one before. */
  ghost predicate Increasing(ids: seq<int>, lo: int, hi: int) {
    if ids == [] then lo <= hi else lo <= ids[0] && Increasing(ids[1..], ids[0] + 1, hi)
  }

  lemma {:induction false} IncreasingAt(ids: seq<int>, lo: int, hi: int, i: nat)
    requires Increasing(ids, lo, hi) && i < |ids|
    ensures lo <= ids[i] < hi
    ensures forall j :: i < j < |ids| ==> ids[i] < ids[j]
  {
    if i > 0 {
      IncreasingAt(ids[1..], ids[0] + 1, hi, i - 1);
      assert forall j :: i < j < |ids| ==> ids[1..][j - 1] == ids[j];
    } else {
      forall j | 0 < j < |ids| ensures ids[0] < ids[j] {
        IncreasingAt(ids[1..], ids[0] + 1, hi, j - 1);
      }
      if |ids| > 1 {
        IncreasingAt(ids[1..], ids[0] + 1, hi, 0);
      }
    }
  }

  lemma LowerStart(ids: seq<int>, lo: int, lower: int, hi: int)
    requires Increasing(ids, lo, hi) && lower <= lo
    ensures Increasing(ids, lower, hi)
  {
  }

  /** Whatever conflicts, in a run without `clear` and without a load that takes the sequence
      back no id is issued twice: ids increase, and every id is below the sequence. */
  lemma {:induction false} IdsIncrease(conv: Conversions, columns: seq<Column>, m: Model, ops: seq<Op>)
    requires IdsBelow(m) && NeverReset(conv, columns, m, ops)
    ensures IdsBelow(Run(conv, columns, m, ops))
    ensures Increasing(Ids(conv, columns, m, ops), m.sequence, Run(conv, columns, m, ops).sequence)
    ensures m.sequence <= Run(conv, columns, m, ops).sequence
    decreases |ops|
  {
    hide IdsBelow, Step;
    if ops != [] {
      var next := Step(conv, columns, m, ops[0]).state;
      if ops[0].Load? {
        LoadKeepsIds(conv, columns, m, ops[0]);
      } else {
        StepKeepsIds(conv, columns, m, ops[0]);
      }
      IdsIncrease(conv, columns, next, ops[1..]);
      var ids := Ids(conv, columns, next, ops[1..]);
      assert [] + ids == ids && ([m.sequence] + ids)[1..] == ids;
      LowerStart(ids, next.sequence, m.sequence, Run(conv, columns, m, ops).sequence);
    }
  }

  // ---- Queries --------------------------------------------------------------

  datatype Condition = Condition(column: string, value: Value)

  predicate Accepts(conditions: seq<Condition>, row: Row) {
    forall i :: 0 <= i < |conditions| ==> Get(row, conditions[i].column) == conditions[i].value
  }

  /** What a scan of the whole table finds. */
  function Scan(rows: Table, conditions: seq<Condition>): Table {
    map pk | pk in rows && Accepts(conditions, rows[pk]) :: rows[pk]
  }

  /** The position of the first condition on an indexed column. */
  function Chosen(indexes: Indexes, conditions: seq<Condition>): (k: nat)
    ensures k <= |conditions|
    ensures k < |conditions| ==> conditions[k].column in indexes
    ensures forall i :: 0 <= i < k ==> conditions[i].column !in indexes
  {
    if conditions == [] then 0
    else if conditions[0].column in indexes then 0
    else
      var k := Chosen(indexes, conditions[1..]);
      assert forall i :: 0 < i < k + 1 ==> conditions[i] == conditions[1..][i - 1];
      k + 1
  }

  /** `filter`: candidates from the chosen index, checked against the other conditions. */
  function Filtered(m: Model, conditions: seq<Condition>): Table {
    var k := Chosen(m.indexes, conditions);
    if k == |conditions| then Scan(m.rows, conditions)
    else
      var candidates := Lookup(m.indexes[conditions[k].column], conditions[k].value);
      map pk | pk in candidates && pk in m.rows
          && Accepts(conditions[..k] + conditions[k + 1..], m.rows[pk]) :: m.rows[pk]
  }

  lemma AcceptsAllBut(conditions: seq<Condition>, k: nat, row: Row)
    requires k < |conditions|
    ensures Accepts(conditions, row) <==>
      Accepts(conditions[..k] + conditions[k + 1..], row) && Get(row, conditions[k].column) == conditions[k].value
  {
    var rest := conditions[..k] + conditions[k + 1..];
    if Accepts(rest, row) && Get(row, conditions[k].column) == conditions[k].value {
      forall i | 0 <= i < |conditions| ensures Get(row, conditions[i].column) == conditions[i].value {
        if i < k {
          assert conditions[i] == rest[i];
        } else if i > k {
          assert conditions[i] == rest[i - 1];
        }
      }
    }
  }

  /** An indexed query finds what a scan finds, whichever index it picks, exactly unless it
      asks the picked index for None and some row would match. */
  lemma FilterIsScan(m: Model, conditions: seq<Condition>)
    requires AllCoherent(m)
    ensures Filtered(m, conditions) == Scan(m.rows, conditions) <==>
      var k := Chosen(m.indexes, conditions);
      k == |conditions| || conditions[k].value != Null || Scan(m.rows, conditions) == map[]
  {
    var k := Chosen(m.indexes, conditions);
    if k < |conditions| {
      var name, value := conditions[k].column, conditions[k].value;
      assert Coherent(m.indexes[name], m.rows, name);
      forall pk | pk in m.rows
        ensures Accepts(conditions, m.rows[pk]) <==>
          Accepts(conditions[..k] + conditions[k + 1..], m.rows[pk]) && Get(m.rows[pk], name) == value
      {
        AcceptsAllBut(conditions, k, m.rows[pk]);
      }
      hide Accepts, Coherent, Get;
      Candidates(m.indexes[name], m.rows, name, value);
    }
  }

  lemma Candidates(index: Index, rows: Table, name: string, value: Value)
    requires Coherent(index, rows, name)
    ensures value != Null ==> forall pk :: pk in Lookup(index, value) <==> pk in rows && Get(rows[pk], name) == value
    ensures Lookup(index, Null) == {}
  {
    assert value != Null ==> Lookup(index, value) == Holders(rows, name, value);
  }

  // ---- The store ------------------------------------------------------------

  /** `_MemoryStoreImpl`. Rows are values, so the copies the original makes are implicit. */
  class MemoryStore {
    var tables: map<string, Table>
    var sequences: map<string, int>
    var indexes: map<string, Indexes>
    var schemas: map<string, seq<Column>>

    ghost predicate Valid()
      reads this
    {
      tables.Keys == sequences.Keys == indexes.Keys == schemas.Keys
    }

    /** What the store holds for one model. */
    ghost function State(model: string): Model
      requires Valid() && model in tables
      reads this
    {
      Model(tables[model], sequences[model], indexes[model])
    }

    constructor ()
      ensures Valid() && tables == map[]
    {
      tables, sequences, indexes, schemas := map[], map[], map[], map[];
    }

    /** A model is registered once; later registrations change nothing. */
    method RegisterModel(model: string, columns: seq<Column>)
      requires Valid()
      modifies this
      ensures Valid()
      ensures model in old(tables) ==> unchanged(this)
      ensures model !in old(tables) ==>
        && tables == old(tables)[model := Registered(columns).rows]
        && sequences == old(sequences)[model := Registered(columns).sequence]
        && indexes == old(indexes)[model := Registered(columns).indexes]
        && schemas == old(schemas)[model := columns]
    {
      if model !in tables {
        tables := tables[model := map[]];
        sequences := sequences[model := 1];
        schemas := schemas[model := columns];
        var created := CreateIndexes(columns);
        indexes := indexes[model := created];
      }
    }

    method NextPk(model: string) returns (pk: int)
      requires Valid() && model in tables
      modifies this`sequences
      ensures Valid() && pk == old(sequences[model]) && sequences == old(sequences)[model := pk + 1]
    {
      pk := sequences[model];
      sequences := sequences[model := pk + 1];
    }

    method UpdateIndexes(model: string, pk: int, before: Row, after: Row) returns (ok: bool)
      requires Valid() && model in tables
      modifies this`indexes
      ensures var updated := UpdatedIndexes(schemas[model], old(indexes)[model], pk, before, after);
        indexes == old(indexes)[model := updated.state] && ok == updated.ok
    {
      var columns, current := schemas[model], indexes[model];
      ghost var start := current;
      hide *;
      for i := 0 to |columns|
        invariant indexes == old(indexes)[model := current]
        invariant UpdatedIndexes(columns[i..], current, pk, before, after)
            == UpdatedIndexes(columns, start, pk, before, after)
      {
        UpdateUnfolds(columns, i, current, pk, before, after);
        var name := columns[i].name;
        if name in current {
          var index, replaced := UpdateIndex(current[name], pk, Get(before, name), Get(after, name));
          current := current[name := index];
          indexes := indexes[model := current];
          if !replaced {
            return false;
          }
        }
      }
      UpdateOfNothing(columns, current, pk, before, after);
      return true;
    }

    method RemoveIndexes(model: string, pk: int, row: Row)
      requires Valid() && model in tables
      modifies this`indexes
      ensures indexes == old(indexes)[model := RemovedIndexes(schemas[model], old(indexes)[model], pk, row)]
    {
      var columns, current := schemas[model], indexes[model];
      ghost var start := current;
      hide *;
      for i := 0 to |columns|
        invariant indexes == old(indexes)[model := current]
        invariant RemovedIndexes(columns[i..], current, pk, row) == RemovedIndexes(columns, start, pk, row)
      {
        RemoveUnfolds(columns, i, current, pk, row);
        var name := columns[i].name;
        if name in current {
          var val := Get(row, name);
          if val != Null {
            current := current[name := Removed(current[name], val, pk)];
            indexes := indexes[model := current];
          }
        }
      }
      RemoveOfNothing(columns, current, pk, row);
    }

    /** The row is in the table even when an index raises. */
    method Insert(model: string, pk: int, data: Row) returns (ok: bool)
      requires Valid() && model in tables
      modifies this`tables, this`indexes
      ensures Valid()
      ensures var w := Written(schemas[model], old(State(model)), pk, map[], data);
        ok == w.ok && tables == old(tables)[model := w.state.rows] && indexes == old(indexes)[model := w.state.indexes]
    {
      hide UpdatedIndexes;
      tables := tables[model := tables[model][pk := data]];
      ok := UpdateIndexes(model, pk, map[], data);
    }

    method Update(model: string, pk: int, data: Row) returns (ok: bool)
      requires Valid() && model in tables
      modifies this`tables, this`indexes
      ensures Valid()
      ensures var w := Written(schemas[model], old(State(model)), pk, Present(old(tables[model]), pk), data);
        ok == w.ok && tables == old(tables)[model := w.state.rows] && indexes == old(indexes)[model := w.state.indexes]
    {
      hide UpdatedIndexes, RemovedIndexes;
      var before := Present(tables[model], pk);
      tables := tables[model := tables[model][pk := data]];
      ok := UpdateIndexes(model, pk, before, data);
    }

    method Delete(model: string, pk: int)
      requires Valid() && model in tables
      modifies this`tables, this`indexes
      ensures Valid()
      ensures var w := Deleted(schemas[model], old(State(model)), pk);
        tables == old(tables)[model := w.rows] && indexes == old(indexes)[model := w.indexes]
    {
      hide UpdatedIndexes, RemovedIndexes;
      Unchanged(tables, model);
      Unchanged(indexes, model);
      if pk in tables[model] {
        var row := tables[model][pk];
        tables := tables[model := tables[model] - {pk}];
        if row != map[] {
          RemoveIndexes(model, pk, row);
        } else {
          EmptyRowNotIndexed(schemas[model], indexes[model], pk);
        }
      }
    }

    method GetRow(model: string, pk: int) returns (row: Option<Row>)
      requires Valid()
      ensures row == if model in tables then Fetched(tables[model], pk) else None
    {
      if model in tables && pk in tables[model] && tables[model][pk] != map[] {
        return Some(tables[model][pk]);
      }
      return None;
    }

    /** `filter`; the original's order of results is that of a set and so arbitrary. */
    method Filter(model: string, conditions: seq<Condition>) returns (results: Table)
      requires Valid()
      ensures results == if model in tables then Filtered(State(model), conditions) else map[]
    {
      if model !in tables {
        return map[];
      }
      hide Chosen, Lookup, Accepts;
      var k := FirstIndexed(indexes[model], conditions);
      if k == |conditions| {
        results := Collect(tables[model], tables[model].Keys, conditions);
      } else {
        results := Collect(tables[model], Lookup(indexes[model][conditions[k].column], conditions[k].value),
                           conditions[..k] + conditions[k + 1..]);
      }
    }

    method Clear()
      requires Valid()
      modifies this
      ensures Valid() && tables.Keys == old(tables.Keys) && schemas == old(schemas)
      ensures forall model :: model in tables ==> State(model) == ClearedModel(old(State(model)))
    {
      tables := map model | model in tables :: map[];
      sequences := map model | model in sequences :: 1;
      indexes := map model | model in indexes :: map name | name in indexes[model] :: Cleared(indexes[model][name]);
    }

    method SetSequence(model: string, val: int)
      requires Valid() && model in tables
      modifies this`sequences
      ensures Valid() && sequences == old(sequences)[model := val]
    {
      sequences := sequences[model := val];
    }

    lemma StateOf(model: string)
      requires tables.Keys == sequences.Keys == indexes.Keys == schemas.Keys && model in tables
      ensures Valid() && State(model) == Model(tables[model], sequences[model], indexes[model])
    {
    }

    lemma KeysAgree()
      requires Valid()
      ensures tables.Keys == sequences.Keys == indexes.Keys == schemas.Keys
    {
    }

    /** One row of `load_table_data`: the row as read back, unless that raises, and whether
        the indexes took it. */
    method LoadEntry(conv: Conversions, model: string, pk: int, data: Row) returns (loaded: Option<(Row, bool)>)
      requires Valid() && model in tables
      modifies this`tables, this`indexes
      ensures Valid()
      ensures LoadedRow(conv, schemas[model], data) == if loaded.Some? then Ok(loaded.value.0) else Error
      ensures loaded == None ==> tables == old(tables) && indexes == old(indexes)
      ensures loaded.Some? ==>
        var w := Written(schemas[model], old(State(model)), pk, map[], loaded.value.0);
        && loaded.value.1 == w.ok
        && tables == old(tables)[model := w.state.rows]
        && indexes == old(indexes)[model := w.state.indexes]
    {
      hide LoadedRow, Written;
      var row := LoadedRow(conv, schemas[model], data);
      if row.Error? {
        return None;
      }
      var written := Insert(model, pk, row.value);
      return Some((row.value, written));
    }

    /** The loop of `load_table_data`. */
    method LoadRows(conv: Conversions, model: string, data: seq<(int, Row)>) returns (maxPk: int, ok: bool)
      requires Valid() && model in tables
      modifies this`tables, this`indexes
      ensures Valid()
      ensures var w := Loaded(conv, schemas[model], old(State(model)), 0, data);
        && ok == w.ok
        && tables == old(tables)[model := w.state.rows]
        && indexes == old(indexes)[model := w.state.indexes]
        && w.state.sequence == if ok then maxPk + 1 else sequences[model]
    {
      KeysAgree();
      hide *;
      ghost var start, columns, tables0, indexes0 := State(model), schemas[model], tables, indexes;
      ghost var current := start;
      StateOf(model);
      Unchanged(tables, model);
      Unchanged(indexes, model);
      maxPk := 0;
      for i := 0 to |data|
        invariant Valid() && model in tables && State(model) == current && current.sequence == start.sequence
        invariant tables == tables0[model := current.rows] && indexes == indexes0[model := current.indexes]
        invariant Loaded(conv, columns, current, maxPk, data[i..]) == Loaded(conv, columns, start, 0, data)
      {
        LoadUnfolds(conv, columns, current, maxPk, data, i);
        var loaded := LoadEntry(conv, model, data[i].0, data[i].1);
        if loaded.None? {
          return maxPk, false;
        }
        if data[i].0 > maxPk {
          maxPk := data[i].0;
        }
        ghost var before := current;
        current := Written(columns, current, data[i].0, map[], loaded.value.0).state;
        WrittenSequence(columns, before, data[i].0, loaded.value.0);
        Overwritten(tables0, model, before.rows, current.rows);
        Overwritten(indexes0, model, before.indexes, current.indexes);
        KeysAgree();
        StateOf(model);
        if !loaded.value.1 {
          return maxPk, false;
        }
      }
      LoadOfNothing(conv, columns, current, maxPk, data);
      return maxPk, true;
    }

    /** `load_table_data`, with the ids already turned into numbers. */
    method LoadTableData(conv: Conversions, model: string, data: seq<(int, Row)>) returns (ok: bool)
      requires Valid() && model in tables
      modifies this`tables, this`indexes, this`sequences
      ensures Valid()
      ensures var w := Loaded(conv, schemas[model], old(State(model)), 0, data);
        && ok == w.ok
        && tables == old(tables)[model := w.state.rows]
        && sequences == old(sequences)[model := w.state.sequence]
        && indexes == old(indexes)[model := w.state.indexes]
    {
      hide Loaded;
      Unchanged(sequences, model);
      var maxPk: int;
      maxPk, ok := LoadRows(conv, model, data);
      if ok {
        sequences := sequences[model := maxPk + 1];
      }
    }
  }

  lemma Unchanged<V>(dict: map<string, V>, key: string)
    requires key in dict
    ensures dict[key := dict[key]] == dict
  {
  }

  lemma Overwritten<V>(dict: map<string, V>, key: string, first: V, second: V)
    ensures dict[key := first][key := second] == dict[key := second]
  {
  }

  lemma WrittenSequence(columns: seq<Column>, m: Model, pk: int, row: Row)
    ensures Written(columns, m, pk, map[], row).state.sequence == m.sequence
  {
  }

  // ---- Loops of the store ---------------------------------------------------

  method CreateIndexes(columns: seq<Column>) returns (created: Indexes)
    ensures created == IndexesFor(columns)
  {
    created := map[];
    for i := 0 to |columns|
      invariant created == IndexesFor(columns[..i])
    {
      assert columns[..i + 1][..i] == columns[..i];
      var c := columns[i];
      if c.unique {
        created := created[c.name := Unique(map[])];
      } else if c.index {
        created := created[c.name := Hash(map[])];
      }
    }
    assert columns[..|columns|] == columns;
  }

  /** One column's turn in `_update_indexes`; it may raise after the removal. */
  method UpdateIndex(index: Index, pk: int, before: Value, after: Value) returns (updated: Index, ok: bool)
    ensures Replaced(index, pk, before, after) == if ok then Some(updated) else None
    ensures !ok ==> updated == Interrupted(index, pk, before)
  {
    updated := index;
    if before == after {
      return updated, true;
    }
    if before != Null {
      updated := Removed(updated, before, pk);
    }
    if after != Null {
      if Conflicts(updated, after, pk) {
        return updated, false;
      }
      updated := Added(updated, after, pk);
    }
    return updated, true;
  }

  /** The scan in `filter` for the first condition on an indexed column. */
  method FirstIndexed(indexes: Indexes, conditions: seq<Condition>) returns (k: nat)
    ensures k == Chosen(indexes, conditions)
  {
    k := 0;
    while k < |conditions| && conditions[k].column !in indexes
      invariant k <= |conditions| && k + Chosen(indexes, conditions[k..]) == Chosen(indexes, conditions)
    {
      assert conditions[k..][0] == conditions[k] && conditions[k..][1..] == conditions[k + 1..];
      k := k + 1;
    }
    if k < |conditions| {
      assert conditions[k..][0] == conditions[k];
    }
  }

  lemma Inhabited(s: set<int>)
    ensures s == {} || exists pk :: pk in s
  {
    if forall pk :: pk !in s {
      assert s == {};
    }
  }

  /** The candidates that are in the table and meet the remaining conditions. */
  method Collect(table: Table, candidates: set<int>, remaining: seq<Condition>) returns (results: Table)
    ensures results == map pk | pk in candidates && pk in table && Accepts(remaining, table[pk]) :: table[pk]
  {
    results := map[];
    var rest := candidates;
    while rest != {}
      invariant rest <= candidates
      invariant results == map pk | pk in candidates - rest && pk in table && Accepts(remaining, table[pk]) :: table[pk]
      decreases |rest|
    {
      Inhabited(rest);
      var pk :| pk in rest;
      rest := rest - {pk};
      if pk in table {
        var accepted := Matches(remaining, table[pk]);
        if accepted {
          results := results[pk := table[pk]];
        }
      }
    }
    assert candidates - rest == candidates;
  }

  lemma UpdateUnfolds(columns: seq<Column>, i: nat, indexes: Indexes, pk: int, before: Row, after: Row)
    requires i < |columns|
    ensures var name := columns[i].name;
      UpdatedIndexes(columns[i..], indexes, pk, before, after)
        == if name !in indexes then UpdatedIndexes(columns[i + 1..], indexes, pk, before, after)
           else
             match Replaced(indexes[name], pk, Get(before, name), Get(after, name))
             case Some(index) => UpdatedIndexes(columns[i + 1..], indexes[name := index], pk, before, after)
             case None => Outcome(indexes[name := Interrupted(indexes[name], pk, Get(before, name))], false)
  {
    hide Replaced, Interrupted;
    assert columns[i..][0] == columns[i] && columns[i..][1..] == columns[i + 1..];
  }

  lemma UpdateOfNothing(columns: seq<Column>, indexes: Indexes, pk: int, before: Row, after: Row)
    ensures UpdatedIndexes(columns[|columns|..], indexes, pk, before, after) == Outcome(indexes, true)
  {
  }

  lemma RemoveUnfolds(columns: seq<Column>, i: nat, indexes: Indexes, pk: int, row: Row)
    requires i < |columns|
    ensures var name := columns[i].name;
      RemovedIndexes(columns[i..], indexes, pk, row)
        == RemovedIndexes(columns[i + 1..],
             if name in indexes && Get(row, name) != Null
             then indexes[name := Removed(indexes[name], Get(row, name), pk)]
             else indexes,
             pk, row)
  {
    hide Removed;
    assert columns[i..][0] == columns[i] && columns[i..][1..] == columns[i + 1..];
    var name := columns[i].name;
    if name in indexes {
      assert indexes[name := indexes[name]] == indexes;
    }
  }

  lemma RemoveOfNothing(columns: seq<Column>, indexes: Indexes, pk: int, row: Row)
    ensures RemovedIndexes(columns[|columns|..], indexes, pk, row) == indexes
  {
  }

  lemma LoadUnfolds(conv: Conversions, columns: seq<Column>, m: Model, maxPk: int, entries: seq<(int, Row)>, i: nat)
    requires i < |entries|
    ensures var pk := entries[i].0;
      Loaded(conv, columns, m, maxPk, entries[i..])
        == match LoadedRow(conv, columns, entries[i].1)
           case Error => Outcome(m, false)
           case Ok(row) =>
             var written := Written(columns, m, pk, map[], row);
             if written.ok then Loaded(conv, columns, written.state, if pk > maxPk then pk else maxPk, entries[i + 1..])
             else written
  {
    hide LoadedRow, Written;
    assert entries[i..][0] == entries[i] && entries[i..][1..] == entries[i + 1..];
  }

  lemma LoadOfNothing(conv: Conversions, columns: seq<Column>, m: Model, maxPk: int, entries: seq<(int, Row)>)
    ensures Loaded(conv, columns, m, maxPk, entries[|entries|..]) == Outcome(m.(sequence := maxPk + 1), true)
  {
  }

  lemma {:induction false} EmptyRowNotIndexed(columns: seq<Column>, indexes: Indexes, pk: int)
    ensures RemovedIndexes(columns, indexes, pk, map[]) == indexes
  {
    if columns != [] {
      EmptyRowNotIndexed(columns[1..], indexes, pk);
      if columns[0].name in indexes {
        assert indexes[columns[0].name := indexes[columns[0].name]] == indexes;
      }
    }
  }

  method Matches(conditions: seq<Condition>, row: Row) returns (accepted: bool)
    ensures accepted == Accepts(conditions, row)
  {
    for i := 0 to |conditions|
      invariant forall j :: 0 <= j < i ==> Get(row, conditions[j].column) == conditions[j].value
    {
      if Get(row, conditions[i].column) != conditions[i].value {
        return false;
      }
    }
    return true;
  }
}
