/** Saving model instances (btpay/orm/model.py:86-132): every column is validated, then the
    row is inserted under a new id or written over the old one. */
module Models {
  import opened Columns
  import opened Engine
  import opened Indexing
  import opened Values
  import opened Wrappers

  /** The row an instance is saved as, from its attributes. */
  function ValidatedRow(conv: Conversions, columns: seq<Column>, attributes: Row): Result<Row> {
    if columns == [] then Ok(map[])
    else
      var c := columns[|columns| - 1];
      match ValidatedRow(conv, columns[..|columns| - 1], attributes)
      case Error => Error
      case Ok(row) =>
        match Validated(conv, c, Get(attributes, c.name))
        case Error => Error
        case Ok(value) => Ok(row[c.name := value])
  }

  /** Every column's stored value is the validated attribute, and there are no others. */
  lemma {:induction false} ValidatedColumns(conv: Conversions, columns: seq<Column>, attributes: Row)
    requires Distinct(columns) && ValidatedRow(conv, columns, attributes).Ok?
    ensures var row := ValidatedRow(conv, columns, attributes).value;
      && (forall name :: name in row <==> Named(columns, name))
      && (forall i {:trigger columns[i]} :: 0 <= i < |columns| ==>
            columns[i].name in row && Validated(conv, columns[i], Get(attributes, columns[i].name))
                == Ok(row[columns[i].name]))
  {
    hide Validated, Get;
    var row := ValidatedRow(conv, columns, attributes).value;
    if columns != [] {
      var front, c := columns[..|columns| - 1], columns[|columns| - 1];
      assert forall i :: 0 <= i < |front| ==> front[i] == columns[i];
      ValidatedColumns(conv, front, attributes);
      LastNotNamed(columns);
      forall name ensures Named(columns, name) <==> Named(front, name) || name == c.name {
        NamedFront(columns, name);
      }
      forall i | 0 <= i < |columns|
        ensures columns[i].name in row && Validated(conv, columns[i], Get(attributes, columns[i].name))
            == Ok(row[columns[i].name])
      {
        if i < |front| {
          assert front[i].name != c.name;
        }
      }
    }
  }

  lemma NamedFront(columns: seq<Column>, name: string)
    requires columns != []
    ensures Named(columns, name) <==> Named(columns[..|columns| - 1], name) || name == columns[|columns| - 1].name
  {
    var front := columns[..|columns| - 1];
    if Named(columns, name) && name != columns[|columns| - 1].name {
      var i :| 0 <= i < |columns| && columns[i].name == name;
      assert front[i].name == name;
    }
    if Named(front, name) {
      var i :| 0 <= i < |front| && front[i].name == name;
      assert columns[i].name == name;
    }
  }

  /** What `save` writes reads back unchanged. */
  lemma SavedRowStable(conv: Conversions, columns: seq<Column>, attributes: Row)
    requires Distinct(columns) && ValidatedRow(conv, columns, attributes).Ok?
    ensures Stable(conv, columns, ValidatedRow(conv, columns, attributes).value)
  {
    hide Validated, ValidatedRow, FromStorage, Get;
    ValidatedColumns(conv, columns, attributes);
    forall i | 0 <= i < |columns|
      ensures var row := ValidatedRow(conv, columns, attributes).value;
        columns[i].name in row ==> FromStorage(conv, columns[i], row[columns[i].name]) == Ok(row[columns[i].name])
    {
      ValidatedIsStable(conv, columns[i], Get(attributes, columns[i].name));
    }
  }

  /** `save` for a class with these columns: nothing happens if a column does not validate. */
  method Save(conv: Conversions, store: MemoryStore, model: string, id: Option<int>,
        attributes: Row) returns (pk: Option<int>, ok: bool)
    requires store.Valid() && model in store.tables
    modifies store`tables, store`indexes, store`sequences
    ensures store.Valid()
    ensures match ValidatedRow(conv, store.schemas[model], attributes)
      case Error => !ok && pk == id && store.tables == old(store.tables) && store.indexes == old(store.indexes)
                    && store.sequences == old(store.sequences)
      case Ok(data) =>
        var before := old(store.State(model));
        var w := Step(conv, store.schemas[model], before, if id.Some? then Op.Save(id.value, data) else Create(data));
        && ok == w.ok && pk == (if id.Some? then id else Some(before.sequence))
        && store.tables == old(store.tables)[model := w.state.rows]
        && store.sequences == old(store.sequences)[model := w.state.sequence]
        && store.indexes == old(store.indexes)[model := w.state.indexes]
  {
    hide Written, ValidatedRow;
    var data := ValidatedRow(conv, store.schemas[model], attributes);
    if data.Error? {
      return id, false;
    }
    if id.None? {
      var next := store.NextPk(model);
      WrittenSequence(store.schemas[model], store.State(model), next, data.value);
      ok := store.Insert(model, next, data.value);
      return Some(next), ok;
    } else {
      Unchanged(store.sequences, model);
      SavedSequence(conv, store.schemas[model], store.State(model), id.value, data.value);
      ok := store.Update(model, id.value, data.value);
      return id, ok;
    }
  }

  lemma SavedSequence(conv: Conversions, columns: seq<Column>, m: Model, pk: int, data: Row)
    ensures Step(conv, columns, m, Op.Save(pk, data)).state.sequence == m.sequence
  {
  }
}
