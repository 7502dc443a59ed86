/** Index structures from column values to primary keys (btpay/orm/indexing.py). */
module Indexing {
  import opened Values
  import opened Wrappers

  // ---- Contents -------------------------------------------------------------

  /** The contents of a `HashIndex` or a `UniqueIndex`. */
  datatype Index = Hash(sets: map<Value, set<int>>) | Unique(pks: map<Value, int>)

  /** The keys an index holds for a value. */
  function Lookup(index: Index, value: Value): set<int> {
    match index
    case Hash(sets) => if value in sets then sets[value] else {}
    case Unique(pks) => if value in pks then {pks[value]} else {}
  }

  function HashAdded(sets: map<Value, set<int>>, value: Value, pk: int): map<Value, set<int>> {
    sets[value := (if value in sets then sets[value] else {}) + {pk}]
  }

  function HashRemoved(sets: map<Value, set<int>>, value: Value, pk: int): map<Value, set<int>> {
    if value !in sets then sets
    else if sets[value] - {pk} == {} then sets - {value}
    else sets[value := sets[value] - {pk}]
  }

  function UniqueRemoved(pks: map<Value, int>, value: Value, pk: int): map<Value, int> {
    if value in pks && pks[value] == pk then pks - {value} else pks
  }

  /** Whether `add` raises. */
  predicate Conflicts(index: Index, value: Value, pk: int) {
    index.Unique? && value in index.pks && index.pks[value] != pk
  }

  function Added(index: Index, value: Value, pk: int): Index
    requires !Conflicts(index, value, pk)
  {
    match index
    case Hash(sets) => Hash(HashAdded(sets, value, pk))
    case Unique(pks) => Unique(pks[value := pk])
  }

  function Removed(index: Index, value: Value, pk: int): Index {
    match index
    case Hash(sets) => Hash(HashRemoved(sets, value, pk))
    case Unique(pks) => Unique(UniqueRemoved(pks, value, pk))
  }

  function Cleared(index: Index): Index {
    if index.Hash? then Hash(map[]) else Unique(map[])
  }

  // ---- The classes ----------------------------------------------------------

  class HashIndex {
    var sets: map<Value, set<int>>

    constructor ()
      ensures sets == map[]
    {
      sets := map[];
    }

    method Add(value: Value, pk: int)
      modifies this
      ensures sets == HashAdded(old(sets), value, pk)
    {
      if value !in sets {
        sets := sets[value := {}];
      }
      sets := sets[value := sets[value] + {pk}];
    }

    method Remove(value: Value, pk: int)
      modifies this
      ensures sets == HashRemoved(old(sets), value, pk)
    {
      if value in sets {
        sets := sets[value := sets[value] - {pk}];
        if sets[value] == {} {
          sets := sets - {value};
        }
      }
    }

    method Get(value: Value) returns (pks: set<int>)
      ensures pks == Lookup(Hash(sets), value)
    {
      pks := if value in sets then sets[value] else {};
    }

    method AllPks() returns (pks: set<int>)
      ensures forall value :: Lookup(Hash(sets), value) <= pks
      ensures forall pk :: pk in pks ==> exists value :: pk in Lookup(Hash(sets), value)
    {
      pks := {};
      var rest := sets.Keys;
      while rest != {}
        invariant rest <= sets.Keys
        invariant forall value :: value !in rest ==> Lookup(Hash(sets), value) <= pks
        invariant forall pk :: pk in pks ==> exists value :: pk in Lookup(Hash(sets), value)
        decreases |rest|
      {
        var value :| value in rest;
        rest := rest - {value};
        assert sets[value] == Lookup(Hash(sets), value);
        pks := pks + sets[value];
      }
    }

    method Clear()
      modifies this
      ensures Hash(sets) == Cleared(old(Hash(sets)))
    {
      sets := map[];
    }
  }

  class UniqueIndex {
    var pks: map<Value, int>

    constructor ()
      ensures pks == map[]
    {
      pks := map[];
    }

    method Add(value: Value, pk: int) returns (ok: bool)
      modifies this
      ensures ok == !Conflicts(old(Unique(pks)), value, pk)
      ensures Unique(pks) == if ok then Added(old(Unique(pks)), value, pk) else old(Unique(pks))
    {
      if value in pks && pks[value] != pk {
        return false;
      }
      pks := pks[value := pk];
      return true;
    }

    method Remove(value: Value, pk: int)
      modifies this
      ensures pks == UniqueRemoved(old(pks), value, pk)
    {
      if value in pks && pks[value] == pk {
        pks := pks - {value};
      }
    }

    method Get(value: Value) returns (pk: Option<int>)
      ensures Lookup(Unique(pks), value) == if pk.Some? then {pk.value} else {}
    {
      pk := if value in pks then Some(pks[value]) else None;
    }

    method Clear()
      modifies this
      ensures Unique(pks) == Cleared(old(Unique(pks)))
    {
      pks := map[];
    }
  }

  // ---- Coherence with a table -----------------------------------------------

  type Table = map<int, Row>

  /** The primary keys of the rows whose column has a value: what a scan finds. */
  function Holders(rows: Table, column: string, value: Value): set<int> {
    set pk | pk in rows && Get(rows[pk], column) == value
  }

  predicate Has(index: Index, value: Value) {
    match index
    case Hash(sets) => value in sets
    case Unique(pks) => value in pks
  }

  /** The index agrees with a scan on every value but None, which it never holds, and keeps
      no empty entries. */
  ghost predicate Coherent(index: Index, rows: Table, column: string) {
    && !Has(index, Null)
    && forall value {:trigger Lookup(index, value)} {:trigger Has(index, value)} :: value != Null ==>
         Lookup(index, value) == Holders(rows, column, value) && (Has(index, value) <==> Lookup(index, value) != {})
  }

  /** Replacing a row: what must happen to the index of one column. */
  function Replaced(index: Index, pk: int, before: Value, after: Value): Option<Index> {
    if before == after then Some(index)
    else
      var removed := if before != Null then Removed(index, before, pk) else index;
      if after == Null then Some(removed)
      else if Conflicts(removed, after, pk) then None
      else Some(Added(removed, after, pk))
  }

  lemma HashAfterRemove(sets: map<Value, set<int>>, v: Value, pk: int, value: Value)
    ensures var after := HashRemoved(sets, v, pk);
      && (value in after <==> value in sets && (value == v ==> sets[value] - {pk} != {}))
      && (value in after ==> after[value] == sets[value] - (if value == v then {pk} else {}))
  {
  }

  lemma LookupAfterRemove(index: Index, v: Value, pk: int, value: Value)
    ensures Lookup(Removed(index, v, pk), value) == Lookup(index, value) - (if value == v then {pk} else {})
    ensures Has(Removed(index, v, pk), value) <==>
              Has(index, value) && (value == v ==> Lookup(index, value) - {pk} != {})
  {
    if index.Hash? {
      hide HashRemoved;
      HashAfterRemove(index.sets, v, pk, value);
    }
  }

  lemma HashAfterAdd(sets: map<Value, set<int>>, v: Value, pk: int, value: Value)
    ensures var after := HashAdded(sets, v, pk);
      && (value in after <==> value in sets || value == v)
      && (value in after ==>
            after[value] == (if value in sets then sets[value] else {}) + (if value == v then {pk} else {}))
  {
  }

  lemma LookupAfterAdd(index: Index, v: Value, pk: int, value: Value)
    requires !Conflicts(index, v, pk)
    ensures Lookup(Added(index, v, pk), value) == Lookup(index, value) + (if value == v then {pk} else {})
    ensures Has(Added(index, v, pk), value) <==> Has(index, value) || value == v
  {
    if index.Hash? {
      hide HashAdded;
      HashAfterAdd(index.sets, v, pk, value);
    }
  }

  lemma HoldersAfterReplace(rows: Table, pk: int, row: Row, column: string, value: Value)
    requires value != Null
    ensures Holders(rows[pk := row], column, value)
         == Holders(rows, column, value) - {pk} + (if Get(row, column) == value then {pk} else {})
  {
  }

  lemma LookupAfterReplace(index: Index, pk: int, before: Value, after: Value, value: Value)
    requires value != Null && Replaced(index, pk, before, after).Some?
    ensures var replaced := Replaced(index, pk, before, after).value;
      && (before != value && after != value ==>
            Lookup(replaced, value) == Lookup(index, value) && (Has(replaced, value) <==> Has(index, value)))
      && (before == value && after != value ==>
            Lookup(replaced, value) == Lookup(index, value) - {pk}
            && (Has(replaced, value) <==> Has(index, value) && Lookup(index, value) - {pk} != {}))
      && (before != value && after == value ==>
          Lookup(replaced, value) == Lookup(index, value) + {pk} && Has(replaced, value))
      && (before == value && after == value ==> replaced == index)
  {
    hide Lookup, Removed, Added, Has, Conflicts;
    if before != after {
      var removed := if before != Null then Removed(index, before, pk) else index;
      if before != Null {
        LookupAfterRemove(index, before, pk, value);
      }
      if after != Null {
        LookupAfterAdd(removed, after, pk, value);
      }
    }
  }

  /** A replacement that does not conflict keeps an index coherent. */
  lemma ReplaceCoherent(index: Index, rows: Table, column: string, pk: int, row: Row)
    requires Coherent(index, rows, column)
    requires Replaced(index, pk, if pk in rows then Get(rows[pk], column) else Null, Get(row, column)).Some?
    ensures Coherent(Replaced(index, pk, if pk in rows then Get(rows[pk], column) else Null, Get(row, column)).value,
                     rows[pk := row], column)
  {
    var before := if pk in rows then Get(rows[pk], column) else Null;
    var after := Get(row, column);
    var replaced := Replaced(index, pk, before, after).value;
    hide Lookup, Has, Replaced, Get;
    NullNeverHeld(index, pk, before, after);
    forall value | value != Null
      ensures Lookup(replaced, value) == Holders(rows[pk := row], column, value)
      ensures Has(replaced, value) <==> Lookup(replaced, value) != {}
    {
      LookupAfterReplace(index, pk, before, after, value);
      HoldersAfterReplace(rows, pk, row, column, value);
      HolderOf(rows, column, value, pk);
    }
  }

  lemma HolderOf(rows: Table, column: string, value: Value, pk: int)
    ensures pk in Holders(rows, column, value) <==> pk in rows && Get(rows[pk], column) == value
  {
  }

  lemma NullNeverHeld(index: Index, pk: int, before: Value, after: Value)
    requires !Has(index, Null) && Replaced(index, pk, before, after).Some?
    ensures !Has(Replaced(index, pk, before, after).value, Null)
  {
  }

  /** A replacement conflicts exactly if the column is unique and another row holds the
      new value. */
  lemma ConflictExactly(index: Index, rows: Table, column: string, pk: int, row: Row)
    requires Coherent(index, rows, column)
    ensures Replaced(index, pk, if pk in rows then Get(rows[pk], column) else Null, Get(row, column)) == None
      <==> index.Unique? && Get(row, column) != Null && Holders(rows, column, Get(row, column)) - {pk} != {}
  {
    var before := if pk in rows then Get(rows[pk], column) else Null;
    var after := Get(row, column);
    if after != Null {
      assert Lookup(index, after) == Holders(rows, column, after);
      if before != Null {
        LookupAfterRemove(index, before, pk, after);
      }
      HolderOf(rows, column, after, pk);
    }
  }

  /** Writing a row as if its id were new, as an insert does: the index forgets nothing, so it
      stays coherent exactly if no other value of the old row was in it. */
  lemma InsertCoherent(index: Index, rows: Table, column: string, pk: int, row: Row)
    requires Coherent(index, rows, column) && Replaced(index, pk, Null, Get(row, column)).Some?
    ensures Coherent(Replaced(index, pk, Null, Get(row, column)).value, rows[pk := row], column)
      <==> (pk in rows ==> Get(rows[pk], column) == Null || Get(rows[pk], column) == Get(row, column))
  {
    var before := if pk in rows then Get(rows[pk], column) else Null;
    var after := Get(row, column);
    var inserted := Replaced(index, pk, Null, after).value;
    if before == Null {
      ReplaceCoherent(index, rows, column, pk, row);
    } else if before == after {
      hide Lookup, Has, Get;
      NullNeverHeld(index, pk, Null, after);
      forall value | value != Null
        ensures Lookup(inserted, value) == Holders(rows[pk := row], column, value)
        ensures Has(inserted, value) <==> Lookup(inserted, value) != {}
      {
        LookupAfterReplace(index, pk, Null, after, value);
        HoldersAfterReplace(rows, pk, row, column, value);
        HolderOf(rows, column, value, pk);
      }
    } else {
      HolderOf(rows, column, before, pk);
      HolderOf(rows[pk := row], column, before, pk);
      LookupAfterReplace(index, pk, Null, after, before);
    }
  }

  /** Removing a row's value keeps an index coherent with the rest of the table. */
  lemma RemoveCoherent(index: Index, rows: Table, column: string, pk: int)
    requires Coherent(index, rows, column) && pk in rows
    ensures Coherent(if Get(rows[pk], column) != Null then Removed(index, Get(rows[pk], column), pk) else index,
                     rows - {pk}, column)
  {
    var before := Get(rows[pk], column);
    var removed := if before != Null then Removed(index, before, pk) else index;
    forall value | value != Null
      ensures Lookup(removed, value) == Holders(rows - {pk}, column, value)
      ensures Has(removed, value) <==> Lookup(removed, value) != {}
    {
      assert Holders(rows - {pk}, column, value) == Holders(rows, column, value) - {pk};
      LookupAfterRemove(index, before, pk, value);
      HolderOf(rows, column, value, pk);
    }
  }

  /** Coherence leaves an index no freedom. */
  lemma CoherentDetermined(a: Index, b: Index, rows: Table, column: string)
    requires Coherent(a, rows, column) && Coherent(b, rows, column) && (a.Hash? <==> b.Hash?)
    ensures a == b
  {
    forall value ensures Lookup(a, value) == Lookup(b, value) && (Has(a, value) <==> Has(b, value)) {
    }
    if a.Hash? {
      assert a.sets.Keys == b.sets.Keys by {
        forall value ensures value in a.sets <==> value in b.sets { assert Has(a, value) <==> Has(b, value); }
      }
      forall value | value in a.sets ensures a.sets[value] == b.sets[value] {
        assert Lookup(a, value) == Lookup(b, value);
      }
    } else {
      assert a.pks.Keys == b.pks.Keys by {
        forall value ensures value in a.pks <==> value in b.pks { assert Has(a, value) <==> Has(b, value); }
      }
      forall value | value in a.pks ensures a.pks[value] == b.pks[value] {
        assert Lookup(a, value) == Lookup(b, value);
        assert a.pks[value] in Lookup(b, value);
      }
    }
  }
}
