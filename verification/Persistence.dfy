/** Saving the store as JSON trees and loading it back (btpay/orm/persistence.py). */
module Persistence {
  import opened Columns
  import opened Engine
  import opened Indexing
  import opened Models
  import opened Numerals
  import opened Values
  import opened Wrappers

  // ---- The tagged encoding --------------------------------------------------

  datatype Member = Member(key: string, value: Json)

  datatype Json =
    | JNull
    | JBool(b: bool)
    | JInt(i: int)
    | JFloat(r: real)
    | JText(text: string)
    | JArray(items: seq<Json>)
    | JObject(members: seq<Member>)

  const DECIMAL := "__decimal__"
  const DATETIME := "__datetime__"
  const SET := "__set__"

  /** `BTPayEncoder`. */
  function Encoded(v: Value): Json {
    match v
    case Null => JNull
    case Bool(b) => JBool(b)
    case Int(i) => JInt(i)
    case Float(r) => JFloat(r)
    case Text(text) => JText(text)
    case Dec(dec) => JObject([Member(DECIMAL, JText(dec))])
    case Date(iso) => JObject([Member(DATETIME, JText(iso))])
    case Tags(tags) => JObject([Member(SET, JArray(Texts(Sorted(tags))))])
    case List(items) => JArray(EncodedItems(items))
    case Dict(entries) => JObject(EncodedEntries(entries))
  }

  function EncodedItems(items: seq<Value>): seq<Json> {
    if items == [] then [] else [Encoded(items[0])] + EncodedItems(items[1..])
  }

  function EncodedEntries(entries: seq<Entry>): seq<Member> {
    if entries == [] then [] else [Member(entries[0].key, Encoded(entries[0].value))] + EncodedEntries(entries[1..])
  }

  function Texts(strings: seq<string>): seq<Json> {
    if strings == [] then [] else [JText(strings[0])] + Texts(strings[1..])
  }

  /** `Decimal(x)` and `datetime.fromisoformat(x)` as text and `set(x)`; None where they
      raise. */
  datatype Constructors = Constructors(
    decimal: Value -> Option<string>,
    datetime: Value -> Option<string>,
    toSet: Value -> Option<set<string>>)

  function At(entries: seq<Entry>, key: string): Option<Value> {
    if entries == [] then None
    else if entries[0].key == key then Some(entries[0].value)
    else At(entries[1..], key)
  }

  function Tagged(text: Option<string>, tag: string -> Value): Result<Value> {
    match text case None => Error case Some(s) => Ok(tag(s))
  }

  function SetFrom(c: Constructors, v: Value): Result<Value> {
    if v.List? && AllText(v.items) then Ok(Tags(SetOf(v.items)))
    else (match c.toSet(v) case None => Error case Some(s) => Ok(Tags(s)))
  }

  /** `btpay_decoder`, applied to every object once its members are decoded. */
  function Hooked(c: Constructors, entries: seq<Entry>): Result<Value> {
    if At(entries, DECIMAL).Some? then Tagged(c.decimal(At(entries, DECIMAL).value), s => Dec(s))
    else if At(entries, DATETIME).Some? then Tagged(c.datetime(At(entries, DATETIME).value), s => Date(s))
    else if At(entries, SET).Some? then SetFrom(c, At(entries, SET).value)
    else Ok(Dict(entries))
  }

  function Decoded(c: Constructors, j: Json): Result<Value> {
    match j
    case JNull => Ok(Null)
    case JBool(b) => Ok(Bool(b))
    case JInt(i) => Ok(Int(i))
    case JFloat(r) => Ok(Float(r))
    case JText(text) => Ok(Text(text))
    case JArray(items) =>
      (match DecodedItems(c, items) case Error => Error case Ok(values) => Ok(List(values)))
    case JObject(members) =>
      match DecodedMembers(c, members)
      case Error => Error
      case Ok(entries) => Hooked(c, entries)
  }

  function DecodedItems(c: Constructors, items: seq<Json>): Result<seq<Value>> {
    if items == [] then Ok([])
    else
      match Decoded(c, items[0])
      case Error => Error
      case Ok(first) =>
        match DecodedItems(c, items[1..])
        case Error => Error
        case Ok(rest) => Ok([first] + rest)
  }

  function DecodedMembers(c: Constructors, members: seq<Member>): Result<seq<Entry>> {
    if members == [] then Ok([])
    else
      match Decoded(c, members[0].value)
      case Error => Error
      case Ok(first) =>
        match DecodedMembers(c, members[1..])
        case Error => Error
        case Ok(rest) => Ok([Entry(members[0].key, first)] + rest)
  }

  // ---- What survives the encoding -------------------------------------------

  predicate Reserved(key: string) {
    key == DECIMAL || key == DATETIME || key == SET
  }

  predicate ReservedAmong(entries: seq<Entry>) {
    At(entries, DECIMAL).Some? || At(entries, DATETIME).Some? || At(entries, SET).Some?
  }

  /** No dict in the value has one of the reserved keys. */
  predicate Untagged(v: Value) {
    match v
    case List(items) => UntaggedItems(items)
    case Dict(entries) => !ReservedAmong(entries) && UntaggedEntries(entries)
    case _ => true
  }

  predicate UntaggedItems(items: seq<Value>) {
    items == [] || (Untagged(items[0]) && UntaggedItems(items[1..]))
  }

  predicate UntaggedEntries(entries: seq<Entry>) {
    entries == [] || (Untagged(entries[0].value) && UntaggedEntries(entries[1..]))
  }

  /** The constructors read back the texts of the decimals and datetimes in a value. */
  predicate ReadsBack(c: Constructors, v: Value) {
    match v
    case Dec(dec) => c.decimal(Text(dec)) == Some(dec)
    case Date(iso) => c.datetime(Text(iso)) == Some(iso)
    case List(items) => ReadsBackItems(c, items)
    case Dict(entries) => ReadsBackEntries(c, entries)
    case _ => true
  }

  predicate ReadsBackItems(c: Constructors, items: seq<Value>) {
    items == [] || (ReadsBack(c, items[0]) && ReadsBackItems(c, items[1..]))
  }

  predicate ReadsBackEntries(c: Constructors, entries: seq<Entry>) {
    entries == [] || (ReadsBack(c, entries[0].value) && ReadsBackEntries(c, entries[1..]))
  }

  lemma {:induction false} DecodedTexts(c: Constructors, strings: seq<string>)
    ensures DecodedItems(c, Texts(strings)) == Ok(AsTexts(strings))
  {
    if strings != [] {
      DecodedTexts(c, strings[1..]);
      assert Texts(strings)[1..] == Texts(strings[1..]);
      assert AsTexts(strings) == [Text(strings[0])] + AsTexts(strings[1..]);
    }
  }

  lemma OneMember(c: Constructors, key: string, j: Json)
    ensures DecodedMembers(c, [Member(key, j)])
         == match Decoded(c, j) case Error => Error case Ok(v) => Ok([Entry(key, v)])
  {
    hide Decoded;
    assert [Member(key, j)][1..] == [];
    if Decoded(c, j).Ok? {
      assert [Entry(key, Decoded(c, j).value)] + [] == [Entry(key, Decoded(c, j).value)];
    }
  }

  lemma OneEntry(key: string, v: Value, other: string)
    ensures At([Entry(key, v)], other) == if key == other then Some(v) else None
  {
  }

  lemma TagsDiffer()
    ensures DECIMAL != DATETIME && DECIMAL != SET && DATETIME != SET
  {
    assert DECIMAL[2] != DATETIME[3] && |DECIMAL| != |DATETIME| && |DECIMAL| != |SET| && |DATETIME| != |SET|;
  }

  /** Decimals, datetimes and sets come back from their tags. */
  lemma LeafRoundTrip(c: Constructors, v: Value)
    requires (v.Dec? || v.Date? || v.Tags?) && ReadsBack(c, v)
    ensures Decoded(c, Encoded(v)) == Ok(v)
  {
    TagsDiffer();
    hide DECIMAL, DATETIME, SET;
    match v
    case Dec(dec) =>
      OneMember(c, DECIMAL, JText(dec));
      OneEntry(DECIMAL, Text(dec), DECIMAL);
    case Date(iso) =>
      OneMember(c, DATETIME, JText(iso));
      OneEntry(DATETIME, Text(iso), DECIMAL);
      OneEntry(DATETIME, Text(iso), DATETIME);
    case Tags(tags) =>
      var j := JArray(Texts(Sorted(tags)));
      DecodedTexts(c, Sorted(tags));
      SortedKeepsElements(tags);
      var list := List(AsTexts(Sorted(tags)));
      assert Decoded(c, j) == Ok(list);
      OneMember(c, SET, j);
      OneEntry(SET, list, DECIMAL);
      OneEntry(SET, list, DATETIME);
      OneEntry(SET, list, SET);
  }

  /** Encoding and decoding a value gives it back exactly if no dict in it has a reserved
      key. */
  lemma {:induction false} DecodeEncode(c: Constructors, v: Value)
    requires ReadsBack(c, v)
    ensures Decoded(c, Encoded(v)) == Ok(v) <==> Untagged(v)
  {
    hide DECIMAL, DATETIME, SET;
    match v
    case List(items) =>
      DecodeEncodeItems(c, items);
    case Dict(entries) =>
      DecodeEncodeEntries(c, entries);
      var got := DecodedMembers(c, EncodedEntries(entries));
      if got.Ok? {
        HookKeeps(c, got.value, entries);
      }
    case Dec(dec) => LeafRoundTrip(c, v);
    case Date(iso) => LeafRoundTrip(c, v);
    case Tags(tags) => LeafRoundTrip(c, v);
    case _ =>
  }

  /** The hook never makes a dict out of an object with a reserved key. */
  lemma HookKeeps(c: Constructors, got: seq<Entry>, entries: seq<Entry>)
    ensures Hooked(c, got) == Ok(Dict(entries)) <==> got == entries && !ReservedAmong(entries)
  {
    hide DECIMAL, DATETIME, SET;
  }

  lemma {:induction false} DecodeEncodeItems(c: Constructors, items: seq<Value>)
    requires ReadsBackItems(c, items)
    ensures DecodedItems(c, EncodedItems(items)) == Ok(items) <==> UntaggedItems(items)
  {
    hide Untagged, Decoded, Encoded;
    if items != [] {
      assert EncodedItems(items)[1..] == EncodedItems(items[1..]);
      DecodeEncode(c, items[0]);
      DecodeEncodeItems(c, items[1..]);
      Consed(items);
    }
  }

  lemma Consed<T>(s: seq<T>)
    requires s != []
    ensures s == [s[0]] + s[1..]
    ensures forall x: T, t: seq<T> :: [x] + t == s <==> x == s[0] && t == s[1..]
  {
    forall x: T, t: seq<T> ensures [x] + t == s <==> x == s[0] && t == s[1..] {
      assert ([x] + t)[0] == x && ([x] + t)[1..] == t;
    }
  }

  lemma {:induction false} DecodeEncodeEntries(c: Constructors, entries: seq<Entry>)
    requires ReadsBackEntries(c, entries)
    ensures DecodedMembers(c, EncodedEntries(entries)) == Ok(entries) <==> UntaggedEntries(entries)
  {
    hide Untagged, Decoded, Encoded;
    if entries != [] {
      assert EncodedEntries(entries)[1..] == EncodedEntries(entries[1..]);
      DecodeEncode(c, entries[0].value);
      DecodeEncodeEntries(c, entries[1..]);
      Consed(entries);
    }
  }

  // ---- Rows and tables as values --------------------------------------------

  function RowEntries(columns: seq<Column>, row: Row): seq<Entry> {
    if columns == [] then [] else [Entry(columns[0].name, Get(row, columns[0].name))] + RowEntries(columns[1..], row)
  }

  /** A dict as the row it is; a repeated key would keep its last value. */
  function RowOf(entries: seq<Entry>): Row {
    if entries == [] then map[]
    else map[entries[0].key := entries[0].value] + RowOf(entries[1..])
  }

  lemma {:induction false} RowOfEntries(columns: seq<Column>, row: Row)
    ensures var back := RowOf(RowEntries(columns, row));
      forall name :: (name in back <==> Named(columns, name)) && (name in back ==> back[name] == Get(row, name))
  {
    hide Get, Named;
    if columns == [] {
      NothingNamed();
    } else {
      var rest := RowEntries(columns[1..], row);
      RowOfEntries(columns[1..], row);
      assert RowEntries(columns, row)[1..] == rest;
      NamedRest(columns);
    }
  }

  lemma NamedRest(columns: seq<Column>)
    requires columns != []
    ensures forall name :: Named(columns, name) <==> name == columns[0].name || Named(columns[1..], name)
  {
    forall name ensures Named(columns, name) <==> name == columns[0].name || Named(columns[1..], name) {
      if Named(columns, name) && name != columns[0].name {
        var i :| 0 <= i < |columns| && columns[i].name == name;
        assert columns[1..][i - 1].name == name;
      }
      if Named(columns[1..], name) {
        var i :| 0 <= i < |columns[1..]| && columns[1..][i].name == name;
        assert columns[i + 1].name == name;
      }
    }
  }

  /** A row with exactly these columns survives as a dict. */
  lemma RowSurvives(columns: seq<Column>, row: Row)
    requires forall name :: name in row <==> Named(columns, name)
    ensures RowOf(RowEntries(columns, row)) == row
  {
    RowOfEntries(columns, row);
  }

  predicate Within(order: seq<int>, rows: Table) {
    forall i :: 0 <= i < |order| ==> order[i] in rows
  }

  predicate Lists(order: seq<int>, pk: int) {
    order != [] && (order[0] == pk || Lists(order[1..], pk))
  }

  lemma {:induction false} ListsWithin(order: seq<int>, rows: Table, pk: int)
    requires Within(order, rows) && Lists(order, pk)
    ensures pk in rows
  {
    if order[0] != pk {
      ListsWithin(order[1..], rows, pk);
    }
  }

  function TableEntries(columns: seq<Column>, rows: Table, order: seq<int>): seq<Entry>
    requires Within(order, rows)
  {
    if order == [] then []
    else [Entry(IntText(order[0]), Dict(RowEntries(columns, rows[order[0]])))] + TableEntries(columns, rows, order[1..])
  }

  /** Rows up to the first that raises for its id or for what it is, and whether none does. */
  datatype Listed = Listed(rows: seq<(int, Row)>, whole: bool)

  /** The rows a decoded table lists, ids read as numbers. */
  function ListedRows(entries: seq<Entry>): Listed {
    if entries == [] then Listed([], true)
    else
      var pk := ReadInt(entries[0].key);
      if pk.None? || !entries[0].value.Dict? then Listed([], false)
      else
        var rest := ListedRows(entries[1..]);
        Listed([(pk.value, RowOf(entries[0].value.entries))] + rest.rows, rest.whole)
  }

  function Listing(rows: Table, order: seq<int>): seq<(int, Row)>
    requires Within(order, rows)
  {
    if order == [] then []
    else [(order[0], rows[order[0]])] + Listing(rows, order[1..])
  }

  // ---- Files ----------------------------------------------------------------

  const SEQUENCE := "sequence"
  const ROWS := "rows"

  /** What `save_to_disk` writes for a model, its rows in some order. */
  function Payload(columns: seq<Column>, m: Model, order: seq<int>): Value
    requires Within(order, m.rows)
  {
    Dict([Entry(SEQUENCE, Int(m.sequence)), Entry(ROWS, Dict(TableEntries(columns, m.rows, order)))])
  }

  datatype Contents = Contents(listed: Listed, sequence: Option<int>)

  /** What a file gives: 1 if it has no sequence, None for one that is no number. Nothing if
      the file or its rows are no dict. */
  function ContentsOf(c: Constructors, file: Json): Option<Contents> {
    var payload := Decoded(c, file);
    if payload.Error? || !payload.value.Dict? then None
    else
      var rows, sequence := At(payload.value.entries, ROWS), At(payload.value.entries, SEQUENCE);
      if rows.Some? && !rows.value.Dict? then None
      else
        var listed := ListedRows(if rows.Some? then rows.value.entries else []);
        Some(Contents(listed,
          if sequence.None? then Some(1) else if sequence.value.Int? then Some(sequence.value.i) else None))
  }

  /** Rows were loaded, but a later one raised: the sequence stays. */
  function LoadedPart(conv: Conversions, columns: seq<Column>, m: Model, rows: seq<(int, Row)>): Outcome<Model> {
    Outcome(Loaded(conv, columns, m, 0, rows).state.(sequence := m.sequence), false)
  }

  /** `load_from_disk` for a model: rows first, then the saved sequence. */
  function LoadedFile(c: Constructors, conv: Conversions, columns: seq<Column>, m: Model, file: Json): Outcome<Model> {
    match ContentsOf(c, file)
    case None => Outcome(m, false)
    case Some(contents) =>
      if contents.listed.whole then LoadedWith(conv, columns, m, contents.listed.rows, contents.sequence)
      else LoadedPart(conv, columns, m, contents.listed.rows)
  }

  /** Loading a file into a model in order succeeds and keeps it in order exactly if the file
      lists no row that raises and, as an operation, the load is allowed; in particular the
      file's sequence must then be above every id in the table. */
  lemma FileKeepsOrder(c: Constructors, conv: Conversions, columns: seq<Column>, m: Model, file: Json)
    requires Inv(columns, m) && ContentsOf(c, file).Some?
    ensures var (r, contents) := (LoadedFile(c, conv, columns, m, file), ContentsOf(c, file).value);
      var load := Load(contents.listed.rows, contents.sequence);
      && (contents.listed.whole ==> r == Step(conv, columns, m, load))
      && (r.ok && Inv(columns, r.state) <==> contents.listed.whole && Allowed(conv, columns, m, load))
      && (r.ok && Inv(columns, r.state) && contents.sequence.Some? ==>
            forall pk :: pk in r.state.rows ==> pk < contents.sequence.value)
  {
    hide ContentsOf, Inv, LoadedWith, Allowed, LoadedPart;
    var contents := ContentsOf(c, file).value;
    PartFails(conv, columns, m, contents.listed.rows);
    LoadStep(conv, columns, m, contents.listed.rows, contents.sequence);
    SequenceAbove(columns, LoadedFile(c, conv, columns, m, file).state);
    if contents.sequence.Some? {
      LoadSets(conv, columns, m, contents.listed.rows, contents.sequence.value);
    }
  }

  lemma PartFails(conv: Conversions, columns: seq<Column>, m: Model, rows: seq<(int, Row)>)
    ensures !LoadedPart(conv, columns, m, rows).ok
  {
    hide Loaded;
  }

  lemma SequenceAbove(columns: seq<Column>, m: Model)
    ensures Inv(columns, m) ==> forall pk :: pk in m.rows ==> pk < m.sequence
  {
  }

  lemma LoadSets(conv: Conversions, columns: seq<Column>, m: Model, entries: seq<(int, Row)>, sequence: int)
    ensures var r := LoadedWith(conv, columns, m, entries, Some(sequence)); r.ok ==> r.state.sequence == sequence
  {
    hide Loaded;
  }

  /** A row the columns read back unchanged, with exactly those columns, and whose values
      survive the encoding. */
  ghost predicate Storable(c: Constructors, conv: Conversions, columns: seq<Column>, row: Row) {
    && Stable(conv, columns, row)
    && (forall name :: name in row <==> Named(columns, name))
    && (forall name :: name in row ==> Untagged(row[name]) && ReadsBack(c, row[name]))
  }

  ghost predicate Enumerates(order: seq<int>, rows: Table) {
    && Within(order, rows)
    && (forall pk :: pk in rows ==> Lists(order, pk))
    && (forall i, j :: 0 <= i < j < |order| ==> order[i] != order[j])
  }

  ghost predicate PlainNames(columns: seq<Column>) {
    forall i :: 0 <= i < |columns| ==> !Reserved(columns[i].name)
  }

  lemma NotReserved(s: string)
    requires s == [] || s[0] != '_'
    ensures !Reserved(s)
  {
    assert DECIMAL[0] == '_' && DATETIME[0] == '_' && SET[0] == '_';
  }

  lemma {:induction false} NoneReserved(entries: seq<Entry>)
    requires forall i :: 0 <= i < |entries| ==> !Reserved(entries[i].key)
    ensures !ReservedAmong(entries)
  {
    hide DECIMAL, DATETIME, SET;
    if entries != [] {
      assert forall i :: 0 <= i < |entries[1..]| ==> entries[1..][i] == entries[i + 1];
      NoneReserved(entries[1..]);
    }
  }

  lemma {:induction false} RowEncodes(c: Constructors, columns: seq<Column>, row: Row)
    requires PlainNames(columns) && forall name :: name in row ==> Untagged(row[name]) && ReadsBack(c, row[name])
    ensures var entries := RowEntries(columns, row);
      && (forall i :: 0 <= i < |entries| ==> !Reserved(entries[i].key))
      && UntaggedEntries(entries) && ReadsBackEntries(c, entries)
  {
    hide Untagged, ReadsBack, Reserved;
    if columns != [] {
      assert forall i :: 0 <= i < |columns[1..]| ==> columns[1..][i] == columns[i + 1];
      RowEncodes(c, columns[1..], row);
      NullEncodes(c);
      assert RowEntries(columns, row)[1..] == RowEntries(columns[1..], row);
    }
  }

  lemma NullEncodes(c: Constructors)
    ensures Untagged(Null) && ReadsBack(c, Null)
  {
  }

  lemma {:induction false} TableEncodes(c: Constructors, conv: Conversions, columns: seq<Column>, rows: Table,
        order: seq<int>)
    requires PlainNames(columns) && Within(order, rows)
    requires forall i :: 0 <= i < |order| ==> Storable(c, conv, columns, rows[order[i]])
    ensures var entries := TableEntries(columns, rows, order);
      && (forall i :: 0 <= i < |entries| ==> !Reserved(entries[i].key))
      && UntaggedEntries(entries) && ReadsBackEntries(c, entries)
      && ListedRows(entries) == Listed(Listing(rows, order), true)
  {
    hide Reserved, PlainNames, Stable, ReservedAmong, RowOf, RowEntries;
    if order != [] {
      TableEncodes(c, conv, columns, rows, order[1..]);
      var pk := order[0];
      RowEncodes(c, columns, rows[pk]);
      NoneReserved(RowEntries(columns, rows[pk]));
      NotReserved(IntText(pk));
      IntRoundTrip(pk);
      RowSurvives(columns, rows[pk]);
      assert TableEntries(columns, rows, order)[1..] == TableEntries(columns, rows, order[1..]);
    }
  }

  // ---- Saving, then loading -------------------------------------------------

  lemma {:induction false} ListingOf(conv: Conversions, columns: seq<Column>, base: Table, rows: Table, order: seq<int>)
    requires Within(order, rows)
    requires forall pk :: pk in rows ==> Stable(conv, columns, rows[pk])
    requires forall pk :: pk in base ==> !Lists(order, pk)
    requires forall i, j :: 0 <= i < j < |order| ==> order[i] != order[j]
    ensures var listing := Listing(rows, order);
      && |listing| == |order| && (forall i :: 0 <= i < |listing| ==> listing[i].0 == order[i])
      && (forall i :: 0 <= i < |listing| ==> Stable(conv, columns, listing[i].1))
      && (forall pk :: pk in RowsOf(base, listing) <==> pk in base || Lists(order, pk))
      && (forall pk :: pk in base && !Lists(order, pk) ==> RowsOf(base, listing)[pk] == base[pk])
      && (forall pk :: pk in rows && Lists(order, pk) ==> RowsOf(base, listing)[pk] == rows[pk])
    decreases |order|
  {
    hide Stable;
    if order != [] {
      var pk := order[0];
      NotListed(order);
      ListingOf(conv, columns, base[pk := rows[pk]], rows, order[1..]);
      assert Listing(rows, order)[0] == (pk, rows[pk]) && Listing(rows, order)[1..] == Listing(rows, order[1..]);
    }
  }

  lemma {:induction false} ListedAt(order: seq<int>, pk: int)
    requires Lists(order, pk)
    ensures exists i :: 0 <= i < |order| && order[i] == pk
  {
    if order[0] != pk {
      ListedAt(order[1..], pk);
      var i :| 0 <= i < |order[1..]| && order[1..][i] == pk;
      assert order[i + 1] == pk;
    }
  }

  lemma NotListed(order: seq<int>)
    requires order != [] && forall i, j :: 0 <= i < j < |order| ==> order[i] != order[j]
    ensures !Lists(order[1..], order[0])
  {
    if Lists(order[1..], order[0]) {
      ListedAt(order[1..], order[0]);
    }
  }

  lemma PayloadEncodes(c: Constructors, conv: Conversions, columns: seq<Column>, m: Model, order: seq<int>)
    requires PlainNames(columns) && Within(order, m.rows)
    requires forall i :: 0 <= i < |order| ==> Storable(c, conv, columns, m.rows[order[i]])
    ensures Decoded(c, Encoded(Payload(columns, m, order))) == Ok(Payload(columns, m, order))
    ensures ListedRows(TableEntries(columns, m.rows, order)) == Listed(Listing(m.rows, order), true)
  {
    hide Storable, PlainNames, TableEntries, Decoded, Encoded, ReservedAmong, Reserved;
    TableEncodes(c, conv, columns, m.rows, order);
    var table := TableEntries(columns, m.rows, order);
    NoneReserved(table);
    FieldNames();
    hide SEQUENCE, ROWS;
    NotReserved(SEQUENCE);
    NotReserved(ROWS);
    var entries := [Entry(SEQUENCE, Int(m.sequence)), Entry(ROWS, Dict(table))];
    NoneReserved(entries);
    PairOf(c, entries[0], entries[1]);
    DecodeEncode(c, Dict(entries));
  }

  lemma PairOf(c: Constructors, first: Entry, second: Entry)
    ensures UntaggedEntries([first, second]) <==> Untagged(first.value) && Untagged(second.value)
    ensures ReadsBackEntries(c, [first, second]) <==> ReadsBack(c, first.value) && ReadsBack(c, second.value)
  {
    hide Untagged, ReadsBack;
    assert [first, second][1..] == [second];
    LastOf(c, second);
  }

  lemma LastOf(c: Constructors, entry: Entry)
    ensures UntaggedEntries([entry]) <==> Untagged(entry.value)
    ensures ReadsBackEntries(c, [entry]) <==> ReadsBack(c, entry.value)
  {
    hide Untagged, ReadsBack;
    assert [entry][1..] == [];
  }

  lemma PairAt(first: Entry, second: Entry, key: string)
    ensures At([first, second], key)
         == if first.key == key then Some(first.value) else if second.key == key then Some(second.value) else None
  {
    assert [first, second][1..] == [second];
    OneEntry(second.key, second.value, key);
  }

  lemma FieldNames()
    ensures SEQUENCE != ROWS && SEQUENCE != [] && SEQUENCE[0] != '_' && ROWS != [] && ROWS[0] != '_'
  {
    assert |SEQUENCE| != |ROWS|;
  }

  /** Saving a model in order and loading the file into a freshly registered model restores
      it: rows, sequence and indexes. */
  lemma SaveLoadRestores(c: Constructors, conv: Conversions, columns: seq<Column>, m: Model, order: seq<int>)
    requires Inv(columns, m) && SameKinds(IndexesFor(columns), m.indexes) && PlainNames(columns)
    requires Enumerates(order, m.rows) && forall pk :: pk in m.rows ==> Storable(c, conv, columns, m.rows[pk])
    ensures LoadedFile(c, conv, columns, Registered(columns), Encoded(Payload(columns, m, order))) == Outcome(m, true)
  {
    AllStable(c, conv, columns, m.rows);
    EnumeratesWithin(order, m.rows);
    hide Stable, Storable, PlainNames, Inv, Enumerates, SameKinds, Decoded, Encoded, TableEntries, ListedRows,
        Listing, Loaded, IndexesFor;
    PayloadEncodes(c, conv, columns, m, order);
    RestoredFields(columns, m, order);
    Reloaded(conv, columns, m, order);
  }

  lemma Reloaded(conv: Conversions, columns: seq<Column>, m: Model, order: seq<int>)
    requires Inv(columns, m) && SameKinds(IndexesFor(columns), m.indexes)
    requires Enumerates(order, m.rows) && forall pk :: pk in m.rows ==> Stable(conv, columns, m.rows[pk])
    ensures var back := Loaded(conv, columns, Registered(columns), 0, Listing(m.rows, order));
      back.ok && back.state.(sequence := m.sequence) == m
  {
    hide Stable, Coherent, Loaded, Distinct, Named, Listing, IndexesFor, Enumerates;
    assert Within(order, m.rows) by {
      EnumeratesWithin(order, m.rows);
    }
    Relisted(conv, columns, m, order);
    var back := Loaded(conv, columns, Registered(columns), 0, Listing(m.rows, order));
    forall name | name in m.indexes ensures back.state.indexes[name] == m.indexes[name] {
      CoherentDetermined(back.state.indexes[name], m.indexes[name], m.rows, name);
    }
    assert back.state.indexes == m.indexes;
  }

  lemma EnumeratesWithin(order: seq<int>, rows: Table)
    requires Enumerates(order, rows)
    ensures Within(order, rows)
  {
  }

  lemma AllStable(c: Constructors, conv: Conversions, columns: seq<Column>, rows: Table)
    requires forall pk :: pk in rows ==> Storable(c, conv, columns, rows[pk])
    ensures forall pk :: pk in rows ==> Stable(conv, columns, rows[pk])
  {
    hide Stable;
  }

  lemma RestoredFields(columns: seq<Column>, m: Model, order: seq<int>)
    requires Within(order, m.rows)
    ensures var entries := Payload(columns, m, order).entries;
      At(entries, SEQUENCE) == Some(Int(m.sequence)) && At(entries, ROWS)
          == Some(Dict(TableEntries(columns, m.rows, order)))
  {
    hide At, TableEntries;
    FieldNames();
    hide SEQUENCE, ROWS;
    var first, second := Entry(SEQUENCE, Int(m.sequence)), Entry(ROWS, Dict(TableEntries(columns, m.rows, order)));
    PairAt(first, second, SEQUENCE);
    PairAt(first, second, ROWS);
  }

  /** Loading the listed rows of a model in order gives coherent indexes on the same rows. */
  lemma Relisted(conv: Conversions, columns: seq<Column>, m: Model, order: seq<int>)
    requires Inv(columns, m) && SameKinds(IndexesFor(columns), m.indexes)
    requires Enumerates(order, m.rows) && forall pk :: pk in m.rows ==> Stable(conv, columns, m.rows[pk])
    ensures var back := Loaded(conv, columns, Registered(columns), 0, Listing(m.rows, order));
      back.ok && back.state.rows == m.rows && AllCoherent(back.state) && SameKinds(m.indexes, back.state.indexes)
  {
    hide Stable, Coherent, Loaded, Distinct, Named, UniqueRespected, IndexesFor, Listing;
    ListingOf(conv, columns, map[], m.rows, order);
    var listing := Listing(m.rows, order);
    var back := RowsOf(map[], listing);
    forall pk ensures pk in back <==> pk in m.rows {
      if Lists(order, pk) {
        ListsWithin(order, m.rows, pk);
      }
    }
    assert back.Keys == m.rows.Keys;
    forall pk | pk in m.rows ensures back[pk] == m.rows[pk] {
      assert Lists(order, pk);
    }
    assert back == m.rows;
    CoherentUniques(m);
    UniquesBothWays(m.indexes, IndexesFor(columns), m.rows);
    RegisteredInOrder(columns);
    StableConverts(conv, columns, listing);
    LoadedShape(conv, columns, Registered(columns), 0, listing);
    ListingAt(m.rows, order);
    NothingToKeep(IndexesFor(columns).Keys, listing);
    LoadedExactly(conv, columns, Registered(columns), 0, listing);
  }

  lemma {:induction false} ListingAt(rows: Table, order: seq<int>)
    requires Within(order, rows)
    ensures forall i :: 0 <= i < |Listing(rows, order)| ==>
      Listing(rows, order)[i].0 in rows && Listing(rows, order)[i].1 == rows[Listing(rows, order)[i].0]
  {
    if order != [] {
      ListingAt(rows, order[1..]);
    }
  }

  /** Loading what a table lists into an empty one replaces nothing. */
  lemma NothingToKeep(names: set<string>, entries: seq<(int, Row)>)
    requires var end := RowsOf(map[], entries);
      forall i :: 0 <= i < |entries| ==> entries[i].0 in end && entries[i].1 == end[entries[i].0]
    ensures KeepsValues(names, map[], entries)
  {
    hide RowsOf;
  }

  // ---- Every run can be saved and restored ----------------------------------

  lemma {:induction false} KindsOfRemoved(columns: seq<Column>, indexes: Indexes, pk: int, row: Row)
    ensures SameKinds(indexes, RemovedIndexes(columns, indexes, pk, row))
  {
    hide Get;
    if columns != [] {
      var name := columns[0].name;
      KindsOfRemoved(columns[1..],
        if name in indexes then indexes[name := Interrupted(indexes[name], pk, Get(row, name))] else indexes, pk, row);
    }
  }

  lemma StepKeepsKinds(conv: Conversions, columns: seq<Column>, m: Model, op: Op)
    ensures SameKinds(m.indexes, Step(conv, columns, m, op).state.indexes)
  {
    hide UpdatedIndexes, RemovedIndexes, Loaded, Get;
    match op
    case Create(data) => KindsOfUpdated(columns, m.indexes, m.sequence, map[], data);
    case Save(pk, data) => KindsOfUpdated(columns, m.indexes, pk, Present(m.rows, pk), data);
    case Drop(pk) =>
      if pk in m.rows {
        KindsOfRemoved(columns, m.indexes, pk, m.rows[pk]);
      }
    case Clear =>
    case Load(entries, sequence) => LoadedShape(conv, columns, m, 0, entries);
  }

  ghost predicate AllStorable(c: Constructors, conv: Conversions, columns: seq<Column>, rows: Table) {
    forall pk :: pk in rows ==> Storable(c, conv, columns, rows[pk])
  }

  ghost predicate StorableOp(c: Constructors, conv: Conversions, columns: seq<Column>, op: Op) {
    match op
    case Create(data) => Storable(c, conv, columns, data)
    case Save(pk, data) => Storable(c, conv, columns, data)
    case Load(entries, _) => forall i :: 0 <= i < |entries| ==> ReadsStorable(c, conv, columns, entries[i].1)
    case _ => true
  }

  /** The row as read back, if it can be, survives the encoding. */
  ghost predicate ReadsStorable(c: Constructors, conv: Conversions, columns: seq<Column>, row: Row) {
    LoadedRow(conv, columns, row).Ok? ==> Storable(c, conv, columns, LoadedRow(conv, columns, row).value)
  }

  lemma {:induction false} LoadKeepsStorable(c: Constructors, conv: Conversions, columns: seq<Column>, m: Model,
        maxPk: int, entries: seq<(int, Row)>)
    requires AllStorable(c, conv, columns, m.rows)
    requires forall i :: 0 <= i < |entries| ==> ReadsStorable(c, conv, columns, entries[i].1)
    ensures AllStorable(c, conv, columns, Loaded(conv, columns, m, maxPk, entries).state.rows)
    decreases |entries|
  {
    hide Storable, LoadedRow, UpdatedIndexes;
    if entries != [] {
      assert ReadsStorable(c, conv, columns, entries[0].1);
      var row := LoadedRow(conv, columns, entries[0].1);
      if row.Ok? {
        var written := Written(columns, m, entries[0].0, map[], row.value);
        assert AllStorable(c, conv, columns, written.state.rows);
        if written.ok {
          LoadKeepsStorable(c, conv, columns, written.state, if entries[0].0 > maxPk then entries[0].0 else maxPk,
                            entries[1..]);
        }
      }
    }
  }

  lemma StepKeepsStorable(c: Constructors, conv: Conversions, columns: seq<Column>, m: Model, op: Op)
    requires AllStorable(c, conv, columns, m.rows) && StorableOp(c, conv, columns, op)
    ensures AllStorable(c, conv, columns, Step(conv, columns, m, op).state.rows)
  {
    if op.Load? {
      LoadKeepsStorable(c, conv, columns, m, 0, op.entries);
    }
    hide Storable, UpdatedIndexes, RemovedIndexes, Loaded;
  }

  lemma {:induction false} RunKeepsStorable(c: Constructors, conv: Conversions, columns: seq<Column>, m: Model,
        ops: seq<Op>)
    requires AllStorable(c, conv, columns, m.rows) && SameKinds(IndexesFor(columns), m.indexes)
    requires forall i :: 0 <= i < |ops| ==> StorableOp(c, conv, columns, ops[i])
    ensures AllStorable(c, conv, columns, Run(conv, columns, m, ops).rows)
    ensures SameKinds(IndexesFor(columns), Run(conv, columns, m, ops).indexes)
    decreases |ops|
  {
    hide AllStorable, StorableOp, Step, IndexesFor;
    if ops != [] {
      StepKeepsStorable(c, conv, columns, m, ops[0]);
      StepKeepsKinds(conv, columns, m, ops[0]);
      RunKeepsStorable(c, conv, columns, Step(conv, columns, m, ops[0]).state, ops[1..]);
    }
  }

  /** After any run of allowed operations, loads included, from an empty registered model and over rows
      that survive the encoding, saving and loading restores rows, sequence and indexes. */
  lemma RunRestores(c: Constructors, conv: Conversions, columns: seq<Column>, ops: seq<Op>, order: seq<int>)
    requires Distinct(columns) && PlainNames(columns) && Orderly(conv, columns, Registered(columns), ops)
    requires forall i :: 0 <= i < |ops| ==> StorableOp(c, conv, columns, ops[i])
    requires Enumerates(order, Run(conv, columns, Registered(columns), ops).rows)
    ensures var m := Run(conv, columns, Registered(columns), ops);
      Within(order, m.rows)
      && LoadedFile(c, conv, columns, Registered(columns), Encoded(Payload(columns, m, order))) == Outcome(m, true)
  {
    var start := Registered(columns);
    RegisteredInOrder(columns);
    assert AllStorable(c, conv, columns, start.rows);
    hide Inv, Orderly, Distinct, PlainNames, StorableOp, Storable, IndexesFor, Enumerates, Payload, LoadedFile,
        Encoded, Run;
    RunKeepsOrder(conv, columns, start, ops);
    RunKeepsStorable(c, conv, columns, start, ops);
    EnumeratesWithin(order, Run(conv, columns, start, ops).rows);
    SaveLoadRestores(c, conv, columns, Run(conv, columns, start, ops), order);
  }

  // ---- Runs of `save` -------------------------------------------------------

  /** The decoder's constructors read back what the columns' conversions write. */
  ghost predicate Compatible(c: Constructors, conv: Conversions) {
    && (forall s: string :: conv.decimal(s).Some? ==> c.decimal(Text(conv.decimal(s).value)) == conv.decimal(s))
    && (forall s: string :: conv.parse(s).Some? ==> c.datetime(Text(conv.parse(s).value)) == conv.parse(s))
    && (forall v: Value :: conv.timestamp(v).Some? ==> c.datetime(Text(conv.timestamp(v).value)) == conv.timestamp(v))
  }

  lemma ValidatedSurvives(c: Constructors, conv: Conversions, column: Column, v: Value)
    requires Compatible(c, conv) && Validated(conv, column, v).Ok? && Untagged(v) && ReadsBack(c, v)
    ensures Untagged(Validated(conv, column, v).value) && ReadsBack(c, Validated(conv, column, v).value)
  {
  }

  /** Attributes without reserved keys, whose decimals and datetimes read back. */
  ghost predicate Plain(c: Constructors, attributes: Row) {
    forall name :: name in attributes ==> Untagged(attributes[name]) && ReadsBack(c, attributes[name])
  }

  /** What `save` writes for such attributes survives the encoding. */
  lemma SavedRowStorable(c: Constructors, conv: Conversions, columns: seq<Column>, attributes: Row)
    requires Distinct(columns) && Compatible(c, conv) && Plain(c, attributes)
    requires ValidatedRow(conv, columns, attributes).Ok?
    ensures Storable(c, conv, columns, ValidatedRow(conv, columns, attributes).value)
  {
    hide Validated, ValidatedRow, Stable, Compatible, Untagged, ReadsBack;
    ValidatedColumns(conv, columns, attributes);
    SavedRowStable(conv, columns, attributes);
    var row := ValidatedRow(conv, columns, attributes).value;
    forall name | name in row ensures Untagged(row[name]) && ReadsBack(c, row[name]) {
      var i :| 0 <= i < |columns| && columns[i].name == name;
      NullEncodes(c);
      ValidatedSurvives(c, conv, columns[i], Get(attributes, name));
    }
  }

  /** The row is what `save` writes for some plain attributes. */
  ghost predicate SavedRow(c: Constructors, conv: Conversions, columns: seq<Column>, data: Row) {
    exists attributes :: Plain(c, attributes) && ValidatedRow(conv, columns, attributes) == Ok(data)
  }

  /** After any allowed run of saves with plain attributes, deletes and clears, saving and
      loading restores rows, sequence and indexes. */
  lemma SavedRunRestores(c: Constructors, conv: Conversions, columns: seq<Column>, ops: seq<Op>, order: seq<int>)
    requires Distinct(columns) && PlainNames(columns) && Compatible(c, conv)
    requires Orderly(conv, columns, Registered(columns), ops)
    requires forall i :: 0 <= i < |ops| ==>
      !ops[i].Load? && (ops[i].Create? || ops[i].Save? ==> SavedRow(c, conv, columns, ops[i].data))
    requires Enumerates(order, Run(conv, columns, Registered(columns), ops).rows)
    ensures var m := Run(conv, columns, Registered(columns), ops);
      Within(order, m.rows)
      && LoadedFile(c, conv, columns, Registered(columns), Encoded(Payload(columns, m, order))) == Outcome(m, true)
  {
    hide Orderly, Distinct, PlainNames, Compatible, Storable, Plain, Enumerates, Payload, LoadedFile, Encoded, Run,
        ValidatedRow, Registered;
    forall i | 0 <= i < |ops| ensures StorableOp(c, conv, columns, ops[i]) {
      if ops[i].Create? || ops[i].Save? {
        var attributes :| Plain(c, attributes) && ValidatedRow(conv, columns, attributes) == Ok(ops[i].data);
        SavedRowStorable(c, conv, columns, attributes);
      }
    }
    RunRestores(c, conv, columns, ops, order);
  }

  // ---- The whole store ------------------------------------------------------

  /** A file with the model's rows in some order. */
  ghost predicate SavedAs(file: Json, columns: seq<Column>, m: Model) {
    exists order :: Enumerates(order, m.rows) && file == Encoded(Payload(columns, m, order))
  }

  /** The ids of a table in some order; the original lists them as they were inserted. */
  method Order(rows: Table) returns (order: seq<int>)
    ensures Enumerates(order, rows)
  {
    order := [];
    var rest := rows.Keys;
    while rest != {}
      invariant rest <= rows.Keys && Within(order, rows)
      invariant forall pk :: pk in rows && pk !in rest ==> Lists(order, pk)
      invariant forall i :: 0 <= i < |order| ==> order[i] !in rest
      invariant forall i, j :: 0 <= i < j < |order| ==> order[i] != order[j]
      decreases |rest|
    {
      Inhabited(rest);
      var pk :| pk in rest;
      rest := rest - {pk};
      assert ([pk] + order)[1..] == order;
      order := [pk] + order;
    }
  }

  /** The data directory: the model names in `_meta.json`, if it is there and can be read, and
      the model files. */
  datatype Disk = Disk(meta: Option<seq<string>>, files: map<string, Json>)

  /** The names are those of the models, each once. */
  ghost predicate NamesAll(names: seq<string>, models: set<string>) {
    && (forall model :: model in names <==> model in models)
    && forall i, j :: 0 <= i < j < |names| ==> names[i] != names[j]
  }

  /** What saving leaves for a model: a new file, or the old one if writing it failed. */
  ghost predicate FileAfterSave(store: MemoryStore, before: map<string, Json>, after: map<string, Json>,
                                failing: set<string>, model: string)
    requires store.Valid()
    reads store
  {
    if model in store.tables && model !in failing then
      model in after && SavedAs(after[model], store.schemas[model], store.State(model))
    else if model in before then model in after && after[model] == before[model]
    else model !in after
  }

  method FileOf(store: MemoryStore, model: string) returns (file: Json)
    requires store.Valid() && model in store.tables
    ensures SavedAs(file, store.schemas[model], store.State(model))
  {
    hide Encoded, Payload, Enumerates;
    var order := Order(store.tables[model]);
    EnumeratesWithin(order, store.tables[model]);
    var m := Model(store.tables[model], store.sequences[model], store.indexes[model]);
    file := Encoded(Payload(store.schemas[model], m, order));
  }

  /** The models outside the rest are saved and named, the files of the others as they were. */
  ghost predicate SavedSoFar(store: MemoryStore, before: map<string, Json>, files: map<string, Json>,
                             failing: set<string>, names: seq<string>, rest: set<string>)
    requires store.Valid()
    reads store
  {
    && rest <= store.tables.Keys && NamesAll(names, store.tables.Keys - rest)
    && (forall model :: model !in rest ==> FileAfterSave(store, before, files, failing, model))
    && forall model :: model in rest ==>
         (model in files <==> model in before) && (model in files ==> files[model] == before[model])
  }

  /** `save_to_disk`: one file a model, then the meta file. A file whose writing fails stays
      as it was, and stops no other. */
  method SaveToDisk(store: MemoryStore, disk: Disk, failing: set<string>, metaFails: bool) returns (after: Disk)
    requires store.Valid()
    ensures forall model :: FileAfterSave(store, disk.files, after.files, failing, model)
    ensures if metaFails then after.meta == disk.meta
            else after.meta.Some? && NamesAll(after.meta.value, store.tables.Keys)
  {
    var files: map<string, Json>, names: seq<string> := disk.files, [];
    var rest := store.tables.Keys;
    NothingSaved(store, disk.files, failing);
    hide SavedSoFar, FileAfterSave, SavedAs, NamesAll;
    while rest != {}
      invariant rest <= store.tables.Keys && SavedSoFar(store, disk.files, files, failing, names, rest)
      decreases |rest|
    {
      var model :| model in rest;
      ghost var written := files;
      if model !in failing {
        var file := FileOf(store, model);
        files := files[model := file];
      }
      OneMoreSaved(store, disk.files, written, files, failing, names, rest, model);
      rest := rest - {model};
      names := names + [model];
    }
    AllNamed(store, disk.files, files, failing, names);
    after := Disk(if metaFails then disk.meta else Some(names), files);
  }

  lemma NothingSaved(store: MemoryStore, files: map<string, Json>, failing: set<string>)
    requires store.Valid()
    ensures SavedSoFar(store, files, files, failing, [], store.tables.Keys)
  {
  }

  lemma OneMoreSaved(store: MemoryStore, before: map<string, Json>, files: map<string, Json>, after: map<string, Json>,
        failing: set<string>, names: seq<string>, rest: set<string>, model: string)
    requires store.Valid() && SavedSoFar(store, before, files, failing, names, rest) && model in rest
    requires forall other :: other != model ==>
      (other in after <==> other in files) && (other in after ==> after[other] == files[other])
    requires if model in failing then after == files
             else model in after && SavedAs(after[model], store.schemas[model], store.State(model))
    ensures SavedSoFar(store, before, after, failing, names + [model], rest - {model})
  {
    hide SavedAs;
    OneMoreName(names, store.tables.Keys - rest, model);
    assert store.tables.Keys - (rest - {model}) == (store.tables.Keys - rest) + {model};
    forall other | other !in rest - {model} ensures FileAfterSave(store, before, after, failing, other) {
      assert other != model ==> FileAfterSave(store, before, files, failing, other);
    }
  }

  lemma AllNamed(store: MemoryStore, before: map<string, Json>, files: map<string, Json>, failing: set<string>,
        names: seq<string>)
    requires store.Valid() && SavedSoFar(store, before, files, failing, names, {})
    ensures NamesAll(names, store.tables.Keys)
    ensures forall model :: FileAfterSave(store, before, files, failing, model)
  {
    assert store.tables.Keys - {} == store.tables.Keys;
  }

  lemma OneMoreName(names: seq<string>, models: set<string>, model: string)
    requires NamesAll(names, models) && model !in models
    ensures NamesAll(names + [model], models + {model})
  {
  }

  lemma LoadedFileBy(c: Constructors, conv: Conversions, columns: seq<Column>, m: Model, file: Json)
    ensures LoadedFile(c, conv, columns, m, file)
         == match ContentsOf(c, file)
            case None => Outcome(m, false)
            case Some(contents) =>
              var loaded := Loaded(conv, columns, m, 0, contents.listed.rows);
              if !contents.listed.whole then Outcome(loaded.state.(sequence := m.sequence), false)
              else if loaded.ok && contents.sequence.Some?
              then Outcome(loaded.state.(sequence := contents.sequence.value), true)
              else loaded
  {
    hide ContentsOf, Loaded;
  }

  /** `load_from_disk` for one registered model. */
  method LoadModel(c: Constructors, conv: Conversions, store: MemoryStore, model: string, file: Json) returns (ok: bool)
    requires store.Valid() && model in store.tables
    modifies store`tables, store`indexes, store`sequences
    ensures store.Valid()
    ensures var w := LoadedFile(c, conv, store.schemas[model], old(store.State(model)), file);
      && ok == w.ok
      && store.tables == old(store.tables)[model := w.state.rows]
      && store.sequences == old(store.sequences)[model := w.state.sequence]
      && store.indexes == old(store.indexes)[model := w.state.indexes]
  {
    ghost var columns, before, sequences := store.schemas[model], store.State(model), store.sequences;
    LoadedFileBy(c, conv, columns, before, file);
    store.KeysAgree();
    hide *;
    store.StateOf(model);
    Unchanged(store.tables, model);
    Unchanged(store.sequences, model);
    Unchanged(store.indexes, model);
    var contents := ContentsOf(c, file);
    if contents.None? {
      return false;
    }
    var listed, sequence := contents.value.listed, contents.value.sequence;
    if !listed.whole {
      var _, _ := store.LoadRows(conv, model, listed.rows);
      return false;
    }
    ok := store.LoadTableData(conv, model, listed.rows);
    if ok && sequence.Some? {
      Overwritten(sequences, model, Loaded(conv, columns, before, 0, listed.rows).state.sequence, sequence.value);
      store.KeysAgree();
      store.SetSequence(model, sequence.value);
    }
  }

  /** A model after its file was loaded as often as it is named. */
  function LoadedBy(c: Constructors, conv: Conversions, columns: seq<Column>, m: Model, files: map<string, Json>,
        model: string, names: seq<string>): Model {
    if names == [] then m
    else
      var before := LoadedBy(c, conv, columns, m, files, model, names[..|names| - 1]);
      if names[|names| - 1] == model && model in files then LoadedFile(c, conv, columns, before, files[model]).state
      else before
  }

  function LoadedFrom(c: Constructors, conv: Conversions, columns: seq<Column>, m: Model, disk: Disk,
        model: string): Model {
    if disk.meta.None? then m else LoadedBy(c, conv, columns, m, disk.files, model, disk.meta.value)
  }

  /** Every registered model is as after loading the names so far. */
  ghost predicate LoadedSoFar(c: Constructors, conv: Conversions, store: MemoryStore, start: map<string, Model>,
                              files: map<string, Json>, names: seq<string>)
    requires store.Valid()
    reads store
  {
    store.tables.Keys == start.Keys
    && forall model :: model in store.tables ==>
         store.State(model) == LoadedBy(c, conv, store.schemas[model], start[model], files, model, names)
  }

  /** `load_from_disk`: the models that the meta file names, in that order; those that are not
      registered or have no file are skipped, and one that fails stops no other. */
  method LoadFromDisk(c: Constructors, conv: Conversions, store: MemoryStore, disk: Disk)
    requires store.Valid()
    modifies store`tables, store`indexes, store`sequences
    ensures store.Valid() && store.tables.Keys == old(store.tables.Keys)
    ensures forall model :: model in store.tables ==>
      store.State(model) == LoadedFrom(c, conv, store.schemas[model], old(store.State(model)), disk, model)
  {
    hide LoadedFile, LoadedBy;
    if disk.meta.None? {
      return;
    }
    ghost var start := map model | model in store.tables :: store.State(model);
    NoneLoaded(c, conv, store, start, disk.files);
    LoadNames(c, conv, store, start, disk.files, disk.meta.value);
  }

  lemma NoneLoaded(c: Constructors, conv: Conversions, store: MemoryStore, start: map<string, Model>,
        files: map<string, Json>)
    requires store.Valid() && start == map model | model in store.tables :: store.State(model)
    ensures LoadedSoFar(c, conv, store, start, files, [])
  {
  }

  method LoadNames(c: Constructors, conv: Conversions, store: MemoryStore, ghost start: map<string, Model>,
        files: map<string, Json>, names: seq<string>)
    requires store.Valid() && LoadedSoFar(c, conv, store, start, files, [])
    modifies store`tables, store`indexes, store`sequences
    ensures store.Valid() && LoadedSoFar(c, conv, store, start, files, names)
  {
    hide LoadedSoFar;
    for i := 0 to |names|
      invariant store.Valid() && LoadedSoFar(c, conv, store, start, files, names[..i])
    {
      LoadName(c, conv, store, start, files, names[..i], names[i]);
      assert names[..i + 1] == names[..i] + [names[i]];
    }
    assert names[..|names|] == names;
  }

  method LoadName(c: Constructors, conv: Conversions, store: MemoryStore, ghost start: map<string, Model>,
        files: map<string, Json>, ghost names: seq<string>, name: string)
    requires store.Valid() && LoadedSoFar(c, conv, store, start, files, names)
    modifies store`tables, store`indexes, store`sequences
    ensures store.Valid() && LoadedSoFar(c, conv, store, start, files, names + [name])
  {
    hide LoadedBy, LoadedFile;
    ghost var before := map model | model in store.tables :: store.State(model);
    if name in store.tables && name in files {
      var _ := LoadModel(c, conv, store, name, files[name]);
    }
    forall model | model in store.tables
      ensures store.State(model) == LoadedBy(c, conv, store.schemas[model], start[model], files, model, names + [name])
    {
      LoadedNext(c, conv, store.schemas[model], start[model], files, model, names, name);
      assert before[model] == LoadedBy(c, conv, store.schemas[model], start[model], files, model, names);
    }
  }

  lemma LoadedNext(c: Constructors, conv: Conversions, columns: seq<Column>, m: Model, files: map<string, Json>,
        model: string, names: seq<string>, name: string)
    ensures LoadedBy(c, conv, columns, m, files, model, names + [name])
         == if name == model && model in files
            then LoadedFile(c, conv, columns, LoadedBy(c, conv, columns, m, files, model, names), files[model]).state
            else LoadedBy(c, conv, columns, m, files, model, names)
  {
    hide LoadedFile;
    assert (names + [name])[..|names|] == names;
  }

  /** A model named once is loaded once. */
  lemma {:induction false} LoadedOnce(c: Constructors, conv: Conversions, columns: seq<Column>, m: Model,
        files: map<string, Json>, model: string, names: seq<string>)
    requires model in files && forall i, j :: 0 <= i < j < |names| ==> names[i] != names[j]
    ensures LoadedBy(c, conv, columns, m, files, model, names)
         == if model in names then LoadedFile(c, conv, columns, m, files[model]).state else m
  {
    hide LoadedFile;
    if names != [] {
      var front := names[..|names| - 1];
      LoadedOnce(c, conv, columns, m, files, model, front);
      assert names == front + [names[|names| - 1]];
    }
  }

  /** A model in order whose rows survive the encoding. */
  ghost predicate Restorable(c: Constructors, conv: Conversions, columns: seq<Column>, m: Model) {
    Inv(columns, m) && SameKinds(IndexesFor(columns), m.indexes) && PlainNames(columns)
        && AllStorable(c, conv, columns, m.rows)
  }

  /** The file saved for such a model restores it into an empty registered store. */
  lemma RestartRestores(c: Constructors, conv: Conversions, columns: seq<Column>, m: Model, file: Json)
    requires Restorable(c, conv, columns, m) && SavedAs(file, columns, m)
    ensures LoadedFile(c, conv, columns, Registered(columns), file) == Outcome(m, true)
  {
    hide Inv, PlainNames, Storable, IndexesFor, Enumerates, Payload, LoadedFile, Encoded;
    forall order | Enumerates(order, m.rows) ensures Within(order, m.rows) {
      EnumeratesWithin(order, m.rows);
    }
    var order :| Enumerates(order, m.rows) && file == Encoded(Payload(columns, m, order));
    SaveLoadRestores(c, conv, columns, m, order);
  }

  ghost predicate AllRestorable(c: Constructors, conv: Conversions, store: MemoryStore)
    requires store.Valid()
    reads store
  {
    forall model :: model in store.tables ==> Restorable(c, conv, store.schemas[model], store.State(model))
  }

  ghost predicate AllRegistered(store: MemoryStore)
    requires store.Valid()
    reads store
  {
    forall model :: model in store.tables ==> store.State(model) == Registered(store.schemas[model])
  }

  ghost predicate AllSaved(store: MemoryStore, disk: Disk)
    requires store.Valid()
    reads store
  {
    disk.meta.Some? && NamesAll(disk.meta.value, store.tables.Keys)
    && forall model :: model in store.tables ==>
         model in disk.files && SavedAs(disk.files[model], store.schemas[model], store.State(model))
  }

  ghost predicate AllLoaded(c: Constructors, conv: Conversions, store: MemoryStore, disk: Disk)
    requires store.Valid()
    reads store
  {
    forall model :: model in store.tables ==>
      store.State(model) == LoadedFrom(c, conv, store.schemas[model], Registered(store.schemas[model]), disk, model)
  }

  /** Saving a store without failures, into whatever directory, and loading it into another
      store with the same models registered and no rows gives the same tables, sequences
      and indexes. */
  method SaveThenLoad(c: Constructors, conv: Conversions, store: MemoryStore, disk: Disk, restarted: MemoryStore)
    requires store != restarted && store.Valid() && restarted.Valid() && restarted.schemas == store.schemas
    requires AllRestorable(c, conv, store) && AllRegistered(restarted)
    modifies restarted`tables, restarted`indexes, restarted`sequences
    ensures restarted.Valid() && restarted.tables == store.tables
    ensures restarted.sequences == store.sequences && restarted.indexes == store.indexes
  {
    var saved := SaveAll(store, disk);
    LoadIntoEmpty(c, conv, restarted, saved);
    AllRestored(c, conv, store, restarted, saved);
  }

  method SaveAll(store: MemoryStore, disk: Disk) returns (saved: Disk)
    requires store.Valid()
    ensures AllSaved(store, saved)
  {
    hide SavedAs;
    saved := SaveToDisk(store, disk, {}, false);
    assert forall model :: model in store.tables ==> FileAfterSave(store, disk.files, saved.files, {}, model);
  }

  method LoadIntoEmpty(c: Constructors, conv: Conversions, store: MemoryStore, disk: Disk)
    requires store.Valid() && AllRegistered(store)
    modifies store`tables, store`indexes, store`sequences
    ensures store.Valid() && AllLoaded(c, conv, store, disk)
  {
    hide LoadedFrom, Registered;
    LoadFromDisk(c, conv, store, disk);
  }

  lemma AllRestored(c: Constructors, conv: Conversions, store: MemoryStore, restarted: MemoryStore, disk: Disk)
    requires store.Valid() && restarted.Valid() && restarted.schemas == store.schemas
    requires AllRestorable(c, conv, store) && AllSaved(store, disk) && AllLoaded(c, conv, restarted, disk)
    ensures restarted.tables == store.tables
    ensures restarted.sequences == store.sequences && restarted.indexes == store.indexes
  {
    hide Restorable, SavedAs, LoadedBy, Registered, LoadedFile;
    forall model | model in store.tables ensures store.State(model) == restarted.State(model) {
      RestartRestores(c, conv, store.schemas[model], store.State(model), disk.files[model]);
      LoadedOnce(c, conv, store.schemas[model], Registered(store.schemas[model]), disk.files, model, disk.meta.value);
    }
    SameContents(store, restarted);
  }

  lemma SameContents(a: MemoryStore, b: MemoryStore)
    requires a.Valid() && b.Valid() && a.tables.Keys == b.tables.Keys
    requires forall model :: model in a.tables ==> a.State(model) == b.State(model)
    ensures a.tables == b.tables && a.sequences == b.sequences && a.indexes == b.indexes
  {
    forall model | model in a.tables
      ensures a.tables[model] == b.tables[model] && a.sequences[model] == b.sequences[model]
      ensures a.indexes[model] == b.indexes[model]
    {
      assert a.State(model) == b.State(model);
    }
  }
}
