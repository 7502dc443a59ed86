/** Column types: validation on save and the storage forms (btpay/orm/columns.py). What
    Python's constructors and pendulum do with foreign values is a parameter. */
module Columns {
  import opened Values
  import opened Wrappers

  datatype Kind =
    | PlainKind | TextKind | IntegerKind | BooleanKind | FloatKind
    | DecimalKind | DateTimeKind | JsonKind | TagsKind

  datatype Column = Column(name: string, kind: Kind, required: bool, index: bool, unique: bool)

  /** `str(v)`, `int(v)`, `bool(v)`, `float(v)`, `str(Decimal(s))`, `d == 0` for a decimal,
      `pendulum.parse(s)` and `pendulum.from_timestamp(v)` as ISO text, and the stripped,
      non-empty parts of a comma-separated text; None where they raise. */
  datatype Conversions = Conversions(
    str: Value -> string,
    toInt: Value -> Option<int>,
    truth: Value -> bool,
    toFloat: Value -> Option<real>,
    decimal: string -> Option<string>,
    decimalIsZero: string -> bool,
    parse: string -> Option<string>,
    timestamp: Value -> Option<string>,
    parts: string -> set<string>)

  // ---- Sets of strings as lists ---------------------------------------------

  /** Lexicographic order. */
  predicate Below(a: string, b: string) {
    b != [] && (a == [] || a[0] < b[0] || (a[0] == b[0] && Below(a[1..], b[1..])))
  }

  lemma {:induction false} BelowTotal(a: string, b: string)
    ensures a == b || Below(a, b) || Below(b, a)
    ensures !(Below(a, b) && Below(b, a)) && !Below(a, a)
  {
    if a != [] && b != [] {
      BelowTotal(a[1..], b[1..]);
      BelowTotal(a[1..], a[1..]);
      assert a == [a[0]] + a[1..] && b == [b[0]] + b[1..];
    }
    if a != [] {
      BelowTotal(a[1..], a[1..]);
    }
  }

  lemma {:induction false} BelowTransitive(a: string, b: string, c: string)
    requires Below(a, b) && Below(b, c)
    ensures Below(a, c)
  {
    if a != [] && b != [] && c != [] && a[0] == b[0] == c[0] {
      BelowTransitive(a[1..], b[1..], c[1..]);
    }
  }

  predicate Least(m: string, s: set<string>) {
    m in s && forall x :: x in s && x != m ==> Below(m, x)
  }

  lemma {:induction false} LeastExists(s: set<string>)
    requires s != {}
    ensures exists m :: Least(m, s)
    decreases |s|
  {
    var x :| x in s;
    if s == {x} {
      assert Least(x, s);
    } else {
      LeastExists(s - {x});
      var m :| Least(m, s - {x});
      BelowTotal(m, x);
      if Below(m, x) {
        assert Least(m, s);
      } else {
        forall y | y in s && y != x ensures Below(x, y) {
          if y != m {
            BelowTransitive(x, m, y);
          }
        }
        assert Least(x, s);
      }
    }
  }

  lemma LeastUnique(s: set<string>)
    ensures forall m, n :: Least(m, s) && Least(n, s) ==> m == n
  {
    forall m, n | Least(m, s) && Least(n, s) ensures m == n {
      BelowTotal(m, n);
    }
  }

  /** `sorted(list(s))`. */
  function Sorted(s: set<string>): seq<string>
    decreases |s|
  {
    if s == {} then []
    else
      LeastExists(s);
      LeastUnique(s);
      var m :| Least(m, s);
      [m] + Sorted(s - {m})
  }

  function AsTexts(strings: seq<string>): (items: seq<Value>)
    ensures |items| == |strings| && forall i :: 0 <= i < |items| ==> items[i] == Text(strings[i])
  {
    seq(|strings|, i requires 0 <= i < |strings| => Text(strings[i]))
  }

  predicate AllText(items: seq<Value>) {
    forall i :: 0 <= i < |items| ==> items[i].Text?
  }

  /** `set(items)` for a list of strings. */
  function SetOf(items: seq<Value>): set<string>
    requires AllText(items)
  {
    if items == [] then {} else {items[0].text} + SetOf(items[1..])
  }

  lemma {:induction false} SortedKeepsElements(s: set<string>)
    ensures SetOf(AsTexts(Sorted(s))) == s
    decreases |s|
  {
    if s != {} {
      var m := Sorted(s)[0];
      SortedKeepsElements(s - {m});
      assert AsTexts(Sorted(s))[1..] == AsTexts(Sorted(s - {m}));
    }
  }

  /** And they are in order. */
  lemma {:induction false} SortedAscends(s: set<string>)
    ensures forall i, j :: 0 <= i < j < |Sorted(s)| ==> Below(Sorted(s)[i], Sorted(s)[j])
    decreases |s|
  {
    if s != {} {
      var m, rest := Sorted(s)[0], Sorted(s)[1..];
      SortedAscends(s - {m});
      forall j | 0 <= j < |rest|
        ensures Below(m, rest[j])
      {
        SortedHolds(s - {m}, j);
      }
      hide Below;
    }
  }

  lemma {:induction false} SortedHolds(s: set<string>, i: nat)
    requires i < |Sorted(s)|
    ensures Sorted(s)[i] in s
    decreases |s|
  {
    var m := Sorted(s)[0];
    if i > 0 {
      SortedHolds(s - {m}, i - 1);
    }
  }

  // ---- Validation and storage -----------------------------------------------

  function Str(conv: Conversions, v: Value): string {
    if v.Text? then v.text else conv.str(v)
  }

  /** `value == 0`, as DateTimeColumn asks it. */
  predicate IsZero(conv: Conversions, v: Value) {
    match v
    case Bool(b) => !b
    case Int(i) => i == 0
    case Float(r) => r == 0.0
    case Dec(d) => conv.decimalIsZero(d)
    case _ => false
  }

  function AsDecimal(conv: Conversions, v: Value): Result<Value> {
    if v.Null? || v.Dec? then Ok(v)
    else
      match conv.decimal(Str(conv, v))
      case None => Error
      case Some(d) => Ok(Dec(d))
  }

  function AsDate(conv: Conversions, v: Value): Result<Value> {
    if v.Null? || IsZero(conv, v) then Ok(Null)
    else if v.Text? || v.Int? || v.Float? || v.Bool? then
      match (if v.Text? then conv.parse(v.text) else conv.timestamp(v))
      case None => Error
      case Some(iso) => Ok(Date(iso))
    else Ok(v)
  }

  /** The set of a value that is not text; tags are strings in this model. */
  function AsTags(v: Value): Result<Value> {
    match v
    case Null => Ok(Tags({}))
    case Tags(tags) => Ok(v)
    case List(items) => if AllText(items) then Ok(Tags(SetOf(items))) else Error
    case Dict(entries) => Ok(Tags(set i | 0 <= i < |entries| :: entries[i].key))
    case _ => Error
  }

  /** `validate`, which `save` applies to every column. */
  function Validated(conv: Conversions, c: Column, v: Value): Result<Value> {
    if c.required && v.Null? then Error
    else
      match c.kind
      case PlainKind => Ok(v)
      case JsonKind => Ok(v)
      case TextKind => Ok(if v.Null? then v else Text(Str(conv, v)))
      case IntegerKind =>
        if v.Null? || v.Int? then Ok(v)
        else (match conv.toInt(v) case None => Error case Some(i) => Ok(Int(i)))
      case BooleanKind => Ok(if v.Null? || v.Bool? then v else Bool(conv.truth(v)))
      case FloatKind =>
        if v.Null? || v.Float? then Ok(v)
        else (match conv.toFloat(v) case None => Error case Some(r) => Ok(Float(r)))
      case DecimalKind => AsDecimal(conv, v)
      case DateTimeKind => AsDate(conv, v)
      case TagsKind => if v.Text? then Ok(Tags(conv.parts(v.text))) else AsTags(v)
  }

  /** `to_storage`. */
  function ToStorage(c: Column, v: Value): Value {
    match c.kind
    case DecimalKind => if v.Dec? then Text(v.dec) else v
    case DateTimeKind => if v.Date? then Text(v.iso) else Null
    case TagsKind => if v.Tags? then List(AsTexts(Sorted(v.tags))) else if v.Null? then List([]) else v
    case _ => v
  }

  /** `from_storage`. */
  function FromStorage(conv: Conversions, c: Column, v: Value): Result<Value> {
    match c.kind
    case DecimalKind => AsDecimal(conv, v)
    case DateTimeKind => AsDate(conv, v)
    case TagsKind => if v.Text? then Ok(Tags(set i | 0 <= i < |v.text| :: [v.text[i]])) else AsTags(v)
    case _ => Ok(v)
  }

  /** What an attribute of a column is after saving. A datetime column only converts texts,
      numbers and zeros. */
  predicate HasType(conv: Conversions, kind: Kind, v: Value) {
    match kind
    case PlainKind => true
    case JsonKind => true
    case TextKind => v.Null? || v.Text?
    case IntegerKind => v.Null? || v.Int?
    case BooleanKind => v.Null? || v.Bool?
    case FloatKind => v.Null? || v.Float?
    case DecimalKind => v.Null? || v.Dec?
    case DateTimeKind => !v.Text? && !v.Int? && !v.Float? && !v.Bool? && !(v.Dec? && conv.decimalIsZero(v.dec))
    case TagsKind => v.Tags?
  }

  /** Validation gives a value of the column's type, leaves one that has it as it is, and
      refuses None exactly where a value is required. */
  lemma ValidatedTyped(conv: Conversions, c: Column, v: Value)
    ensures Validated(conv, c, v).Ok? ==> HasType(conv, c.kind, Validated(conv, c, v).value)
    ensures HasType(conv, c.kind, v) && !(c.required && v.Null?) ==> Validated(conv, c, v) == Ok(v)
    ensures v.Null? ==> (Validated(conv, c, v) == Error <==> c.required)
  {
  }

  /** Reading back a validated value as it is does not change it. */
  lemma ValidatedIsStable(conv: Conversions, c: Column, v: Value)
    requires Validated(conv, c, v).Ok?
    ensures FromStorage(conv, c, Validated(conv, c, v).value) == Validated(conv, c, v)
  {
  }

  /** The texts of a value, where it has one, read back as the value. */
  predicate Readable(conv: Conversions, v: Value) {
    (v.Dec? ==> conv.decimal(v.dec) == Some(v.dec)) && (v.Date? ==> conv.parse(v.iso) == Some(v.iso))
  }

  /** The storage form of a validated value reads back, except that a datetime column
      stores anything but a datetime as None: `validate` lets such values through. */
  lemma StorageRoundTrip(conv: Conversions, c: Column, v: Value)
    requires Validated(conv, c, v).Ok? && Readable(conv, Validated(conv, c, v).value)
    ensures var w := Validated(conv, c, v).value;
      FromStorage(conv, c, ToStorage(c, w)) == Ok(w) <==> (c.kind == DateTimeKind ==> w.Null? || w.Date?)
  {
    var w := Validated(conv, c, v).value;
    if w.Tags? {
      SortedKeepsElements(w.tags);
    }
  }
}
