/**
  The structural checker of the test suite (tests/__init__.py):
  `assertDictStructure` compares a schema (a dict whose values are types,
  nested schema dicts, or one-element lists of either) with an actual JSON
  object, and `path_to_dict_path` renders a key path for its messages.

  The checker is modelled as a predicate: it holds exactly when the Python
  method returns without raising. Every exception it can raise (a failed
  assertion, an index error on an empty list schema, a type error on a list
  inside a list schema, an attribute error on a list entry that is not a
  dict) makes the predicate false.
*/
module StructureCheck {
  import opened JsonValues

  // ---------------------------------------------------------------------------
  // Types and schemas
  // ---------------------------------------------------------------------------

  /** The Python types a parsed JSON value can have. */
  datatype PyType = NoneType | BoolType | IntType | FloatType | StrType | ListType | DictType

  /** `type(v)` of a parsed JSON value. */
  function TypeOf(v: Json): PyType {
    match v
    case Null => NoneType
    case Bool(_) => BoolType
    case Int(_) => IntType
    case Float(_) => FloatType
    case Str(_) => StrType
    case Array(_) => ListType
    case Object(_) => DictType
  }

  /**
    A value of an expected dict: a type (`str`, `int`, `dict`, ...), a
    nested expected dict, or a list whose first element describes every
    entry of the actual list.
  */
  datatype Schema =
    | Type(t: PyType)
    | Fields(fields: map<string, Schema>)
    | ListOf(items: seq<Schema>)

  /**
    A schema the checker can apply to any document: every list schema has a
    first element, and that element is not itself a list.
  */
  ghost predicate WellFormed(s: Schema) {
    match s
    case Type(_) => true
    case Fields(fs) => forall k :: k in fs ==> WellFormed(fs[k])
    case ListOf(items) => |items| > 0 && !items[0].ListOf? && WellFormed(items[0])
  }

  // ---------------------------------------------------------------------------
  // `assertDictStructure`
  // ---------------------------------------------------------------------------

  /**
    `assertDictStructure(expected, actual)` returns without raising: the key
    sets are equal and every value conforms to its schema entry.
  */
  predicate DictStructure(expected: map<string, Schema>, actual: map<string, Json>)
    ensures DictStructure(expected, actual) ==> expected.Keys == actual.Keys
    ensures DictStructure(expected, actual) ==>
              forall key :: key in actual ==> TypeOf(actual[key]) == ShapeType(expected[key])
    decreases Fields(expected), 0
  {
    && expected.Keys == actual.Keys
    && forall key :: key in actual ==> EntryConforms(expected[key], actual[key])
  }

  /**
    The check of one value against the schema entry for its key: a dict
    entry needs a dict that conforms recursively, a list entry needs a list
    whose every element conforms to the list's first element, and a type
    entry needs a value of that type.
  */
  predicate EntryConforms(e: Schema, v: Json)
    ensures EntryConforms(e, v) ==> TypeOf(v) == ShapeType(e)
    ensures EntryConforms(e, v) && e.ListOf? ==> |e.items| > 0
    decreases e, 1
  {
    match e
    case Fields(fs) => v.Object? && DictStructure(fs, v.fields)
    case ListOf(items) =>
      && v.Array?
      && |items| > 0
      && forall i :: 0 <= i < |v.items| ==> ElementConforms(items[0], v.items[i])
    case Type(t) => TypeOf(v) == t
  }

  /**
    The check of one list element against the list schema's first element:
    as for a dict entry, except that a list there is not a type and fails.
  */
  predicate ElementConforms(e: Schema, v: Json)
    ensures ElementConforms(e, v) ==> !e.ListOf? && TypeOf(v) == ShapeType(e)
    decreases e, 2
  {
    !e.ListOf? && EntryConforms(e, v)
  }

  /** The Python type a schema entry asks for: `dict`, `list`, or the named type. */
  function ShapeType(e: Schema): PyType {
    match e
    case Fields(_) => DictType
    case ListOf(_) => ListType
    case Type(t) => t
  }

  /**
    A value that passes a schema entry has the type the entry describes; for
    a type entry the converse holds too.
  */
  lemma ConformingValueHasSchemaType(e: Schema, v: Json)
    ensures EntryConforms(e, v) ==> TypeOf(v) == ShapeType(e)
    ensures e.Type? ==> (EntryConforms(e, v) <==> TypeOf(v) == e.t)
  {
  }

  /** Differing key sets always fail, whatever the values. */
  lemma KeySetsMustMatch(expected: map<string, Schema>, actual: map<string, Json>)
    requires expected.Keys != actual.Keys
    ensures !DictStructure(expected, actual)
  {
  }

  /** A failure with equal key sets is a failure at some key. */
  lemma FailureHasKey(expected: map<string, Schema>, actual: map<string, Json>)
    requires expected.Keys == actual.Keys && !DictStructure(expected, actual)
    ensures exists key :: key in actual && !EntryConforms(expected[key], actual[key])
  {
  }

  /** A list schema without a first element rejects every value. */
  lemma EmptyListSchemaFails(v: Json)
    ensures !EntryConforms(ListOf([]), v)
  {
  }

  /** An empty actual list passes any list schema that has a first element. */
  lemma EmptyListPasses(items: seq<Schema>)
    requires |items| > 0
    ensures EntryConforms(ListOf(items), Array([]))
  {
  }

  /** Only the first element of a list schema is ever consulted. */
  lemma ListSchemaUsesFirstOnly(items: seq<Schema>, rest: seq<Schema>, v: Json)
    requires |items| > 0
    ensures EntryConforms(ListOf(items), v) == EntryConforms(ListOf([items[0]] + rest), v)
  {
  }

  /**
    A list conforms exactly when both of its halves do: the elements are
    checked one by one, independently of each other.
  */
  lemma ListConformsSplit(items: seq<Schema>, a: seq<Json>, b: seq<Json>)
    ensures EntryConforms(ListOf(items), Array(a + b))
        <==> EntryConforms(ListOf(items), Array(a)) && EntryConforms(ListOf(items), Array(b))
  {
    if |items| > 0 {
      var e := items[0];
      if EntryConforms(ListOf(items), Array(a + b)) {
        forall i | 0 <= i < |a| ensures ElementConforms(e, a[i]) {
          assert a[i] == (a + b)[i];
        }
        forall i | 0 <= i < |b| ensures ElementConforms(e, b[i]) {
          assert b[i] == (a + b)[|a| + i];
        }
      }
      if EntryConforms(ListOf(items), Array(a)) && EntryConforms(ListOf(items), Array(b)) {
        forall i | 0 <= i < |a + b| ensures ElementConforms(e, (a + b)[i]) {
          if i < |a| {
            assert (a + b)[i] == a[i];
          } else {
            assert (a + b)[i] == b[i - |a|];
          }
        }
      }
    }
  }

  /** Replacing a value by another that conforms keeps the document conforming. */
  lemma UpdateKeepsStructure(expected: map<string, Schema>, actual: map<string, Json>, key: string, v: Json)
    requires DictStructure(expected, actual)
    requires key in actual && EntryConforms(expected[key], v)
    ensures DictStructure(expected, actual[key := v])
  {
  }

  /** Dropping a key from both the schema and the document keeps it conforming. */
  lemma RemoveKeepsStructure(expected: map<string, Schema>, actual: map<string, Json>, key: string)
    requires DictStructure(expected, actual)
    ensures DictStructure(expected - {key}, actual - {key})
  {
  }

  /** Conforming documents over disjoint keys merge into a conforming document. */
  lemma MergeKeepsStructure(e1: map<string, Schema>, a1: map<string, Json>, e2: map<string, Schema>, a2: map<string, Json>)
    requires DictStructure(e1, a1) && DictStructure(e2, a2)
    requires e1.Keys !! e2.Keys
    ensures DictStructure(e1 + e2, a1 + a2)
  {
  }

  // ---------------------------------------------------------------------------
  // Every well-formed schema is satisfiable
  // ---------------------------------------------------------------------------

  /** A value of each type. */
  function DefaultOf(t: PyType): (v: Json)
    ensures TypeOf(v) == t
  {
    match t
    case NoneType => Null
    case BoolType => Bool(false)
    case IntType => Int(0)
    case FloatType => Float(0.0)
    case StrType => Str("")
    case ListType => Array([])
    case DictType => Object(map[])
  }

  /** A document shaped after a schema, with one element in every list. */
  function Instance(s: Schema): Json
    decreases s
  {
    match s
    case Type(t) => DefaultOf(t)
    case Fields(fs) => Object(map k | k in fs :: Instance(fs[k]))
    case ListOf(items) => if |items| > 0 then Array([Instance(items[0])]) else Array([])
  }

  /** The document built from a well-formed schema passes the checker. */
  lemma {:induction false} InstanceConforms(s: Schema)
    requires WellFormed(s)
    ensures EntryConforms(s, Instance(s))
    decreases s
  {
    match s
    case Type(t) =>
    case Fields(fs) =>
      forall k | k in fs
        ensures EntryConforms(fs[k], Instance(fs[k]))
      {
        InstanceConforms(fs[k]);
      }
    case ListOf(items) =>
      InstanceConforms(items[0]);
  }

  // ---------------------------------------------------------------------------
  // `path_to_dict_path`
  // ---------------------------------------------------------------------------

  /** A step of a key path: a dict key, or a list position added for list entries. */
  datatype PathKey = Key(name: string) | Index(i: nat)

  function Digit(d: nat): (c: char)
    requires d < 10
    ensures '0' <= c <= '9'
  {
    ('0' as int + d) as char
  }

  /** The number a string of decimal digits denotes, read left to right. */
  function DigitsValue(s: string): nat
    requires forall i :: 0 <= i < |s| ==> '0' <= s[i] <= '9'
  {
    if s == [] then 0 else DigitsValue(s[..|s| - 1]) * 10 + (s[|s| - 1] as int - '0' as int)
  }

  /**
    `str(n)` for a natural number: a non-empty string of decimal digits that
    denotes `n`, with no leading zero unless `n` is zero. These pin the
    string down to Python's rendering of `n`.
  */
  function Decimal(n: nat): (r: string)
    ensures |r| >= 1
    ensures forall i :: 0 <= i < |r| ==> '0' <= r[i] <= '9'
    ensures DigitsValue(r) == n
    ensures r[0] == '0' ==> n == 0 && r == "0"
  {
    if n < 10 then [Digit(n)]
    else
      var r := Decimal(n / 10) + [Digit(n % 10)];
      assert r[..|r| - 1] == Decimal(n / 10);
      r
  }

  /** The text of a path step inside an f-string. */
  function KeyText(k: PathKey): string {
    match k
    case Key(name) => name
    case Index(i) => Decimal(i)
  }

  /** `f"['{key}']"`. */
  function Segment(k: PathKey): string {
    "['" + KeyText(k) + "']"
  }

  /**
    `path_to_dict_path(path)`: the segments of the steps, joined in order. It
    is `len(key) + 4` characters long per step.
  */
  function DictPath(path: seq<PathKey>): (r: string)
    ensures |r| == RenderedLength(path)
  {
    if path == [] then "" else Segment(path[0]) + DictPath(path[1..])
  }

  /** The total length of the rendered path: four bracket characters per step. */
  function RenderedLength(path: seq<PathKey>): nat {
    if path == [] then 0 else |KeyText(path[0])| + 4 + RenderedLength(path[1..])
  }

  /** The empty path renders as the empty string. */
  lemma DictPathEmpty()
    ensures DictPath([]) == ""
  {
  }

  /** Rendering a concatenated path concatenates the renderings. */
  lemma {:induction false} DictPathAppend(p: seq<PathKey>, q: seq<PathKey>)
    ensures DictPath(p + q) == DictPath(p) + DictPath(q)
  {
    if p == [] {
      assert p + q == q;
    } else {
      assert (p + q)[1..] == p[1..] + q;
      DictPathAppend(p[1..], q);
    }
  }

  /** Extending a path by one key appends exactly that key's segment. */
  lemma DictPathExtend(p: seq<PathKey>, k: PathKey)
    ensures DictPath(p + [k]) == DictPath(p) + "['" + KeyText(k) + "']"
  {
    DictPathAppend(p, [k]);
    assert DictPath([k]) == Segment(k) + DictPath([]);
  }

  /** The documented example. */
  lemma DictPathExample()
    ensures DictPath([Key("layer1"), Key("layer2"), Key("key")]) == "['layer1']['layer2']['key']"
  {
    var a, b, c := Key("layer1"), Key("layer2"), Key("key");
    assert [] + [a] == [a] && [a] + [b] == [a, b] && [a, b] + [c] == [a, b, c];
    DictPathExtend([], a);
    assert DictPath([a]) == "['layer1']";
    DictPathExtend([a], b);
    assert DictPath([a, b]) == "['layer1']['layer2']";
    DictPathExtend([a, b], c);
  }

  /** A path through a list entry renders the position in decimal. */
  lemma DictPathIndexExample()
    ensures DictPath([Key("data"), Index(12)]) == "['data']['12']"
  {
    assert Decimal(12) == "12";
    assert DictPath([Index(12)]) == "['12']";
  }
}
