/** Settings trees, dotted paths, and the flat form kept in the database (src/settings.rs). */
module Settings {
  import opened Wrappers

  datatype Json =
    | Null
    | Bool(b: bool)
    | Num(n: int)
    | Float(x: real)
    | Str(s: string)
    | Arr(items: seq<Json>)
    | Obj(fields: map<string, Json>)

  /** The types of the fields; an optional field serializes to null when it is unset. */
  datatype Type =
    | BoolType
    | IntType(lo: int, hi: int)
    | TextType
    | ChoiceType(names: set<string>)
    | TextListType
    | OptionalType(inner: Type)

  /**
   The shape of a settings struct. A leaf has two defaults: `initial` is the struct's own Default and
   `missing` is what deserialization puts in for an absent key.
   */
  datatype Schema =
    | Leaf(ty: Type, initial: Json, missing: Json)
    | Node(fields: map<string, Schema>, aliases: set<string>)

  datatype SetError =
    | PathNotFound
    | ParentNotObject
    | ExpectedBoolean
    | ExpectedInteger
    | ExpectedNumber
    | InvalidJson
    | ApplyFailed
    | UnknownSetting

  // ---------------------------------------------------------------------
  // Text
  // ---------------------------------------------------------------------

  function Digits(n: nat): string {
    (if n < 10 then "" else Digits(n / 10)) + [('0' as int + n % 10) as char]
  }

  function Decimal(n: int): string {
    if n < 0 then "-" + Digits(-n) else Digits(n)
  }

  function ParseDigits(t: string): Option<nat> {
    if t == "" then Some(0)
    else
      var last := t[|t| - 1];
      match ParseDigits(t[..|t| - 1])
      case Some(n) => if '0' <= last <= '9' then Some(10 * n + (last as int - '0' as int)) else None
      case None => None
  }

  const U64_MAX: int := 0xFFFF_FFFF_FFFF_FFFF
  const I64_MAX: int := 0x7FFF_FFFF_FFFF_FFFF

  function ParseU64(t: string): Option<int> {
    var digits := if t != "" && t[0] == '+' then t[1..] else t;
    match ParseDigits(digits)
    case Some(n) => if digits != "" && n <= U64_MAX then Some(n) else None
    case None => None
  }

  function ParseI64(t: string): Option<int> {
    var negative := t != "" && t[0] == '-';
    var digits := if t != "" && (t[0] == '+' || negative) then t[1..] else t;
    match ParseDigits(digits)
    case Some(n) =>
      var magnitude: int := n;
      var value := if negative then -magnitude else magnitude;
      if digits != "" && -I64_MAX - 1 <= value <= I64_MAX then Some(value) else None
    case None => None
  }

  function ParseBool(t: string): Option<bool> {
    if t == "true" then Some(true) else if t == "false" then Some(false) else None
  }

  /**
   The JSON and floating-point text formats. `showTree` prints arrays and objects, `parse` reads any JSON
   text, and `parseFloat` reads a float, with Some(None) for infinities and NaN, which JSON cannot hold.
   */
  datatype Codec = Codec(
    parse: string -> Option<Json>,
    showTree: Json -> string,
    showFloat: real -> string,
    parseFloat: string -> Option<Option<real>>)

  /** A tree without floats. */
  ghost predicate FloatFree(v: Json) {
    && !v.Float?
    && (v.Arr? ==> forall i :: 0 <= i < |v.items| ==> FloatFree(v.items[i]))
    && (v.Obj? ==> forall k :: k in v.fields ==> FloatFree(v.fields[k]))
  }

  function Text(codec: Codec, v: Json): string {
    match v
    case Null => "null"
    case Bool(b) => if b then "true" else "false"
    case Num(n) => Decimal(n)
    case Float(x) => codec.showFloat(x)
    case Str(s) => s
    case Arr(_) => codec.showTree(v)
    case Obj(_) => codec.showTree(v)
  }

  lemma {:induction false} ParseOfDigits(n: nat)
    ensures Digits(n) != "" && '0' <= Digits(n)[0] <= '9'
    ensures ParseDigits(Digits(n)) == Some(n)
  {
    var front := if n < 10 then "" else Digits(n / 10);
    assert Digits(n)[..|Digits(n)| - 1] == front;
    if n >= 10 {
      ParseOfDigits(n / 10);
    }
  }

  lemma ParseOfDecimal(n: nat)
    requires n <= U64_MAX
    ensures ParseU64(Decimal(n)) == Some(n)
  {
    ParseOfDigits(n);
  }

  // ---------------------------------------------------------------------
  // Dotted paths
  // ---------------------------------------------------------------------

  function Split(path: string): (parts: seq<string>)
    ensures parts != []
  {
    if path == "" then [""] else Glued(path[0], Split(path[1..]))
  }

  /** A character put before the first part; a dot starts a new part. */
  function Glued(c: char, parts: seq<string>): (glued: seq<string>)
    requires parts != []
    ensures glued != []
  {
    if c == '.' then [""] + parts else [[c] + parts[0]] + parts[1..]
  }

  function Join(parts: seq<string>): string
    requires parts != []
  {
    if |parts| == 1 then parts[0] else parts[0] + "." + Join(parts[1..])
  }

  predicate Plain(name: string) {
    name != "" && forall i :: 0 <= i < |name| ==> name[i] != '.'
  }

  lemma {:induction false} SplitOfName(name: string)
    requires '.' !in name
    ensures Split(name) == [name]
  {
    if name != "" {
      assert name[0] in name && '.' !in name[1..];
      SplitOfName(name[1..]);
      assert [name[0]] + name[1..] == name;
    }
  }

  lemma {:induction false} SplitOfDotted(a: string, b: string)
    ensures Split(a + "." + b) == Split(a) + Split(b)
  {
    hide Split;
    var whole := a + "." + b;
    SplitStep(whole);
    if a == "" {
      SplitOfName("");
      assert whole[0] == '.' && whole[1..] == b;
    } else {
      SplitStep(a);
      assert whole[0] == a[0] && whole[1..] == a[1..] + "." + b;
      SplitOfDotted(a[1..], b);
      GluedAppend(a[0], Split(a[1..]), Split(b));
    }
  }

  lemma GluedAppend(c: char, a: seq<string>, b: seq<string>)
    requires a != []
    ensures Glued(c, a + b) == Glued(c, a) + b
  {
  }

  lemma SplitStep(path: string)
    requires path != ""
    ensures Split(path) == Glued(path[0], Split(path[1..]))
  {
  }

  lemma {:induction false} JoinOfSplit(path: string)
    ensures Join(Split(path)) == path
  {
    if path != "" {
      var rest := Split(path[1..]);
      JoinOfSplit(path[1..]);
      if path[0] == '.' {
        assert ([""] + rest)[1..] == rest;
      } else {
        assert Split(path)[1..] == rest[1..];
      }
    }
  }

  /** Splitting is undone by joining, and joining by splitting when no name has a dot. */
  lemma {:induction false} SplitOfJoin(parts: seq<string>)
    requires parts != [] && forall i :: 0 <= i < |parts| ==> '.' !in parts[i]
    ensures Split(Join(parts)) == parts
  {
    SplitOfName(parts[0]);
    if |parts| > 1 {
      SplitOfJoin(parts[1..]);
      SplitOfDotted(parts[0], Join(parts[1..]));
    }
  }

  function At(v: Json, parts: seq<string>): Option<Json> {
    if parts == [] then Some(v)
    else if v.Obj? && parts[0] in v.fields then At(v.fields[parts[0]], parts[1..])
    else None
  }

  /** The value with the entry at `parts` replaced; the parent must be an object. */
  function Replace(v: Json, parts: seq<string>, x: Json): Json {
    if parts == [] then x
    else if !v.Obj? then v
    else if |parts| == 1 then Obj(v.fields[parts[0] := x])
    else if parts[0] in v.fields then Obj(v.fields[parts[0] := Replace(v.fields[parts[0]], parts[1..], x)])
    else v
  }

  // ---------------------------------------------------------------------
  // Values of a schema
  // ---------------------------------------------------------------------

  predicate Fits(ty: Type, v: Json) {
    match ty
    case BoolType => v.Bool?
    case IntType(lo, hi) => v.Num? && lo <= v.n <= hi
    case TextType => v.Str?
    case ChoiceType(names) => v.Str? && v.s in names
    case TextListType => v.Arr? && forall i :: 0 <= i < |v.items| ==> v.items[i].Str?
    case OptionalType(inner) => v.Null? || Fits(inner, v)
  }

  /** The serialized form of a settings struct: exactly its fields, each of its own type. */
  predicate Conforms(schema: Schema, v: Json) {
    match schema
    case Leaf(ty, _, _) => Fits(ty, v)
    case Node(fields, _) =>
      v.Obj? && v.fields.Keys == fields.Keys && forall k :: k in fields ==> Conforms(fields[k], v.fields[k])
  }

  /**
   The text of every array and object that has the shape of the schema, or of a part of it, reads back. Such
   trees are no deeper than the schema, and the integers in them are those that its types allow.
   */
  ghost predicate ReadsBack(codec: Codec, schema: Schema) {
    && (forall v: Json :: Conforms(schema, v) && (v.Arr? || v.Obj?) ==> codec.parse(codec.showTree(v)) == Some(v))
    && (schema.Node? ==> forall k :: k in schema.fields ==> ReadsBack(codec, schema.fields[k]))
  }

  /** What settings of this schema need of the JSON text format. */
  ghost predicate Lawful(codec: Codec, schema: Schema) {
    && codec.parse("null") == Some(Null)
    && (forall b: bool :: codec.parse(if b then "true" else "false") == Some(Bool(b)))
    && (forall n: int :: -I64_MAX - 1 <= n <= U64_MAX ==> codec.parse(Decimal(n)) == Some(Num(n)))
    // The JSON text of a string has quotes that the string itself does not have.
    && (forall t: string :: codec.parse(t) != Some(Str(t)))
    && ReadsBack(codec, schema)
  }

  function Initial(schema: Schema): Json {
    match schema
    case Leaf(_, initial, _) => initial
    case Node(fields, _) => Obj(map k | k in fields :: Initial(fields[k]))
  }

  function Missing(schema: Schema): Json {
    if schema.Leaf? then schema.missing else Initial(schema)
  }

  /**
   Deserialization: absent fields get their defaults, unknown keys are ignored, and one value of a wrong
   type fails the whole. A key that is an alias counts as a second copy of its field.
   */
  function FromValue(schema: Schema, v: Json): Option<Json> {
    match schema
    case Leaf(ty, _, _) => if Fits(ty, v) then Some(v) else None
    case Node(fields, aliases) =>
      if v.Obj? && aliases !! v.fields.Keys
         && forall k :: k in fields && k in v.fields ==> FromValue(fields[k], v.fields[k]).Some?
      then
        Some(Obj(map k | k in fields ::
          if k in v.fields then FromValue(fields[k], v.fields[k]).value else Missing(fields[k])))
      else None
  }

  ghost predicate IntOk(ty: Type) {
    ty.IntType? ==> -I64_MAX - 1 <= ty.lo && ty.hi <= U64_MAX
  }

  ghost predicate TypeOk(ty: Type, initial: Json) {
    match ty
    case OptionalType(inner) => initial == Null && !inner.OptionalType? && IntOk(inner)
    case IntType(lo, _) => 0 <= lo && IntOk(ty)
    case _ => true
  }

  /** Plain names, defaults of the right types, and null as the default of what is optional. */
  ghost predicate WellFormed(schema: Schema) {
    match schema
    case Leaf(ty, initial, missing) => Fits(ty, initial) && Fits(ty, missing) && TypeOk(ty, initial)
    case Node(fields, aliases) =>
      aliases !! fields.Keys && forall k :: k in fields ==> Plain(k) && WellFormed(fields[k])
  }

  function SchemaAt(schema: Schema, parts: seq<string>): Option<Schema> {
    if parts == [] then Some(schema)
    else if schema.Node? && parts[0] in schema.fields then SchemaAt(schema.fields[parts[0]], parts[1..])
    else None
  }

  // ---------------------------------------------------------------------
  // Setting one value
  // ---------------------------------------------------------------------

  function ParsedOrText(codec: Codec, text: string): Json {
    match codec.parse(text)
    case Some(v) => v
    case None => Str(text)
  }

  /** The value that `text` stands for, going by the kind of value it replaces. */
  function Infer(codec: Codec, existing: Option<Json>, text: string): Result<Json, SetError> {
    match existing
    case None => Ok(ParsedOrText(codec, text))
    case Some(Null) => Ok(ParsedOrText(codec, text))
    case Some(Bool(_)) =>
      (match ParseBool(text)
       case Some(b) => Ok(Bool(b))
       case None => Err(ExpectedBoolean))
    case Some(Num(n)) =>
      (match if n >= 0 then ParseU64(text) else ParseI64(text)
       case Some(i) => Ok(Num(i))
       case None => Err(ExpectedInteger))
    case Some(Float(_)) =>
      (match codec.parseFloat(text)
       case Some(Some(x)) => Ok(Float(x))
       case Some(None) => Ok(Str(text))
       case None => Err(ExpectedNumber))
    case Some(Str(_)) => Ok(Str(text))
    case _ =>
      match codec.parse(text)
      case Some(v) => Ok(v)
      case None => Err(InvalidJson)
  }

  function Lookup(v: Json, key: string): Option<Json>
    requires v.Obj?
  {
    if key in v.fields then Some(v.fields[key]) else None
  }

  /** The tree with the inferred value written in. */
  function Put(codec: Codec, v: Json, parts: seq<string>, text: string): Result<Json, SetError>
    requires parts != []
  {
    match At(v, parts[..|parts| - 1])
    case None => Err(PathNotFound)
    case Some(parent) =>
      if !parent.Obj? then Err(ParentNotObject)
      else
        match Infer(codec, Lookup(parent, parts[|parts| - 1]), text)
        case Err(e) => Err(e)
        case Ok(x) => Ok(Replace(v, parts, x))
  }

  function Applied(schema: Schema, r: Result<Json, SetError>): Result<Json, SetError> {
    match r
    case Err(e) => Err(e)
    case Ok(v) =>
      match FromValue(schema, v)
      case None => Err(ApplyFailed)
      case Some(s) => Ok(s)
  }

  function Set(codec: Codec, schema: Schema, v: Json, parts: seq<string>, text: string): Result<Json, SetError>
    requires parts != []
  {
    Applied(schema, Put(codec, v, parts, text))
  }

  /** The settings after a call that may have failed. */
  function After(r: Result<Json, SetError>, v: Json): Json {
    match r
    case Ok(s) => s
    case Err(_) => v
  }

  /** What a set does to the one entry at its path. */
  function Entered(codec: Codec, schema: Schema, existing: Json, text: string): Result<Json, SetError> {
    Applied(schema, Infer(codec, Some(existing), text))
  }

  lemma {:induction false} FitsIsNoTree(ty: Type, v: Json)
    requires Fits(ty, v)
    ensures !v.Obj? && FloatFree(v)
  {
    if ty.OptionalType? && !v.Null? {
      FitsIsNoTree(ty.inner, v);
    }
  }

  lemma {:induction false} InitialConforms(schema: Schema)
    requires WellFormed(schema)
    ensures Conforms(schema, Initial(schema))
  {
    if schema.Node? {
      forall k | k in schema.fields ensures Conforms(schema.fields[k], Initial(schema.fields[k])) {
        InitialConforms(schema.fields[k]);
      }
    }
  }

  /** Serialized settings deserialize to themselves. */
  lemma {:induction false} ConformingIsFixed(schema: Schema, v: Json)
    requires WellFormed(schema) && Conforms(schema, v)
    ensures FromValue(schema, v) == Some(v)
  {
    if schema.Node? {
      forall k | k in schema.fields ensures FromValue(schema.fields[k], v.fields[k]) == Some(v.fields[k]) {
        ConformingIsFixed(schema.fields[k], v.fields[k]);
      }
      assert FromValue(schema, v).value.fields == v.fields;
    }
  }

  lemma {:induction false} FromValueConforms(schema: Schema, v: Json)
    requires WellFormed(schema) && FromValue(schema, v).Some?
    ensures Conforms(schema, FromValue(schema, v).value)
  {
    if schema.Node? {
      var r := FromValue(schema, v).value;
      forall k | k in schema.fields ensures Conforms(schema.fields[k], r.fields[k]) {
        if k in v.fields {
          FromValueConforms(schema.fields[k], v.fields[k]);
        } else {
          InitialConforms(schema.fields[k]);
        }
      }
    }
  }

  lemma FromValueOfParts(schema: Schema, v: Json, r: map<string, Json>)
    requires schema.Node? && v.Obj? && schema.aliases !! v.fields.Keys
    requires r.Keys == schema.fields.Keys <= v.fields.Keys
    requires forall k :: k in schema.fields ==> FromValue(schema.fields[k], v.fields[k]) == Some(r[k])
    ensures FromValue(schema, v) == Some(Obj(r))
  {
    assert FromValue(schema, v).value.fields == r;
  }

  /** Deserializing after one field was changed deserializes that field alone. */
  lemma FromValueOfField(schema: Schema, v: Json, k: string, x: Json)
    requires WellFormed(schema) && schema.Node? && Conforms(schema, v) && k in schema.fields
    ensures FromValue(schema, Obj(v.fields[k := x])) ==
            match FromValue(schema.fields[k], x) case None => None case Some(y) => Some(Obj(v.fields[k := y]))
  {
    var w := Obj(v.fields[k := x]);
    assert w.fields.Keys == schema.fields.Keys;
    match FromValue(schema.fields[k], x)
    case None =>
      assert k in w.fields && w.fields[k] == x;
    case Some(y) =>
      forall j | j in schema.fields
        ensures FromValue(schema.fields[j], w.fields[j]) == Some(v.fields[k := y][j])
      {
        hide FromValue;
        if j != k {
          ConformingIsFixed(schema.fields[j], v.fields[j]);
        }
      }
      hide FromValue;
      FromValueOfParts(schema, w, v.fields[k := y]);
  }

  lemma FromValueOfUnknown(schema: Schema, v: Json, k: string, x: Json)
    requires WellFormed(schema) && schema.Node? && Conforms(schema, v) && k !in schema.fields
    ensures FromValue(schema, Obj(v.fields[k := x])) == if k in schema.aliases then None else Some(v)
  {
    var w := Obj(v.fields[k := x]);
    if k in schema.aliases {
      assert k in w.fields;
    } else {
      hide FromValue;
      forall j | j in schema.fields
        ensures FromValue(schema.fields[j], w.fields[j]) == Some(v.fields[j])
      {
        ConformingIsFixed(schema.fields[j], v.fields[j]);
      }
      assert w.fields.Keys == schema.fields.Keys + {k};
      FromValueOfParts(schema, w, v.fields);
      assert Obj(v.fields) == v;
    }
  }

  lemma SetOfChild(codec: Codec, schema: Schema, v: Json, parts: seq<string>, text: string)
    requires WellFormed(schema) && schema.Node? && Conforms(schema, v)
    requires |parts| > 1 && parts[0] in schema.fields
    ensures Set(codec, schema, v, parts, text) ==
            match Set(codec, schema.fields[parts[0]], v.fields[parts[0]], parts[1..], text)
            case Err(e) => Err(e)
            case Ok(y) => Ok(Obj(v.fields[parts[0] := y]))
  {
    hide FromValue;
    var k, child := parts[0], v.fields[parts[0]];
    assert parts[..|parts| - 1][1..] == parts[1..][..|parts| - 2];
    assert At(v, parts[..|parts| - 1]) == At(child, parts[1..][..|parts| - 2]);
    var put := Put(codec, child, parts[1..], text);
    if put.Ok? {
      assert Put(codec, v, parts, text) == Ok(Obj(v.fields[k := put.value]));
      FromValueOfField(schema, v, k, put.value);
    }
  }

  lemma SetOfOne(codec: Codec, schema: Schema, v: Json, k: string, text: string)
    requires WellFormed(schema) && schema.Node? && Conforms(schema, v)
    ensures k in schema.fields ==>
            Set(codec, schema, v, [k], text) ==
            match Entered(codec, schema.fields[k], v.fields[k], text)
            case Ok(y) => Ok(Obj(v.fields[k := y]))
            case Err(e) => Err(e)
    ensures k !in schema.fields ==> After(Set(codec, schema, v, [k], text), v) == v
  {
    hide FromValue;
    assert [k][..0] == [];
    var inferred := Infer(codec, Lookup(v, k), text);
    if inferred.Ok? {
      assert Put(codec, v, [k], text) == Ok(Obj(v.fields[k := inferred.value]));
      if k in schema.fields {
        FromValueOfField(schema, v, k, inferred.value);
      } else {
        FromValueOfUnknown(schema, v, k, inferred.value);
      }
    }
  }

  /**
   A set reads and writes one entry only: its outcome is decided by the entry's own schema and old value,
   and a path that names no entry changes nothing.
   */
  lemma {:induction false} SetIsLocal(codec: Codec, schema: Schema, v: Json, parts: seq<string>, text: string)
    requires WellFormed(schema) && Conforms(schema, v) && parts != []
    ensures match SchemaAt(schema, parts)
            case Some(sub) =>
              && At(v, parts).Some?
              && Set(codec, schema, v, parts, text) ==
                 (match Entered(codec, sub, At(v, parts).value, text)
                  case Ok(y) => Ok(Replace(v, parts, y))
                  case Err(e) => Err(e))
            case None => After(Set(codec, schema, v, parts, text), v) == v
  {
    hide FromValue;
    if schema.Node? {
      var k := parts[0];
      if |parts| == 1 {
        assert parts == [k] && parts[1..] == [];
        SetOfOne(codec, schema, v, k, text);
        assert k in schema.fields ==> SchemaAt(schema, parts) == SchemaAt(schema.fields[k], []);
        assert k in schema.fields ==> At(v, parts) == At(v.fields[k], []);
        assert k !in schema.fields ==> SchemaAt(schema, parts) == None;
      } else if k in schema.fields {
        SetIsLocal(codec, schema.fields[k], v.fields[k], parts[1..], text);
        SetOfChild(codec, schema, v, parts, text);
        assert v.fields[k := v.fields[k]] == v.fields;
      } else {
        assert At(v, parts[..|parts| - 1]) == None;
      }
    } else {
      FitsIsNoTree(schema.ty, v);
      assert |parts| > 1 ==> At(v, parts[..|parts| - 1]) == None;
    }
  }

  lemma {:induction false} AtConforms(schema: Schema, v: Json, parts: seq<string>)
    requires Conforms(schema, v) && SchemaAt(schema, parts).Some?
    ensures At(v, parts).Some? && Conforms(SchemaAt(schema, parts).value, At(v, parts).value)
  {
    if parts != [] {
      AtConforms(schema.fields[parts[0]], v.fields[parts[0]], parts[1..]);
    }
  }

  lemma {:induction false} SchemaAtWellFormed(schema: Schema, parts: seq<string>)
    requires WellFormed(schema) && SchemaAt(schema, parts).Some?
    ensures WellFormed(SchemaAt(schema, parts).value)
    ensures forall i :: 0 <= i < |parts| ==> Plain(parts[i])
    ensures At(Initial(schema), parts) == Some(Initial(SchemaAt(schema, parts).value))
  {
    if parts != [] {
      SchemaAtWellFormed(schema.fields[parts[0]], parts[1..]);
      assert forall i :: 1 <= i < |parts| ==> parts[i] == parts[1..][i - 1];
    }
  }

  predicate IsLeaf(schema: Schema, parts: seq<string>) {
    var sub := SchemaAt(schema, parts);
    sub.Some? && sub.value.Leaf?
  }

  lemma {:induction false} SchemaAtInside(schema: Schema, p: seq<string>, q: seq<string>)
    requires p <= q && SchemaAt(schema, p).Some?
    ensures SchemaAt(schema, q) == SchemaAt(SchemaAt(schema, p).value, q[|p|..])
  {
    if p == [] {
      assert q[0..] == q;
    } else {
      PrefixStep(p, q);
      SchemaAtInside(schema.fields[p[0]], p[1..], q[1..]);
    }
  }

  lemma PrefixStep(p: seq<string>, q: seq<string>)
    requires p != [] && q != []
    ensures p <= q <==> p[0] == q[0] && p[1..] <= q[1..]
    ensures p <= q ==> q[1..][|p| - 1..] == q[|p|..]
  {
    assert p == [p[0]] + p[1..] && q == [q[0]] + q[1..];
  }

  lemma ReplaceIsStep(schema: Schema, v: Json, p: seq<string>, x: Json)
    requires Conforms(schema, v) && SchemaAt(schema, p).Some? && p != []
    ensures schema.Node? && p[0] in schema.fields && v.Obj? && p[0] in v.fields
    ensures SchemaAt(schema.fields[p[0]], p[1..]) == SchemaAt(schema, p)
    ensures Replace(v, p, x) == Obj(v.fields[p[0] := Replace(v.fields[p[0]], p[1..], x)])
  {
    assert |p| == 1 ==> p[1..] == [];
  }

  /** Replacing an entry shows inside it, and not at a leaf elsewhere. */
  lemma {:induction false} AtOfReplaced(schema: Schema, v: Json, p: seq<string>, q: seq<string>, x: Json)
    requires Conforms(schema, v) && SchemaAt(schema, p).Some? && SchemaAt(schema, q).Some?
    ensures p <= q ==> At(Replace(v, p, x), q) == At(x, q[|p|..])
    ensures !(p <= q) && IsLeaf(schema, q) ==> At(Replace(v, p, x), q) == At(v, q)
  {
    hide Replace;
    if p == [] {
      ReplaceRoot(v, x);
      assert q[0..] == q;
    } else {
      ReplaceIsStep(schema, v, p, x);
      if q != [] {
        PrefixStep(p, q);
        if q[0] == p[0] {
          AtOfReplaced(schema.fields[p[0]], v.fields[p[0]], p[1..], q[1..], x);
        }
      }
    }
  }

  lemma ReplaceRoot(v: Json, x: Json)
    ensures Replace(v, [], x) == x
  {
  }

  lemma NothingInsideLeaf(schema: Schema, p: seq<string>, q: seq<string>)
    requires IsLeaf(schema, p) && SchemaAt(schema, q).Some? && p <= q
    ensures p == q
  {
    SchemaAtInside(schema, p, q);
    assert p + q[|p|..] == q;
  }

  ghost predicate SameLeaves(schema: Schema, a: Json, b: Json) {
    forall p :: IsLeaf(schema, p) ==> At(a, p) == At(b, p)
  }

  /** Settings are their leaves. */
  lemma {:induction false} LeavesDetermine(schema: Schema, a: Json, b: Json)
    requires Conforms(schema, a) && Conforms(schema, b) && SameLeaves(schema, a, b)
    ensures a == b
  {
    match schema
    case Leaf(_, _, _) =>
      assert IsLeaf(schema, []);
    case Node(fields, _) =>
      forall k | k in fields ensures a.fields[k] == b.fields[k] {
        forall p | IsLeaf(fields[k], p) ensures At(a.fields[k], p) == At(b.fields[k], p) {
          assert ([k] + p)[1..] == p;
          assert IsLeaf(schema, [k] + p);
        }
        LeavesDetermine(fields[k], a.fields[k], b.fields[k]);
      }
      assert a.fields == b.fields;
  }

  lemma {:induction false} SetConforms(codec: Codec, schema: Schema, v: Json, parts: seq<string>, text: string)
    requires WellFormed(schema) && Conforms(schema, v) && parts != []
    ensures Conforms(schema, After(Set(codec, schema, v, parts, text), v))
  {
    if Put(codec, v, parts, text).Ok? && FromValue(schema, Put(codec, v, parts, text).value).Some? {
      FromValueConforms(schema, Put(codec, v, parts, text).value);
    }
  }

  // ---------------------------------------------------------------------
  // The flat form
  // ---------------------------------------------------------------------

  predicate StartsWith(s: string, prefix: string) {
    prefix <= s
  }

  /** Keys of the same table that belong to extensions and channels. */
  predicate Foreign(key: string) {
    StartsWith(key, "extensions.") || StartsWith(key, "channel.enabled.")
  }

  function ApplyItem(codec: Codec, schema: Schema, v: Json, item: (string, Json)): Json {
    if Foreign(item.0) then v else After(Set(codec, schema, v, Split(item.0), Text(codec, item.1)), v)
  }

  /** The settings after the entries were applied one by one. */
  function Overlay(codec: Codec, schema: Schema, v: Json, items: seq<(string, Json)>): Json {
    if items == [] then v
    else ApplyItem(codec, schema, Overlay(codec, schema, v, items[..|items| - 1]), items[|items| - 1])
  }

  /** `items` lists the map in some order. */
  ghost predicate Lists(items: seq<(string, Json)>, m: map<string, Json>) {
    && (forall i :: 0 <= i < |items| ==> items[i].0 in m && m[items[i].0] == items[i].1)
    && (forall i, j :: 0 <= i < j < |items| ==> items[i].0 != items[j].0)
    && (forall k :: k in m ==> exists i :: 0 <= i < |items| && items[i].0 == k)
  }

  /** No key of the map names a whole section. */
  ghost predicate NoSections(schema: Schema, m: map<string, Json>) {
    forall key :: key in m && !Foreign(key) ==>
      var sub := SchemaAt(schema, Split(key)); sub.Some? ==> sub.value.Leaf?
  }

  /** The value that a leaf ends with: the entry under its key where that is accepted, else the old value. */
  function LeafAfter(codec: Codec, schema: Schema, v: Json, m: map<string, Json>, p: seq<string>): Json
    requires IsLeaf(schema, p) && p != [] && At(v, p).Some?
  {
    var was, key := At(v, p).value, Join(p);
    if key in m && !Foreign(key)
    then After(Entered(codec, SchemaAt(schema, p).value, was, Text(codec, m[key])), was)
    else was
  }

  /** Applying an entry changes the leaf that it names and no other. */
  lemma ApplyItemAtLeaf(codec: Codec, schema: Schema, v: Json, item: (string, Json), p: seq<string>)
    requires WellFormed(schema) && schema.Node? && Conforms(schema, v)
    requires !Foreign(item.0) ==> NoSections(schema, map[item.0 := item.1])
    requires IsLeaf(schema, p)
    ensures At(v, p).Some?
    ensures At(ApplyItem(codec, schema, v, item), p) == Some(LeafAfter(codec, schema, v, map[item.0 := item.1], p))
  {
    hide Entered, Set, FromValue, WellFormed, Conforms, Foreign;
    AtConforms(schema, v, p);
    var parts := Split(item.0);
    JoinOfSplit(item.0);
    SchemaAtWellFormed(schema, p);
    SplitOfJoin(p);
    if !Foreign(item.0) {
      assert item.0 in map[item.0 := item.1];
      SetIsLocal(codec, schema, v, parts, Text(codec, item.1));
      if SchemaAt(schema, parts).Some? {
        var entered := Entered(codec, SchemaAt(schema, parts).value, At(v, parts).value, Text(codec, item.1));
        if entered.Ok? {
          AtOfReplaced(schema, v, parts, p, entered.value);
          if parts <= p {
            NothingInsideLeaf(schema, parts, p);
            assert p[|p|..] == [];
          }
        }
      }
    }
  }

  lemma {:induction false} OverlayConforms(codec: Codec, schema: Schema, v: Json, items: seq<(string, Json)>)
    requires WellFormed(schema) && Conforms(schema, v)
    ensures Conforms(schema, Overlay(codec, schema, v, items))
  {
    if items != [] {
      var before, item := items[..|items| - 1], items[|items| - 1];
      OverlayConforms(codec, schema, v, before);
      SetConforms(codec, schema, Overlay(codec, schema, v, before), Split(item.0), Text(codec, item.1));
    }
  }

  /** Whatever the order, each leaf ends as its own entry says, applied to its own old value. */
  lemma {:induction false} OverlayIsPointwise(
      codec: Codec, schema: Schema, v: Json, m: map<string, Json>, items: seq<(string, Json)>, p: seq<string>)
    requires WellFormed(schema) && schema.Node? && Conforms(schema, v)
    requires Lists(items, m) && NoSections(schema, m)
    requires IsLeaf(schema, p)
    ensures At(v, p).Some?
    ensures At(Overlay(codec, schema, v, items), p) == Some(LeafAfter(codec, schema, v, m, p))
  {
    hide Entered, Set, FromValue, WellFormed, Conforms, Foreign, ApplyItem, At, SchemaAt;
    AtConforms(schema, v, p);
    assert p != [] by { assert SchemaAt(schema, []) == Some(schema) by { SchemaAtRoot(schema); } }
    if items == [] {
      assert m == map[];
    } else {
      var before, item := items[..|items| - 1], items[|items| - 1];
      var rest := m - {item.0};
      ListsFront(items, m);
      OverlayIsPointwise(codec, schema, v, rest, before, p);
      OverlayConforms(codec, schema, v, before);
      assert !Foreign(item.0) ==> NoSections(schema, map[item.0 := item.1]);
      ApplyItemAtLeaf(codec, schema, Overlay(codec, schema, v, before), item, p);
      assert item.0 in m && m[item.0] == item.1;
    }
  }

  lemma SchemaAtRoot(schema: Schema)
    ensures SchemaAt(schema, []) == Some(schema)
  {
  }

  lemma ListsFront(items: seq<(string, Json)>, m: map<string, Json>)
    requires Lists(items, m) && items != []
    ensures Lists(items[..|items| - 1], m - {items[|items| - 1].0})
  {
    var before, last := items[..|items| - 1], items[|items| - 1].0;
    forall k | k in m - {last} ensures exists i :: 0 <= i < |before| && before[i].0 == k {
      var i :| 0 <= i < |items| && items[i].0 == k;
      assert before[i].0 == k;
    }
  }

  /** The iteration order of the map does not matter when no entry replaces a section. */
  lemma OrderIsIrrelevant(
      codec: Codec, schema: Schema, v: Json, m: map<string, Json>,
      items: seq<(string, Json)>, others: seq<(string, Json)>)
    requires WellFormed(schema) && schema.Node? && Conforms(schema, v) && NoSections(schema, m)
    requires Lists(items, m) && Lists(others, m)
    ensures Overlay(codec, schema, v, items) == Overlay(codec, schema, v, others)
  {
    hide WellFormed, Conforms, Lists, NoSections, LeafAfter;
    forall p | IsLeaf(schema, p)
      ensures At(Overlay(codec, schema, v, items), p) == At(Overlay(codec, schema, v, others), p)
    {
      OverlayIsPointwise(codec, schema, v, m, items, p);
      OverlayIsPointwise(codec, schema, v, m, others, p);
    }
    OverlayConforms(codec, schema, v, items);
    OverlayConforms(codec, schema, v, others);
    LeavesDetermine(schema, Overlay(codec, schema, v, items), Overlay(codec, schema, v, others));
  }

  // ---------------------------------------------------------------------
  // Entries that set a whole section
  // ---------------------------------------------------------------------

  /** What a section becomes when it is set to this text, whatever it was; None if the text is refused. */
  function SectionTree(codec: Codec, section: Schema, text: string): Option<Json> {
    match codec.parse(text)
    case None => None
    case Some(v) => FromValue(section, v)
  }

  lemma EnteredSection(codec: Codec, section: Schema, existing: Json, text: string)
    requires existing.Obj?
    ensures match SectionTree(codec, section, text)
            case Some(t) => Entered(codec, section, existing, text) == Ok(t)
            case None => Entered(codec, section, existing, text).Err?
  {
  }

  predicate IsSection(schema: Schema, parts: seq<string>) {
    var sub := SchemaAt(schema, parts);
    sub.Some? && sub.value.Node?
  }

  /** The tree that an entry puts in place of a section. */
  function PutTree(codec: Codec, schema: Schema, key: string, x: Json): Option<Json> {
    if !Foreign(key) && IsSection(schema, Split(key))
    then SectionTree(codec, SchemaAt(schema, Split(key)).value, Text(codec, x))
    else None
  }

  /** What the entry at `p` leaves at the path `q` inside its section. */
  function Leaves(codec: Codec, schema: Schema, key: string, x: Json, q: seq<string>): Option<Json> {
    var t := PutTree(codec, schema, key, x);
    if t.Some? && Split(key) <= q then At(t.value, q[|Split(key)|..]) else None
  }

  /** Setting the entry `inner` on top of a section just set changes nothing. */
  predicate Harmless(codec: Codec, schema: Schema, section: string, x: Json, inner: string, y: Json) {
    var q := Split(inner);
    var left := Leaves(codec, schema, section, x, q);
    section != inner && !Foreign(inner) && left.Some? && SchemaAt(schema, q).Some? ==>
      After(Entered(codec, SchemaAt(schema, q).value, left.value, Text(codec, y)), left.value) == left.value
  }

  /** Every entry that lies inside the section of another agrees with it. */
  ghost predicate Consistent(codec: Codec, schema: Schema, m: map<string, Json>) {
    forall p, q :: p in m && q in m ==> HarmlessPair(codec, schema, m, p, q)
  }

  predicate HarmlessPair(codec: Codec, schema: Schema, m: map<string, Json>, p: string, q: string)
    requires p in m && q in m
  {
    Harmless(codec, schema, p, m[p], q, m[q])
  }

  lemma {:induction false} AtInside(v: Json, p: seq<string>, q: seq<string>)
    requires p <= q && At(v, p).Some?
    ensures At(v, q) == At(At(v, p).value, q[|p|..])
  {
    if p == [] {
      assert q[0..] == q;
    } else {
      PrefixStep(p, q);
      AtInside(v.fields[p[0]], p[1..], q[1..]);
    }
  }

  lemma TreeConforms(codec: Codec, schema: Schema, key: string, x: Json)
    requires WellFormed(schema) && PutTree(codec, schema, key, x).Some?
    ensures Conforms(SchemaAt(schema, Split(key)).value, PutTree(codec, schema, key, x).value)
  {
    hide WellFormed, Conforms, FromValue, Foreign;
    SchemaAtWellFormed(schema, Split(key));
    FromValueConforms(SchemaAt(schema, Split(key)).value, codec.parse(Text(codec, x)).value);
  }

  /** A section that was set has all its entries. */
  lemma LeavesAll(codec: Codec, schema: Schema, key: string, x: Json, q: seq<string>)
    requires WellFormed(schema) && PutTree(codec, schema, key, x).Some?
    requires Split(key) <= q && SchemaAt(schema, q).Some?
    ensures Leaves(codec, schema, key, x, q).Some?
  {
    hide WellFormed, Conforms, SectionTree, Foreign;
    TreeConforms(codec, schema, key, x);
    SchemaAtInside(schema, Split(key), q);
    AtConforms(SchemaAt(schema, Split(key)).value, PutTree(codec, schema, key, x).value, q[|Split(key)|..]);
  }

  /** After a section was set, its entries are those of the new tree. */
  lemma ApplySection(codec: Codec, schema: Schema, v: Json, item: (string, Json), q: seq<string>)
    requires WellFormed(schema) && Conforms(schema, v) && SchemaAt(schema, q).Some?
    requires Leaves(codec, schema, item.0, item.1, q).Some?
    ensures At(ApplyItem(codec, schema, v, item), q) == Leaves(codec, schema, item.0, item.1, q)
  {
    hide Entered, Set, FromValue, WellFormed, Conforms, Foreign, SectionTree;
    var p, text := Split(item.0), Text(codec, item.1);
    SetIsLocal(codec, schema, v, p, text);
    AtConforms(schema, v, p);
    SectionIsObject(SchemaAt(schema, p).value, At(v, p).value);
    EnteredSection(codec, SchemaAt(schema, p).value, At(v, p).value, text);
    AtOfReplaced(schema, v, p, q, PutTree(codec, schema, item.0, item.1).value);
  }

  lemma SectionIsObject(section: Schema, v: Json)
    requires section.Node? && Conforms(section, v)
    ensures v.Obj?
  {
  }

  /** An entry that is applied enters its text over what is there. */
  lemma ApplyAtOwnPath(codec: Codec, schema: Schema, v: Json, item: (string, Json))
    requires WellFormed(schema) && Conforms(schema, v)
    requires !Foreign(item.0) && SchemaAt(schema, Split(item.0)).Some?
    ensures var q := Split(item.0); var there := At(v, q);
      && there.Some?
      && At(ApplyItem(codec, schema, v, item), q) ==
         Some(After(Entered(codec, SchemaAt(schema, q).value, there.value, Text(codec, item.1)), there.value))
  {
    hide Entered, Set, FromValue, WellFormed, Conforms, Foreign;
    var q, text := Split(item.0), Text(codec, item.1);
    SetIsLocal(codec, schema, v, q, text);
    var entered := Entered(codec, SchemaAt(schema, q).value, At(v, q).value, text);
    if entered.Ok? {
      AtOfReplaced(schema, v, q, q, entered.value);
      assert q[|q|..] == [];
    }
  }

  /** What any entry does to a leaf: a section puts its own value there, else the leaf's own entry counts. */
  lemma AnyItemAtLeaf(codec: Codec, schema: Schema, v: Json, item: (string, Json), p: seq<string>)
    requires WellFormed(schema) && schema.Node? && Conforms(schema, v) && IsLeaf(schema, p)
    ensures p != [] && At(v, p).Some?
    ensures var left := Leaves(codec, schema, item.0, item.1, p);
      At(ApplyItem(codec, schema, v, item), p) ==
      if left.Some? then left else Some(LeafAfter(codec, schema, v, map[item.0 := item.1], p))
  {
    hide Set, FromValue, WellFormed, Conforms, Foreign, SectionTree, Entered, At, SchemaAt, Leaves;
    SchemaAtRoot(schema);
    AtConforms(schema, v, p);
    var left := Leaves(codec, schema, item.0, item.1, p);
    if left.Some? {
      ApplySection(codec, schema, v, item, p);
    } else if !Foreign(item.0) && IsSection(schema, Split(item.0)) {
      SectionMissesLeaf(codec, schema, v, item, p);
    } else {
      assert !Foreign(item.0) ==> NoSections(schema, map[item.0 := item.1]);
      ApplyItemAtLeaf(codec, schema, v, item, p);
    }
  }

  /** A section that is refused, or does not hold the leaf, leaves it alone. */
  lemma SectionMissesLeaf(codec: Codec, schema: Schema, v: Json, item: (string, Json), p: seq<string>)
    requires WellFormed(schema) && schema.Node? && Conforms(schema, v) && IsLeaf(schema, p)
    requires !Foreign(item.0) && IsSection(schema, Split(item.0))
    requires Leaves(codec, schema, item.0, item.1, p) == None
    ensures p != [] && At(v, p).Some?
    ensures At(ApplyItem(codec, schema, v, item), p) == At(v, p)
    ensures LeafAfter(codec, schema, v, map[item.0 := item.1], p) == At(v, p).value
  {
    hide Set, FromValue, WellFormed, Conforms, Foreign, SectionTree, Entered;
    var q, text := Split(item.0), Text(codec, item.1);
    AtConforms(schema, v, p);
    SetIsLocal(codec, schema, v, q, text);
    AtConforms(schema, v, q);
    SectionIsObject(SchemaAt(schema, q).value, At(v, q).value);
    EnteredSection(codec, SchemaAt(schema, q).value, At(v, q).value, text);
    if PutTree(codec, schema, item.0, item.1).Some? {
      if q <= p {
        LeavesAll(codec, schema, item.0, item.1, p);
      }
      AtOfReplaced(schema, v, q, p, PutTree(codec, schema, item.0, item.1).value);
    }
    SchemaAtWellFormed(schema, p);
    SplitOfJoin(p);
    assert item.0 != Join(p);
  }

  /** Two sections that both hold a leaf put the same value there. */
  lemma SectionsAgree(codec: Codec, schema: Schema, m: map<string, Json>, k: string, l: string, p: seq<string>)
    requires WellFormed(schema) && Consistent(codec, schema, m) && k in m && l in m && IsLeaf(schema, p)
    requires Leaves(codec, schema, k, m[k], p).Some? && Leaves(codec, schema, l, m[l], p).Some?
    ensures Leaves(codec, schema, k, m[k], p) == Leaves(codec, schema, l, m[l], p)
  {
    hide WellFormed, Conforms, Foreign, SectionTree, Entered, FromValue, Consistent;
    if |Split(k)| <= |Split(l)| {
      NestedSectionsAgree(codec, schema, m, k, l, p);
    } else {
      NestedSectionsAgree(codec, schema, m, l, k, p);
    }
  }

  lemma NestedSectionsAgree(codec: Codec, schema: Schema, m: map<string, Json>, k: string, l: string, p: seq<string>)
    requires WellFormed(schema) && Consistent(codec, schema, m) && k in m && l in m && IsLeaf(schema, p)
    requires Leaves(codec, schema, k, m[k], p).Some? && Leaves(codec, schema, l, m[l], p).Some?
    requires |Split(k)| <= |Split(l)|
    ensures Leaves(codec, schema, k, m[k], p) == Leaves(codec, schema, l, m[l], p)
  {
    hide WellFormed, Conforms, Foreign, SectionTree, Entered, FromValue;
    var q := Split(l);
    assert Split(k) <= q;
    LeavesAll(codec, schema, k, m[k], q);
    if k != l {
      var outer := Leaves(codec, schema, k, m[k], q).value;
      assert HarmlessPair(codec, schema, m, k, l);
      TreeConforms(codec, schema, k, m[k]);
      SchemaAtInside(schema, Split(k), q);
      AtConforms(SchemaAt(schema, Split(k)).value, PutTree(codec, schema, k, m[k]).value, q[|Split(k)|..]);
      SectionIsObject(SchemaAt(schema, q).value, outer);
      EnteredSection(codec, SchemaAt(schema, q).value, outer, Text(codec, m[l]));
      AtInside(PutTree(codec, schema, k, m[k]).value, q[|Split(k)|..], p[|Split(k)|..]);
      assert p[|Split(k)|..][|q| - |Split(k)|..] == p[|q|..];
    }
  }

  /** The value of a leaf once the entries of `m` were applied in some order. */
  ghost predicate Decided(
      codec: Codec, schema: Schema, v: Json, m: map<string, Json>, p: seq<string>, x: Json)
    requires IsLeaf(schema, p) && p != [] && At(v, p).Some?
  {
    && (forall k :: k in m && Leaves(codec, schema, k, m[k], p).Some? ==>
          Leaves(codec, schema, k, m[k], p) == Some(x))
    && ((forall k :: k in m ==> Leaves(codec, schema, k, m[k], p) == None) ==>
          x == LeafAfter(codec, schema, v, m, p))
  }

  lemma DecidedStep(
      codec: Codec, schema: Schema, v: Json, s: Json, m: map<string, Json>, key: string, p: seq<string>)
    requires WellFormed(schema) && schema.Node? && Conforms(schema, v) && Conforms(schema, s)
    requires key in m && Consistent(codec, schema, m) && IsLeaf(schema, p) && p != []
    requires At(v, p).Some? && At(s, p).Some? && Decided(codec, schema, v, m - {key}, p, At(s, p).value)
    ensures At(ApplyItem(codec, schema, s, (key, m[key])), p).Some?
    ensures Decided(codec, schema, v, m, p, At(ApplyItem(codec, schema, s, (key, m[key])), p).value)
  {
    hide WellFormed, Conforms, Foreign, Leaves, Entered, ApplyItem, At, SchemaAt, Split, Consistent;
    var rest := m - {key};
    AnyItemAtLeaf(codec, schema, s, (key, m[key]), p);
    if Leaves(codec, schema, key, m[key], p).Some? {
      forall k | k in m && Leaves(codec, schema, k, m[k], p).Some?
        ensures Leaves(codec, schema, k, m[k], p) == Leaves(codec, schema, key, m[key], p)
      {
        SectionsAgree(codec, schema, m, k, key, p);
      }
    } else {
      assert forall k :: k in rest ==> rest[k] == m[k];
      if k :| k in rest && Leaves(codec, schema, k, m[k], p).Some? {
        OwnEntryIsHarmless(codec, schema, s, m, k, key, p);
      } else {
        assert forall k :: k in rest ==> Leaves(codec, schema, k, rest[k], p) == None;
      }
    }
  }

  /** Under a section that was set, the leaf's own entry changes nothing. */
  lemma OwnEntryIsHarmless(
      codec: Codec, schema: Schema, s: Json, m: map<string, Json>, k: string, key: string, p: seq<string>)
    requires WellFormed(schema) && Consistent(codec, schema, m) && k in m && key in m && k != key
    requires IsLeaf(schema, p) && p != [] && At(s, p).Some? && Leaves(codec, schema, k, m[k], p) == At(s, p)
    ensures LeafAfter(codec, schema, s, map[key := m[key]], p) == At(s, p).value
  {
    hide WellFormed, Foreign, Leaves, Entered;
    SchemaAtWellFormed(schema, p);
    SplitOfJoin(p);
    assert HarmlessPair(codec, schema, m, k, key);
  }

  lemma {:induction false} OverlayDecides(
      codec: Codec, schema: Schema, v: Json, m: map<string, Json>, items: seq<(string, Json)>, p: seq<string>)
    requires WellFormed(schema) && schema.Node? && Conforms(schema, v)
    requires Lists(items, m) && Consistent(codec, schema, m) && IsLeaf(schema, p)
    ensures p != [] && At(v, p).Some? && At(Overlay(codec, schema, v, items), p).Some?
    ensures Decided(codec, schema, v, m, p, At(Overlay(codec, schema, v, items), p).value)
  {
    hide WellFormed, Conforms, Foreign, Leaves, ApplyItem, At, SchemaAt, Consistent, Decided;
    SchemaAtRoot(schema);
    AtConforms(schema, v, p);
    if items == [] {
      assert m == map[];
      NothingDecides(codec, schema, v, p);
    } else {
      var before, item := items[..|items| - 1], items[|items| - 1];
      ListsFront(items, m);
      PartIsConsistent(codec, schema, m, item.0);
      OverlayDecides(codec, schema, v, m - {item.0}, before, p);
      OverlayConforms(codec, schema, v, before);
      assert item == (item.0, m[item.0]);
      DecidedStep(codec, schema, v, Overlay(codec, schema, v, before), m, item.0, p);
    }
  }

  lemma NothingDecides(codec: Codec, schema: Schema, v: Json, p: seq<string>)
    requires IsLeaf(schema, p) && p != [] && At(v, p).Some?
    ensures Decided(codec, schema, v, map[], p, At(v, p).value)
  {
  }

  lemma PartIsConsistent(codec: Codec, schema: Schema, m: map<string, Json>, key: string)
    requires Consistent(codec, schema, m)
    ensures Consistent(codec, schema, m - {key})
  {
    hide Harmless;
    var rest := m - {key};
    forall p, q | p in rest && q in rest ensures HarmlessPair(codec, schema, rest, p, q) {
      assert HarmlessPair(codec, schema, m, p, q);
    }
  }

  lemma ConsistentIsOrderFree(
      codec: Codec, schema: Schema, v: Json, m: map<string, Json>,
      items: seq<(string, Json)>, others: seq<(string, Json)>)
    requires WellFormed(schema) && schema.Node? && Conforms(schema, v) && Consistent(codec, schema, m)
    requires Lists(items, m) && Lists(others, m)
    ensures Overlay(codec, schema, v, items) == Overlay(codec, schema, v, others)
  {
    hide WellFormed, Conforms, Lists, Consistent, Leaves, Overlay, At, LeafAfter;
    forall p | IsLeaf(schema, p)
      ensures At(Overlay(codec, schema, v, items), p) == At(Overlay(codec, schema, v, others), p)
    {
      OverlayDecides(codec, schema, v, m, items, p);
      OverlayDecides(codec, schema, v, m, others, p);
    }
    OverlayConforms(codec, schema, v, items);
    OverlayConforms(codec, schema, v, others);
    LeavesDetermine(schema, Overlay(codec, schema, v, items), Overlay(codec, schema, v, others));
  }

  /** Every map can be listed. */
  lemma {:induction false} SomeList(m: map<string, Json>) returns (items: seq<(string, Json)>)
    ensures Lists(items, m)
  {
    if m == map[] {
      items := [];
    } else {
      var k :| k in m;
      var rest := SomeList(m - {k});
      items := rest + [(k, m[k])];
      ListsSnoc(rest, m, k);
    }
  }

  lemma ListsSnoc(rest: seq<(string, Json)>, m: map<string, Json>, k: string)
    requires k in m && Lists(rest, m - {k})
    ensures Lists(rest + [(k, m[k])], m)
  {
    var items := rest + [(k, m[k])];
    forall l | l in m ensures exists i :: 0 <= i < |items| && items[i].0 == l {
      if l == k {
        assert items[|rest|].0 == l;
      } else {
        assert l in m - {k};
        var i :| 0 <= i < |rest| && rest[i].0 == l;
        assert items[i].0 == l;
      }
    }
  }

  lemma OverlaySnoc(codec: Codec, schema: Schema, v: Json, items: seq<(string, Json)>, item: (string, Json))
    ensures Overlay(codec, schema, v, items + [item]) ==
            ApplyItem(codec, schema, Overlay(codec, schema, v, items), item)
  {
    assert (items + [item])[..|items|] == items;
  }

  /** Two entries that disagree give different settings when they come last, in the one order and the other. */
  lemma LastTwoDiffer(codec: Codec, schema: Schema, s: Json, section: (string, Json), inner: (string, Json))
    requires WellFormed(schema) && Conforms(schema, s)
    requires !Harmless(codec, schema, section.0, section.1, inner.0, inner.1)
    ensures ApplyItem(codec, schema, ApplyItem(codec, schema, s, section), inner)
         != ApplyItem(codec, schema, ApplyItem(codec, schema, s, inner), section)
  {
    hide WellFormed, Conforms, Foreign, Leaves, ApplyItem, At, SchemaAt, Entered;
    ApplyConforms(codec, schema, s, section);
    ApplyConforms(codec, schema, s, inner);
    ApplySection(codec, schema, s, section, Split(inner.0));
    ApplySection(codec, schema, ApplyItem(codec, schema, s, inner), section, Split(inner.0));
    ApplyAtOwnPath(codec, schema, ApplyItem(codec, schema, s, section), inner);
  }

  lemma ApplyConforms(codec: Codec, schema: Schema, v: Json, item: (string, Json))
    requires WellFormed(schema) && Conforms(schema, v)
    ensures Conforms(schema, ApplyItem(codec, schema, v, item))
  {
    hide WellFormed, Conforms, Set;
    SetConforms(codec, schema, v, Split(item.0), Text(codec, item.1));
  }

  lemma DisagreementShows(
      codec: Codec, schema: Schema, v: Json, m: map<string, Json>, section: string, inner: string)
    returns (items: seq<(string, Json)>, others: seq<(string, Json)>)
    requires WellFormed(schema) && Conforms(schema, v) && section in m && inner in m && section != inner
    requires !Harmless(codec, schema, section, m[section], inner, m[inner])
    ensures Lists(items, m) && Lists(others, m)
    ensures Overlay(codec, schema, v, items) != Overlay(codec, schema, v, others)
  {
    hide WellFormed, Conforms, Harmless, Lists, ApplyItem, Overlay;
    var a, b := (section, m[section]), (inner, m[inner]);
    var rest := SomeList(m - {section} - {inner});
    ListsSnoc(rest, m - {section}, inner);
    ListsSnoc(rest + [b], m, section);
    assert m - {section} - {inner} == m - {inner} - {section};
    ListsSnoc(rest, m - {inner}, section);
    ListsSnoc(rest + [a], m, inner);
    items, others := rest + [a] + [b], rest + [b] + [a];
    OverlaySnoc(codec, schema, v, rest, a);
    OverlaySnoc(codec, schema, v, rest, b);
    OverlaySnoc(codec, schema, v, rest + [a], b);
    OverlaySnoc(codec, schema, v, rest + [b], a);
    OverlayConforms(codec, schema, v, rest);
    LastTwoDiffer(codec, schema, Overlay(codec, schema, v, rest), a, b);
  }

  ghost predicate OrderFree(codec: Codec, schema: Schema, v: Json, m: map<string, Json>) {
    forall items, others :: Lists(items, m) && Lists(others, m) ==>
      Overlay(codec, schema, v, items) == Overlay(codec, schema, v, others)
  }

  /**
   The overlay of any map is the same in every order if and only if no entry changes the section that
   another entry of the map has just set.
   */
  lemma OrderFreeIff(codec: Codec, schema: Schema, v: Json, m: map<string, Json>)
    requires WellFormed(schema) && schema.Node? && Conforms(schema, v)
    ensures OrderFree(codec, schema, v, m) <==> Consistent(codec, schema, m)
  {
    hide WellFormed, Conforms, Lists, Overlay, Harmless, Consistent;
    if Consistent(codec, schema, m) {
      forall items, others | Lists(items, m) && Lists(others, m)
        ensures Overlay(codec, schema, v, items) == Overlay(codec, schema, v, others)
      {
        ConsistentIsOrderFree(codec, schema, v, m, items, others);
      }
    } else {
      var p, q := Disagreement(codec, schema, m);
      AgreesWithItself(codec, schema, p, m[p]);
      var items, others := DisagreementShows(codec, schema, v, m, p, q);
    }
  }

  lemma Disagreement(codec: Codec, schema: Schema, m: map<string, Json>) returns (p: string, q: string)
    requires !Consistent(codec, schema, m)
    ensures p in m && q in m && !Harmless(codec, schema, p, m[p], q, m[q])
  {
    hide Harmless;
    p, q :| p in m && q in m && !HarmlessPair(codec, schema, m, p, q);
  }

  lemma AgreesWithItself(codec: Codec, schema: Schema, p: string, x: Json)
    ensures Harmless(codec, schema, p, x, p, x)
  {
  }

  function LeafValue(v: Option<Json>): Option<Json> {
    if v.Some? && v.value.Obj? then None else v
  }

  /** The map holds each value of the tree that is not an object, under its dotted path, and nothing else. */
  ghost predicate FlatOf(v: Json, m: map<string, Json>) {
    && (forall key :: key in m ==> LeafValue(At(v, Split(key))) == Some(m[key]))
    && (forall key :: key !in m ==> LeafValue(At(v, Split(key))) == None)
  }

  lemma FlatHasNoSections(schema: Schema, v: Json, m: map<string, Json>)
    requires Conforms(schema, v) && FlatOf(v, m)
    ensures NoSections(schema, m)
  {
    forall key | key in m && SchemaAt(schema, Split(key)).Some?
      ensures SchemaAt(schema, Split(key)).value.Leaf?
    {
      AtConforms(schema, v, Split(key));
    }
  }

  /** What was flattened can be overlaid in any order, on any settings. */
  lemma FlatOrderIsIrrelevant(
      codec: Codec, schema: Schema, v: Json, m: map<string, Json>, onto: Json,
      items: seq<(string, Json)>, others: seq<(string, Json)>)
    requires WellFormed(schema) && schema.Node? && Conforms(schema, v) && Conforms(schema, onto)
    requires FlatOf(v, m) && Lists(items, m) && Lists(others, m)
    ensures Overlay(codec, schema, onto, items) == Overlay(codec, schema, onto, others)
  {
    hide WellFormed, Conforms, Lists, NoSections, FlatOf, Overlay;
    FlatHasNoSections(schema, v, m);
    OrderIsIrrelevant(codec, schema, onto, m, items, others);
  }

  lemma FlatHasLeaf(schema: Schema, v: Json, m: map<string, Json>, p: seq<string>)
    requires WellFormed(schema) && Conforms(schema, v) && FlatOf(v, m) && IsLeaf(schema, p) && p != []
    ensures At(v, p).Some? && Join(p) in m && m[Join(p)] == At(v, p).value
  {
    hide WellFormed;
    SchemaAtWellFormed(schema, p);
    SplitOfJoin(p);
    AtConforms(schema, v, p);
    FitsIsNoTree(SchemaAt(schema, p).value.ty, At(v, p).value);
  }

  /** No section has a name whose keys would be skipped. */
  ghost predicate OwnNames(schema: Schema) {
    schema.Node? && "extensions" !in schema.fields && "channel" !in schema.fields
  }

  lemma FirstOfDotted(head: string, rest: string)
    requires '.' !in head
    ensures Split(head + "." + rest)[0] == head
  {
    SplitOfName(head);
    SplitOfDotted(head, rest);
  }

  lemma ForeignByFirstName(key: string)
    ensures Foreign(key) ==> Split(key)[0] == "extensions" || Split(key)[0] == "channel"
  {
    hide Split;
    if StartsWith(key, "extensions.") {
      assert key == "extensions" + "." + key[11..];
      FirstOfDotted("extensions", key[11..]);
    } else if StartsWith(key, "channel.enabled.") {
      assert key[..16] == "channel.enabled.";
      assert key[..8] == key[..16][..8] == "channel" + ".";
      assert key == "channel" + "." + key[8..];
      FirstOfDotted("channel", key[8..]);
    }
  }

  lemma LeafIsNotForeign(schema: Schema, p: seq<string>)
    requires WellFormed(schema) && OwnNames(schema) && IsLeaf(schema, p)
    ensures p != [] && !Foreign(Join(p))
  {
    hide Foreign, WellFormed;
    SchemaAtWellFormed(schema, p);
    SplitOfJoin(p);
    ForeignByFirstName(Join(p));
  }

  lemma NumberInRange(schema: Schema, v: Json)
    requires WellFormed(schema) && Conforms(schema, v) && v.Num?
    ensures -I64_MAX - 1 <= v.n <= U64_MAX
  {
    if schema.ty.OptionalType? {
      assert Fits(schema.ty.inner, v);
      assert schema.ty.inner.IntType?;
    }
  }

  lemma {:induction false} LawfulAt(codec: Codec, schema: Schema, parts: seq<string>)
    requires Lawful(codec, schema) && SchemaAt(schema, parts).Some?
    ensures Lawful(codec, SchemaAt(schema, parts).value)
  {
    if parts != [] {
      LawfulAt(codec, schema.fields[parts[0]], parts[1..]);
    }
  }

  lemma ParseOfText(codec: Codec, schema: Schema, v: Json)
    requires Lawful(codec, schema) && WellFormed(schema) && Conforms(schema, v) && !v.Str?
    ensures codec.parse(Text(codec, v)) == Some(v)
  {
    if v.Float? {
      ConformsIsFloatFree(schema, v);
    }
    if v.Num? {
      NumberInRange(schema, v);
    }
  }

  lemma {:induction false} ConformsIsFloatFree(schema: Schema, v: Json)
    requires Conforms(schema, v)
    ensures FloatFree(v)
  {
    match schema
    case Leaf(ty, _, _) => FitsIsNoTree(ty, v);
    case Node(fields, _) =>
      forall k | k in fields ensures FloatFree(v.fields[k]) {
        ConformsIsFloatFree(fields[k], v.fields[k]);
      }
  }

  /** Writing the text of `v` over a value of the same kind gives `v`. */
  lemma EnteredSameKind(codec: Codec, schema: Schema, existing: Json, v: Json)
    requires Lawful(codec, schema) && WellFormed(schema) && schema.Leaf? && !schema.ty.OptionalType?
    requires Fits(schema.ty, existing) && Fits(schema.ty, v)
    ensures Entered(codec, schema, existing, Text(codec, v)) == Ok(v)
  {
    hide Lawful;
    if v.Num? {
      ParseOfDecimal(v.n);
    } else if v.Arr? {
      ParseOfText(codec, schema, v);
    }
  }

  /** Writing the text of `v` over null gives `v` back unless it is a string that reads as JSON. */
  lemma EnteredOverNull(codec: Codec, schema: Schema, v: Json)
    requires Lawful(codec, schema) && WellFormed(schema) && schema.Leaf? && Fits(schema.ty, v)
    ensures After(Entered(codec, schema, Null, Text(codec, v)), Null) == v
            <==> (v.Str? ==> codec.parse(v.s) == None)
  {
    if !v.Str? {
      ParseOfText(codec, schema, v);
    }
  }

  /** No string over a null default reads as JSON. */
  ghost predicate TextsStayTexts(codec: Codec, schema: Schema, v: Json) {
    forall p :: IsLeaf(schema, p) ==> LeafStays(codec, SchemaAt(schema, p).value, At(v, p))
  }

  predicate LeafStays(codec: Codec, leaf: Schema, v: Option<Json>)
    requires leaf.Leaf?
  {
    leaf.initial.Null? && v.Some? && v.value.Str? ==> codec.parse(v.value.s) == None
  }

  lemma RoundTripAtLeaf(codec: Codec, schema: Schema, v: Json, m: map<string, Json>, p: seq<string>)
    requires Lawful(codec, schema) && WellFormed(schema) && OwnNames(schema) && Conforms(schema, v) && FlatOf(v, m)
    requires IsLeaf(schema, p)
    ensures p != [] && At(v, p).Some? && At(Initial(schema), p).Some?
    ensures LeafAfter(codec, schema, Initial(schema), m, p) == At(v, p).value
            <==> LeafStays(codec, SchemaAt(schema, p).value, At(v, p))
  {
    hide Lawful, OwnNames, Foreign, Entered, FlatOf;
    var leaf := SchemaAt(schema, p).value;
    LawfulAt(codec, schema, p);
    LeafIsNotForeign(schema, p);
    SchemaAtWellFormed(schema, p);
    AtConforms(schema, v, p);
    FlatHasLeaf(schema, v, m, p);
    if leaf.initial.Null? {
      EnteredOverNull(codec, leaf, At(v, p).value);
    } else {
      EnteredSameKind(codec, leaf, leaf.initial, At(v, p).value);
    }
  }

  /**
   Flattening settings and overlaying the result on the defaults, in any order, gives the settings back
   if and only if no string over a null default reads as JSON.
   */
  lemma RoundTripIff(codec: Codec, schema: Schema, v: Json, m: map<string, Json>, items: seq<(string, Json)>)
    requires Lawful(codec, schema) && WellFormed(schema) && OwnNames(schema) && Conforms(schema, v)
    requires FlatOf(v, m) && Lists(items, m)
    ensures Overlay(codec, schema, Initial(schema), items) == v <==> TextsStayTexts(codec, schema, v)
  {
    hide Lawful, WellFormed, Conforms, FlatOf, Lists, LeafStays, LeafAfter;
    var back := Overlay(codec, schema, Initial(schema), items);
    InitialConforms(schema);
    OverlayConforms(codec, schema, Initial(schema), items);
    FlatHasNoSections(schema, v, m);
    forall p | IsLeaf(schema, p)
      ensures At(back, p) == At(v, p) <==> LeafStays(codec, SchemaAt(schema, p).value, At(v, p))
    {
      OverlayIsPointwise(codec, schema, Initial(schema), m, items, p);
      RoundTripAtLeaf(codec, schema, v, m, p);
    }
    if TextsStayTexts(codec, schema, v) {
      LeavesDetermine(schema, back, v);
    }
  }

  // ---------------------------------------------------------------------
  // Resetting to the default
  // ---------------------------------------------------------------------

  /** Setting an entry to the text of its default. */
  function Reset(codec: Codec, schema: Schema, v: Json, parts: seq<string>): Result<Json, SetError>
    requires parts != []
  {
    match At(Initial(schema), parts)
    case None => Err(UnknownSetting)
    case Some(d) => Set(codec, schema, v, parts, Text(codec, d))
  }

  lemma NullIsNoNumber()
    ensures ParseU64("null") == None && ParseI64("null") == None
  {
    assert "null"[..3] == "nul" && "nul"[..2] == "nu" && "nu"[..1] == "n" && "n"[..0] == "";
    assert ParseDigits("n") == None;
    assert ParseDigits("nu") == None;
    assert ParseDigits("nul") == None;
  }

  /** Writing the text "null" over a set value clears it only where that value is an array. */
  lemma EnteredNull(codec: Codec, schema: Schema, existing: Json)
    requires Lawful(codec, schema) && WellFormed(schema) && schema.Leaf? && schema.ty.OptionalType?
    requires Fits(schema.ty, existing)
    ensures After(Entered(codec, schema, existing, "null"), existing) == Null <==> existing.Null? || existing.Arr?
  {
    hide ParseU64, ParseI64;
    NullIsNoNumber();
    FitsIsNoTree(schema.ty, existing);
  }

  /**
   A reset gives an entry its default exactly when the default is not null or the entry is null (or an
   array): an optional text that is set becomes the text "null", an optional number or flag stays as it is.
   */
  lemma ResetIsExactIff(codec: Codec, schema: Schema, v: Json, parts: seq<string>)
    requires Lawful(codec, schema) && WellFormed(schema) && Conforms(schema, v)
    requires parts != [] && SchemaAt(schema, parts).Some?
    ensures At(v, parts).Some?
    ensures After(Reset(codec, schema, v, parts), v) == Replace(v, parts, Initial(SchemaAt(schema, parts).value))
            <==> (Initial(SchemaAt(schema, parts).value).Null? ==> At(v, parts).value.Null? || At(v, parts).value.Arr?)
  {
    hide Lawful, Conforms, Entered, Set;
    var sub := SchemaAt(schema, parts).value;
    SchemaAtWellFormed(schema, parts);
    AtConforms(schema, v, parts);
    InitialConforms(sub);
    var existing, d := At(v, parts).value, Initial(sub);
    SetIsLocal(codec, schema, v, parts, Text(codec, d));
    LawfulAt(codec, schema, parts);
    EnteredDefault(codec, sub, existing);
    var entered := Entered(codec, sub, existing, Text(codec, d));
    ReplaceBySame(v, parts);
    if After(entered, existing) != d {
      ReplaceIsInjective(v, parts, After(entered, existing), d);
    }
  }

  lemma {:induction false} ReplaceBySame(v: Json, parts: seq<string>)
    requires At(v, parts).Some?
    ensures Replace(v, parts, At(v, parts).value) == v
  {
    if parts != [] {
      ReplaceBySame(v.fields[parts[0]], parts[1..]);
      assert |parts| == 1 ==> parts[1..] == [];
      assert v.fields[parts[0] := v.fields[parts[0]]] == v.fields;
    }
  }

  lemma {:induction false} ReplaceIsInjective(v: Json, parts: seq<string>, x: Json, y: Json)
    requires At(v, parts).Some? && x != y
    ensures Replace(v, parts, x) != Replace(v, parts, y)
  {
    if parts != [] {
      var k := parts[0];
      assert |parts| == 1 ==> parts[1..] == [];
      ReplaceIsInjective(v.fields[k], parts[1..], x, y);
      assert Replace(v, parts, x).fields[k] != Replace(v, parts, y).fields[k];
    }
  }

  lemma EnteredDefault(codec: Codec, schema: Schema, existing: Json)
    requires Lawful(codec, schema) && WellFormed(schema) && Conforms(schema, existing)
    ensures After(Entered(codec, schema, existing, Text(codec, Initial(schema))), existing) == Initial(schema)
            <==> (Initial(schema).Null? ==> existing.Null? || existing.Arr?)
  {
    InitialConforms(schema);
    if schema.Node? {
      ParseOfText(codec, schema, Initial(schema));
      ConformingIsFixed(schema, Initial(schema));
    } else if Initial(schema).Null? {
      EnteredNull(codec, schema, existing);
    } else {
      EnteredSameKind(codec, schema, existing, Initial(schema));
    }
  }
  // ---------------------------------------------------------------------
  // The mutable settings
  // ---------------------------------------------------------------------

  function PathUnder(prefix: string): seq<string> {
    if prefix == "" then [] else Split(prefix)
  }

  /** The entry that `key` names in a tree whose own key is `prefix`. */
  function Reached(v: Json, prefix: string, key: string): Option<Json> {
    var under, parts := PathUnder(prefix), Split(key);
    if under <= parts then LeafValue(At(v, parts[|under|..])) else None
  }

  function ValueAt(m: map<string, Json>, key: string): Option<Json> {
    if key in m then Some(m[key]) else None
  }

  function Or(first: Option<Json>, second: Option<Json>): Option<Json> {
    if first.Some? then first else second
  }

  /** `out` is `results` with the entries of the tree added. */
  ghost predicate Collected(
      out: map<string, Json>, results: map<string, Json>, v: Json, prefix: string)
  {
    forall key :: ValueAt(out, key) == Or(Reached(v, prefix, key), ValueAt(results, key))
  }

  ghost predicate PlainNames(v: Json) {
    v.Obj? ==> forall k :: k in v.fields ==> Plain(k) && PlainNames(v.fields[k])
  }

  function Extend(prefix: string, key: string): string {
    if prefix == "" then key else prefix + "." + key
  }

  lemma PathUnderExtend(prefix: string, key: string)
    requires Plain(key)
    ensures PathUnder(Extend(prefix, key)) == PathUnder(prefix) + [key]
  {
    SplitOfName(key);
    if prefix != "" {
      SplitOfDotted(prefix, key);
    }
  }

  lemma ReachedAddField(f: map<string, Json>, k: string, x: Json, prefix: string, key: string)
    requires k !in f && Plain(k)
    ensures Reached(Obj(f[k := x]), prefix, key) ==
            Or(Reached(x, Extend(prefix, k), key), Reached(Obj(f), prefix, key))
  {
    hide PathUnder, Split;
    var under, parts := PathUnder(prefix), Split(key);
    PathUnderExtend(prefix, k);
    if under <= parts && |under| < |parts| {
      assert under + [k] <= parts <==> parts[|under|] == k;
      assert parts[|under|..][1..] == parts[|under| + 1..];
    }
  }

  method CollectSettingsJson(value: Json, prefix: string, results: map<string, Json>)
    returns (out: map<string, Json>)
    requires PlainNames(value) && (value.Obj? || prefix != "")
    ensures Collected(out, results, value, prefix)
    decreases value
  {
    hide Collected;
    if !value.Obj? {
      out := results[prefix := value];
      LeafIsCollected(results, value, prefix);
      return;
    }
    out := results;
    NothingIsCollected(results, prefix);
    var rest := value.fields;
    ghost var done: map<string, Json> := map[];
    while rest != map[]
      invariant rest.Keys + done.Keys == value.fields.Keys && rest.Keys !! done.Keys
      invariant forall k :: k in rest ==> rest[k] == value.fields[k]
      invariant forall k :: k in done ==> done[k] == value.fields[k]
      invariant Collected(out, results, Obj(done), prefix)
      decreases rest.Keys
    {
      var key :| key in rest;
      var next := CollectSettingsJson(value.fields[key], Extend(prefix, key), out);
      CollectedAddField(out, next, results, done, key, value.fields[key], prefix);
      out := next;
      done := done[key := value.fields[key]];
      rest := rest - {key};
    }
    assert done == value.fields;
  }

  lemma LeafIsReached(v: Json, prefix: string)
    requires !v.Obj? && prefix != ""
    ensures forall key :: Reached(v, prefix, key) == (if key == prefix then Some(v) else None)
  {
    forall key ensures Reached(v, prefix, key) == if key == prefix then Some(v) else None {
      JoinOfSplit(key);
      JoinOfSplit(prefix);
      if Split(prefix) <= Split(key) && |Split(prefix)| == |Split(key)| {
        assert Split(prefix) == Split(key);
      }
    }
  }

  lemma LeafIsCollected(results: map<string, Json>, v: Json, prefix: string)
    requires !v.Obj? && prefix != ""
    ensures Collected(results[prefix := v], results, v, prefix)
  {
    hide Reached;
    LeafIsReached(v, prefix);
  }

  lemma NothingIsCollected(results: map<string, Json>, prefix: string)
    ensures Collected(results, results, Obj(map[]), prefix)
  {
  }

  lemma CollectedAddField(
      out: map<string, Json>, next: map<string, Json>, results: map<string, Json>,
      done: map<string, Json>, k: string, x: Json, prefix: string)
    requires Collected(out, results, Obj(done), prefix) && k !in done && Plain(k)
    requires Collected(next, out, x, Extend(prefix, k))
    ensures Collected(next, results, Obj(done[k := x]), prefix)
  {
    hide Reached, Extend, Plain;
    forall key
      ensures ValueAt(next, key) == Or(Reached(Obj(done[k := x]), prefix, key), ValueAt(results, key))
    {
      ReachedAddField(done, k, x, prefix, key);
    }
  }

  lemma {:induction false} ConformsPlainNames(schema: Schema, v: Json)
    requires WellFormed(schema) && Conforms(schema, v)
    ensures PlainNames(v)
  {
    match schema
    case Leaf(ty, _, _) => FitsIsNoTree(ty, v);
    case Node(fields, _) =>
      forall k | k in v.fields ensures PlainNames(v.fields[k]) {
        ConformsPlainNames(fields[k], v.fields[k]);
      }
  }

  class SettingsStore {
    const codec: Codec
    const schema: Schema
    var value: Json

    ghost predicate Valid()
      reads this
    {
      WellFormed(schema) && schema.Node? && Conforms(schema, value)
    }

    /** The default settings. */
    constructor (codec: Codec, schema: Schema)
      requires WellFormed(schema) && schema.Node?
      ensures Valid() && value == Initial(schema)
      ensures this.codec == codec && this.schema == schema
    {
      this.codec, this.schema := codec, schema;
      value := Initial(schema);
      InitialConforms(schema);
    }

    method SetPath(path: string, text: string) returns (r: Option<SetError>)
      requires Valid()
      modifies this
      ensures Valid()
      ensures match Set(codec, schema, old(value), Split(path), text)
              case Ok(s) => r == None && value == s
              case Err(e) => r == Some(e) && value == old(value)
    {
      hide WellFormed, Conforms, FromValue, Infer;
      var parts := Split(path);
      SetConforms(codec, schema, value, parts, text);
      ghost var front := parts[..|parts| - 1];
      var current, i := value, 0;
      while i < |parts| - 1
        invariant 0 <= i < |parts|
        invariant value == old(value) && At(value, front[..i]) == Some(current)
      {
        AtStep(value, front, i);
        if !current.Obj? || parts[i] !in current.fields {
          AtOfPrefix(value, front, i + 1);
          return Some(PathNotFound);
        }
        current := current.fields[parts[i]];
        i := i + 1;
      }
      assert front[..i] == front;
      if !current.Obj? {
        return Some(ParentNotObject);
      }
      match Infer(codec, Lookup(current, parts[|parts| - 1]), text) {
        case Err(e) => return Some(e);
        case Ok(x) =>
          match FromValue(schema, Replace(value, parts, x)) {
            case None => return Some(ApplyFailed);
            case Some(s) => value := s;
          }
      }
      return None;
    }

    method ToDbMap() returns (m: map<string, Json>)
      requires Valid()
      ensures FlatOf(value, m)
    {
      ConformsPlainNames(schema, value);
      m := CollectSettingsJson(value, "", map[]);
      assert forall key :: Split(key)[0..] == Split(key);
      assert forall key :: Reached(value, "", key) == LeafValue(At(value, Split(key)));
      assert forall key :: ValueAt(m, key) == LeafValue(At(value, Split(key)));
    }
  }

  lemma {:induction false} AtStep(v: Json, parts: seq<string>, i: nat)
    requires i < |parts| && At(v, parts[..i]).Some?
    ensures var here := At(v, parts[..i]).value;
      At(v, parts[..i + 1]) ==
      if here.Obj? && parts[i] in here.fields then Some(here.fields[parts[i]]) else None
  {
    if i > 0 {
      assert parts[..i][1..] == parts[1..][..i - 1] && parts[..i + 1][1..] == parts[1..][..i];
      AtStep(v.fields[parts[0]], parts[1..], i - 1);
    } else {
      assert parts[..1][1..] == [];
    }
  }

  lemma {:induction false} AtOfPrefix(v: Json, parts: seq<string>, i: nat)
    requires i <= |parts| && At(v, parts[..i]) == None
    ensures At(v, parts) == None
  {
    if i > 0 && v.Obj? && parts[0] in v.fields {
      assert parts[..i][1..] == parts[1..][..i - 1];
      AtOfPrefix(v.fields[parts[0]], parts[1..], i - 1);
    }
  }

  /** Reads the entries in the order in which the map hands them out. */
  method FromDbMap(codec: Codec, schema: Schema, items: seq<(string, Json)>) returns (settings: SettingsStore)
    requires WellFormed(schema) && schema.Node?
    ensures fresh(settings) && settings.Valid()
    ensures settings.codec == codec && settings.schema == schema
    ensures settings.value == Overlay(codec, schema, Initial(schema), items)
  {
    settings := new SettingsStore(codec, schema);
    for i := 0 to |items|
      invariant fresh(settings) && settings.Valid()
      invariant settings.codec == codec && settings.schema == schema
      invariant settings.value == Overlay(codec, schema, Initial(schema), items[..i])
    {
      assert items[..i + 1][..i] == items[..i];
      if !Foreign(items[i].0) {
        var error := settings.SetPath(items[i].0, Text(codec, items[i].1));
      }
    }
    assert items[..|items|] == items;
  }

  /** Keys of extensions and channel switches do not touch the settings. */
  lemma ForeignIsSkipped(codec: Codec, schema: Schema, v: Json, rest: string, x: Json)
    ensures ApplyItem(codec, schema, v, ("extensions." + rest, x)) == v
    ensures ApplyItem(codec, schema, v, ("channel.enabled." + rest, x)) == v
  {
    hide Set;
  }
}
