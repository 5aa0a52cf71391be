/**
 The laws that module Settings asks of the JSON text format can be met: a text format that meets them.
 It stands in for JSON text only to show that the laws do not contradict each other.
 */
module SettingsCodec {
  import opened Wrappers
  import opened Settings

  /** A string with every character marked, and an end mark. */
  function Quoted(s: string): string {
    if s == "" then "," else ['.', s[0]] + Quoted(s[1..])
  }

  ghost function Encode(v: Json): (t: string)
    ensures t != "" && t[0] in "ntfris[{"
    decreases v, 1, 0
  {
    match v
    case Null => "n"
    case Bool(b) => if b then "t" else "f"
    case Num(n) => "i" + Decimal(n) + ";"
    case Float(_) => "r"
    case Str(s) => "s" + Quoted(s)
    case Arr(_) => "[" + EncodeItems(v, 0)
    case Obj(fields) => "{" + EncodeFields(v, fields.Keys)
  }

  ghost function EncodeItems(v: Json, i: nat): string
    requires v.Arr? && i <= |v.items|
    decreases v, 0, |v.items| - i
  {
    if i == |v.items| then "]" else Encode(v.items[i]) + EncodeItems(v, i + 1)
  }

  /** Objects have no order; any choice of the next key does. */
  ghost function EncodeFields(v: Json, keys: set<string>): string
    requires v.Obj? && keys <= v.fields.Keys
    decreases v, 0, |keys|
  {
    if keys == {} then "}"
    else
      var k :| k in keys;
      "k" + Quoted(k) + Encode(v.fields[k]) + EncodeFields(v, keys - {k})
  }

  lemma {:induction false} QuotedIsPrefixFree(s: string, t: string, x: string, y: string)
    requires Quoted(s) + x == Quoted(t) + y
    ensures s == t && x == y
  {
    var a, b := Quoted(s) + x, Quoted(t) + y;
    assert a[0] == b[0];
    if s == "" {
      assert a[1..] == x && b[1..] == y;
    } else {
      assert a[1] == s[0] && b[1] == t[0];
      assert a[2..] == Quoted(s[1..]) + x && b[2..] == Quoted(t[1..]) + y;
      QuotedIsPrefixFree(s[1..], t[1..], x, y);
      assert s == [s[0]] + s[1..] && t == [t[0]] + t[1..];
    }
  }

  lemma UpToMark(a: string, b: string, mark: char, x: string, y: string)
    requires mark !in a && mark !in b && a + [mark] + x == b + [mark] + y
    ensures a == b && x == y
  {
    var whole := a + [mark] + x;
    assert whole[|a|] == mark && whole[|b|] == mark;
    assert forall i :: 0 <= i < |a| ==> whole[i] == a[i] && a[i] in a;
    assert forall i :: 0 <= i < |b| ==> whole[i] == b[i] && b[i] in b;
    assert |a| == |b|;
    assert whole[..|a|] == a && whole[..|b|] == b;
    assert whole[|a| + 1..] == x && whole[|b| + 1..] == y;
  }

  lemma {:induction false} DigitsOnly(n: nat, c: char)
    requires !('0' <= c <= '9')
    ensures c !in Digits(n)
  {
    if n >= 10 {
      DigitsOnly(n / 10, c);
    }
  }

  lemma DecimalIsInjective(n: int, m: int)
    requires Decimal(n) == Decimal(m)
    ensures n == m
  {
    var a, b := if n < 0 then -n else n, if m < 0 then -m else m;
    ParseOfDigits(a);
    ParseOfDigits(b);
    assert n < 0 ==> Decimal(n)[0] == '-' && Decimal(n)[1..] == Digits(a);
    assert m < 0 ==> Decimal(m)[0] == '-' && Decimal(m)[1..] == Digits(b);
  }

  lemma NumIsPrefixFree(n: int, m: int, x: string, y: string)
    requires Decimal(n) + ";" + x == Decimal(m) + ";" + y
    ensures n == m && x == y
  {
    DigitsOnly(if n < 0 then -n else n, ';');
    DigitsOnly(if m < 0 then -m else m, ';');
    UpToMark(Decimal(n), Decimal(m), ';', x, y);
    DecimalIsInjective(n, m);
  }

  /** No text of a tree is the beginning of another's, so a tree can be read back from its text. */
  lemma {:induction false} EncodeIsPrefixFree(v: Json, w: Json, x: string, y: string)
    requires FloatFree(v) && FloatFree(w) && Encode(v) + x == Encode(w) + y
    ensures v == w && x == y
    decreases v, 1, 0
  {
    hide EncodeItems, EncodeFields, Quoted, Decimal;
    assert Encode(v)[0] == (Encode(v) + x)[0] == (Encode(w) + y)[0] == Encode(w)[0];
    SameKind(v, w);
    assert Encode(v)[1..] + x == (Encode(v) + x)[1..] == (Encode(w) + y)[1..] == Encode(w)[1..] + y;
    match v
    case Num(n) =>
      assert Encode(v)[1..] == Decimal(n) + ";" && Encode(w)[1..] == Decimal(w.n) + ";";
      NumIsPrefixFree(n, w.n, x, y);
    case Str(s) =>
      assert Encode(v)[1..] == Quoted(s) && Encode(w)[1..] == Quoted(w.s);
      QuotedIsPrefixFree(s, w.s, x, y);
    case Arr(_) =>
      assert Encode(v)[1..] == EncodeItems(v, 0) && Encode(w)[1..] == EncodeItems(w, 0);
      ItemsArePrefixFree(v, w, 0, x, y);
    case Obj(_) =>
      assert Encode(v)[1..] == EncodeFields(v, v.fields.Keys) && Encode(w)[1..] == EncodeFields(w, w.fields.Keys);
      FieldsArePrefixFree(v, w, v.fields.Keys, w.fields.Keys, x, y);
      assert v.fields == w.fields;
    case _ =>
      assert Encode(v)[1..] == "" && Encode(w)[1..] == "";
  }

  /** The first character tells the kind of a value. */
  lemma SameKind(v: Json, w: Json)
    requires !v.Float? && !w.Float? && Encode(v)[0] == Encode(w)[0]
    ensures (v.Null? <==> w.Null?) && (v.Num? <==> w.Num?) && (v.Str? <==> w.Str?)
    ensures (v.Arr? <==> w.Arr?) && (v.Obj? <==> w.Obj?) && (v.Bool? <==> w.Bool?)
    ensures v.Bool? ==> v == w
    ensures v.Null? || v.Bool? ==> |Encode(v)| == |Encode(w)| == 1
  {
    hide EncodeItems, EncodeFields, Quoted, Decimal;
  }

  lemma {:induction false} ItemsArePrefixFree(v: Json, w: Json, i: nat, x: string, y: string)
    requires v.Arr? && w.Arr? && FloatFree(v) && FloatFree(w) && i <= |v.items| && i <= |w.items|
    requires v.items[..i] == w.items[..i]
    requires EncodeItems(v, i) + x == EncodeItems(w, i) + y
    ensures v.items == w.items && x == y
    decreases v, 0, |v.items| - i
  {
    hide Encode;
    PartsAreFloatFree(v);
    PartsAreFloatFree(w);
    var a, b := EncodeItems(v, i) + x, EncodeItems(w, i) + y;
    assert a[0] == b[0];
    if i == |v.items| {
      assert i == |w.items|;
      assert a[1..] == x && b[1..] == y;
    } else {
      var restV, restW := EncodeItems(v, i + 1) + x, EncodeItems(w, i + 1) + y;
      assert a == Encode(v.items[i]) + restV && b == Encode(w.items[i]) + restW;
      EncodeIsPrefixFree(v.items[i], w.items[i], restV, restW);
      assert v.items[..i + 1] == v.items[..i] + [v.items[i]] && w.items[..i + 1] == w.items[..i] + [w.items[i]];
      ItemsArePrefixFree(v, w, i + 1, x, y);
    }
  }

  lemma FieldsStart(v: Json, keys: set<string>)
    requires v.Obj? && keys <= v.fields.Keys
    ensures var t := EncodeFields(v, keys); if keys == {} then t == "}" else t != "" && t[0] == 'k'
  {
    hide Encode, Quoted;
  }

  lemma PartsAreFloatFree(v: Json)
    requires FloatFree(v)
    ensures v.Obj? ==> forall k :: k in v.fields ==> FloatFree(v.fields[k])
    ensures v.Arr? ==> forall i :: 0 <= i < |v.items| ==> FloatFree(v.items[i])
  {
  }

  /** The text of the fields without its first mark. */
  lemma FieldsSplit(v: Json, keys: set<string>, x: string)
    requires v.Obj? && {} < keys <= v.fields.Keys
    ensures var k := FirstKey(v, keys);
      EncodeFields(v, keys) + x == "k" + (Quoted(k) + (Encode(v.fields[k]) + (EncodeFields(v, keys - {k}) + x)))
  {
    hide Encode, EncodeFields, Quoted;
    var k := FirstKey(v, keys);
  }

  lemma {:induction false} FieldsArePrefixFree(
      v: Json, w: Json, vs: set<string>, ws: set<string>, x: string, y: string)
    requires v.Obj? && w.Obj? && FloatFree(v) && FloatFree(w) && vs <= v.fields.Keys && ws <= w.fields.Keys
    requires EncodeFields(v, vs) + x == EncodeFields(w, ws) + y
    ensures vs == ws && x == y && forall k :: k in vs ==> v.fields[k] == w.fields[k]
    decreases v, 0, |vs|
  {
    hide Encode, EncodeFields, Quoted, FloatFree;
    PartsAreFloatFree(v);
    PartsAreFloatFree(w);
    var a, b := EncodeFields(v, vs) + x, EncodeFields(w, ws) + y;
    FieldsStart(v, vs);
    FieldsStart(w, ws);
    assert a[0] == b[0];
    if vs == {} {
      assert a[1..] == x && b[1..] == y;
    } else {
      assert ws != {};
      FieldsSplit(v, vs, x);
      FieldsSplit(w, ws, y);
      var k, l := FirstKey(v, vs), FirstKey(w, ws);
      var restV, restW := EncodeFields(v, vs - {k}) + x, EncodeFields(w, ws - {l}) + y;
      assert a[1..] == Quoted(k) + (Encode(v.fields[k]) + restV);
      assert b[1..] == Quoted(l) + (Encode(w.fields[l]) + restW);
      QuotedIsPrefixFree(k, l, Encode(v.fields[k]) + restV, Encode(w.fields[l]) + restW);
      EncodeIsPrefixFree(v.fields[k], w.fields[l], restV, restW);
      FieldsArePrefixFree(v, w, vs - {k}, ws - {l}, x, y);
      assert vs == vs - {k} + {k} && ws == ws - {k} + {k};
    }
  }

  /** The key that comes first in the text. */
  ghost function FirstKey(v: Json, keys: set<string>): (k: string)
    requires v.Obj? && {} < keys <= v.fields.Keys
    ensures k in keys
    ensures EncodeFields(v, keys) == "k" + Quoted(k) + Encode(v.fields[k]) + EncodeFields(v, keys - {k})
  {
    var k :| k in keys && EncodeFields(v, keys) == "k" + Quoted(k) + Encode(v.fields[k]) + EncodeFields(v, keys - {k});
    k
  }

  ghost predicate IsTree(v: Json) {
    (v.Arr? || v.Obj?) && FloatFree(v)
  }

  ghost function Parse(t: string): Option<Json> {
    if t == "null" then Some(Null)
    else if t == "true" then Some(Bool(true))
    else if t == "false" then Some(Bool(false))
    else if exists n :: Decimal(n) == t then
      var n :| Decimal(n) == t;
      Some(Num(n))
    else if exists v :: IsTree(v) && Encode(v) == t then
      var v :| IsTree(v) && Encode(v) == t;
      Some(v)
    else None
  }

  lemma DecimalStart(n: int)
    ensures Decimal(n) != "" && (Decimal(n)[0] == '-' || '0' <= Decimal(n)[0] <= '9')
  {
    ParseOfDigits(if n < 0 then -n else n);
  }

  lemma ParseOfNumber(n: int)
    ensures Parse(Decimal(n)) == Some(Num(n))
  {
    hide Decimal, Encode;
    DecimalStart(n);
    var t := Decimal(n);
    var m :| Decimal(m) == t && Parse(t) == Some(Num(m));
    DecimalIsInjective(n, m);
  }

  lemma ParseOfTree(v: Json)
    requires IsTree(v)
    ensures Parse(Encode(v)) == Some(v)
  {
    var t := Encode(v);
    assert t[0] == '[' || t[0] == '{';
    hide Decimal, Encode;
    forall n ensures Decimal(n) != t {
      DecimalStart(n);
    }
    var w :| IsTree(w) && Encode(w) == t && Parse(t) == Some(w);
    assert Encode(v) + "" == Encode(w) + "";
    EncodeIsPrefixFree(v, w, "", "");
  }

  lemma ParseIsNoText(t: string)
    ensures Parse(t) != Some(Str(t))
  {
  }

  ghost function TreeCodec(): Codec {
    Codec((t: string) => Parse(t), (v: Json) => Encode(v), (x: real) => "", (t: string) => None)
  }

  lemma {:induction false} TreeCodecReadsBack(schema: Schema)
    ensures ReadsBack(TreeCodec(), schema)
  {
    hide Parse, Encode, FloatFree;
    forall v: Json | Conforms(schema, v) && (v.Arr? || v.Obj?)
      ensures TreeCodec().parse(TreeCodec().showTree(v)) == Some(v)
    {
      ConformsIsFloatFree(schema, v);
      ParseOfTree(v);
    }
    if schema.Node? {
      forall k | k in schema.fields ensures ReadsBack(TreeCodec(), schema.fields[k]) {
        TreeCodecReadsBack(schema.fields[k]);
      }
    }
  }

  /** The laws can be met, for every schema at once. */
  lemma SomeCodecIsLawful(schema: Schema)
    ensures Lawful(TreeCodec(), schema)
  {
    hide Parse, Encode, Decimal, ReadsBack;
    TreeCodecReadsBack(schema);
    assert TreeCodec().parse("null") == Some(Null) by { ParseOfWords(); }
    forall b: bool ensures TreeCodec().parse(if b then "true" else "false") == Some(Bool(b)) {
      ParseOfWords();
    }
    forall n: int ensures TreeCodec().parse(Decimal(n)) == Some(Num(n)) {
      ParseOfNumber(n);
    }
    forall t: string ensures TreeCodec().parse(t) != Some(Str(t)) {
      ParseIsNoText(t);
    }
  }

  lemma ParseOfWords()
    ensures Parse("null") == Some(Null) && Parse("true") == Some(Bool(true)) && Parse("false") == Some(Bool(false))
  {
  }
}
