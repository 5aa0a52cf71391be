/** Which texts a setting takes, and what it makes of them (`set` in src/settings.rs). */
module SettingsInput {
  import opened Wrappers
  import opened Settings
  import opened SettingsSchema

  // ---------------------------------------------------------------------
  // Numbers as they are written
  // ---------------------------------------------------------------------

  predicate IsDigit(c: char) {
    '0' <= c <= '9'
  }

  /** One or more digits. */
  predicate AllDigits(t: string) {
    t != "" && forall i :: 0 <= i < |t| ==> IsDigit(t[i])
  }

  function Power10(n: nat): nat {
    if n == 0 then 1 else 10 * Power10(n - 1)
  }

  function DigitValue(c: char): nat
    requires IsDigit(c)
  {
    c as int - '0' as int
  }

  /** The number that the digits write, by their places. */
  function PlaceValue(t: string): nat
    requires forall i :: 0 <= i < |t| ==> IsDigit(t[i])
  {
    if t == "" then 0 else DigitValue(t[0]) * Power10(|t| - 1) + PlaceValue(t[1..])
  }

  lemma {:induction false} PlaceValueSnoc(t: string, c: char)
    requires IsDigit(c) && forall i :: 0 <= i < |t| ==> IsDigit(t[i])
    ensures PlaceValue(t + [c]) == 10 * PlaceValue(t) + DigitValue(c)
  {
    var all := t + [c];
    if t == "" {
      assert all[1..] == "";
      assert Power10(0) == 1;
    } else {
      assert all[0] == t[0] && all[1..] == t[1..] + [c];
      PlaceValueSnoc(t[1..], c);
      MoveUp(DigitValue(t[0]), Power10(|t| - 1));
      assert Power10(|t|) == 10 * Power10(|t| - 1);
    }
  }

  lemma MoveUp(d: nat, p: nat)
    ensures d * (10 * p) == 10 * (d * p)
  {
  }

  lemma {:induction false} ParsedByPlaces(t: string)
    ensures ParseDigits(t) ==
            if forall i :: 0 <= i < |t| ==> IsDigit(t[i]) then Some(PlaceValue(t)) else None
  {
    if t != "" {
      var front, last := t[..|t| - 1], t[|t| - 1];
      ParsedByPlaces(front);
      assert t == front + [last];
      if forall i :: 0 <= i < |t| ==> IsDigit(t[i]) {
        assert forall i :: 0 <= i < |front| ==> front[i] == t[i];
        PlaceValueSnoc(front, last);
      } else if forall i :: 0 <= i < |front| ==> IsDigit(front[i]) {
        assert forall i :: 0 <= i < |front| ==> t[i] == front[i];
        assert !IsDigit(last);
      }
    }
  }

  /** The digits after an optional plus sign. */
  function AfterPlus(t: string): string {
    if t != "" && t[0] == '+' then t[1..] else t
  }

  /** The digits after an optional sign. */
  function AfterSign(t: string): string {
    if t != "" && (t[0] == '+' || t[0] == '-') then t[1..] else t
  }

  /** The number written with an optional sign. */
  function SignedValue(t: string): int
    requires AllDigits(AfterSign(t))
  {
    if t[0] == '-' then -(PlaceValue(AfterSign(t)) as int) else PlaceValue(AfterSign(t))
  }

  lemma UnsignedIsRead(t: string)
    ensures ParseU64(t) ==
            if AllDigits(AfterPlus(t)) && PlaceValue(AfterPlus(t)) <= U64_MAX then Some(PlaceValue(AfterPlus(t)))
            else None
  {
    ParsedByPlaces(AfterPlus(t));
  }

  lemma SignedIsRead(t: string)
    ensures ParseI64(t) ==
            if AllDigits(AfterSign(t)) && -I64_MAX - 1 <= SignedValue(t) <= I64_MAX then Some(SignedValue(t))
            else None
  {
    ParsedByPlaces(AfterSign(t));
  }

  // ---------------------------------------------------------------------
  // What a set over each kind of value takes
  // ---------------------------------------------------------------------

  /** A boolean takes "true" and "false"; every other text is refused, and the settings stay as they are. */
  lemma BooleanTakesIff(codec: Codec, schema: Schema, v: Json, parts: seq<string>, text: string)
    requires WellFormed(schema) && Conforms(schema, v) && parts != [] && IsLeaf(schema, parts)
    requires At(v, parts).Some? && At(v, parts).value.Bool?
    ensures Set(codec, schema, v, parts, text) ==
            if text == "true" then Ok(Replace(v, parts, Bool(true)))
            else if text == "false" then Ok(Replace(v, parts, Bool(false)))
            else Err(ExpectedBoolean)
  {
    hide WellFormed, Set, Replace, Conforms;
    SetIsLocal(codec, schema, v, parts, text);
    AtConforms(schema, v, parts);
    BooleanFits(schema, v, parts);
  }

  lemma BooleanFits(schema: Schema, v: Json, parts: seq<string>)
    requires IsLeaf(schema, parts) && At(v, parts).Some? && At(v, parts).value.Bool?
    requires Conforms(SchemaAt(schema, parts).value, At(v, parts).value)
    ensures forall b :: FromValue(SchemaAt(schema, parts).value, Bool(b)) == Some(Bool(b))
  {
    AnyBooleanFits(SchemaAt(schema, parts).value.ty, At(v, parts).value);
  }

  lemma {:induction false} AnyBooleanFits(ty: Type, v: Json)
    requires Fits(ty, v) && v.Bool?
    ensures forall b :: Fits(ty, Bool(b))
  {
    if ty.OptionalType? {
      AnyBooleanFits(ty.inner, v);
    }
  }

  /** The numbers that a type takes. */
  function Bare(ty: Type): Type
  {
    if ty.OptionalType? then Bare(ty.inner) else ty
  }

  lemma {:induction false} NumbersThatFit(ty: Type, v: Json)
    requires Fits(ty, v) && v.Num?
    ensures Bare(ty).IntType?
    ensures forall n :: Fits(ty, Num(n)) <==> Bare(ty).lo <= n <= Bare(ty).hi
  {
    if ty.OptionalType? {
      NumbersThatFit(ty.inner, v);
    }
  }

  predicate InType(ty: Type, n: int) {
    ty.IntType? ==> ty.lo <= n <= ty.hi
  }

  lemma NumberEntered(codec: Codec, leaf: Schema, existing: Json, text: string)
    requires leaf.Leaf? && Fits(leaf.ty, existing) && existing.Num?
    ensures var read := if existing.n >= 0 then ParseU64(text) else ParseI64(text);
      Entered(codec, leaf, existing, text) ==
      match read
      case None => Err(ExpectedInteger)
      case Some(n) => if InType(Bare(leaf.ty), n) then Ok(Num(n)) else Err(ApplyFailed)
  {
    hide ParseU64, ParseI64;
    NumbersThatFit(leaf.ty, existing);
  }

  /**
   Over a number that is not negative: digits, after a plus sign or not, store the number they write exactly
   if it has 64 bits and the type takes it; every other text is refused.
   */
  lemma CountTakesIff(codec: Codec, schema: Schema, v: Json, parts: seq<string>, text: string)
    requires WellFormed(schema) && Conforms(schema, v) && parts != [] && IsLeaf(schema, parts)
    requires At(v, parts).Some? && At(v, parts).value.Num? && At(v, parts).value.n >= 0
    ensures var ty := Bare(SchemaAt(schema, parts).value.ty); var digits := AfterPlus(text);
      && ty.IntType?
      && Set(codec, schema, v, parts, text) ==
         if !AllDigits(digits) || PlaceValue(digits) > U64_MAX then Err(ExpectedInteger)
         else if ty.lo <= PlaceValue(digits) <= ty.hi then Ok(Replace(v, parts, Num(PlaceValue(digits))))
         else Err(ApplyFailed)
  {
    hide WellFormed, Set, Replace, Conforms, ParseU64, ParseI64, Entered;
    SetIsLocal(codec, schema, v, parts, text);
    AtConforms(schema, v, parts);
    ConformsIsFits(SchemaAt(schema, parts).value, At(v, parts).value);
    NumberEntered(codec, SchemaAt(schema, parts).value, At(v, parts).value, text);
    NumbersThatFit(SchemaAt(schema, parts).value.ty, At(v, parts).value);
    UnsignedIsRead(text);
  }

  lemma ConformsIsFits(leaf: Schema, v: Json)
    requires leaf.Leaf? && Conforms(leaf, v)
    ensures Fits(leaf.ty, v)
  {
  }

  /**
   Over a negative number: digits, after a sign or not, store the number they write exactly if it fits a
   signed 64-bit integer and the type takes it; every other text is refused.
   */
  lemma NegativeTakesIff(codec: Codec, schema: Schema, v: Json, parts: seq<string>, text: string)
    requires WellFormed(schema) && Conforms(schema, v) && parts != [] && IsLeaf(schema, parts)
    requires At(v, parts).Some? && At(v, parts).value.Num? && At(v, parts).value.n < 0
    ensures var ty := Bare(SchemaAt(schema, parts).value.ty);
      && ty.IntType?
      && Set(codec, schema, v, parts, text) ==
         if !AllDigits(AfterSign(text)) || !(-I64_MAX - 1 <= SignedValue(text) <= I64_MAX) then Err(ExpectedInteger)
         else if ty.lo <= SignedValue(text) <= ty.hi then Ok(Replace(v, parts, Num(SignedValue(text))))
         else Err(ApplyFailed)
  {
    hide WellFormed, Set, Replace, Conforms, ParseU64, ParseI64, Entered;
    SetIsLocal(codec, schema, v, parts, text);
    AtConforms(schema, v, parts);
    ConformsIsFits(SchemaAt(schema, parts).value, At(v, parts).value);
    NumberEntered(codec, SchemaAt(schema, parts).value, At(v, parts).value, text);
    NumbersThatFit(SchemaAt(schema, parts).value.ty, At(v, parts).value);
    SignedIsRead(text);
  }

  lemma {:induction false} TextsThatFit(ty: Type, v: Json, t: string)
    requires Fits(ty, v) && v.Str?
    ensures Fits(ty, Str(t)) <==> (Bare(ty).ChoiceType? ==> t in Bare(ty).names)
    ensures Bare(ty).TextType? || Bare(ty).ChoiceType?
  {
    if ty.OptionalType? {
      TextsThatFit(ty.inner, v, t);
    }
  }

  /** A text takes every text as it is, unless the names are limited. */
  lemma TextTakesIff(codec: Codec, schema: Schema, v: Json, parts: seq<string>, text: string)
    requires WellFormed(schema) && Conforms(schema, v) && parts != [] && IsLeaf(schema, parts)
    requires At(v, parts).Some? && At(v, parts).value.Str?
    ensures var ty := Bare(SchemaAt(schema, parts).value.ty);
      Set(codec, schema, v, parts, text) ==
      if ty.ChoiceType? ==> text in ty.names then Ok(Replace(v, parts, Str(text))) else Err(ApplyFailed)
  {
    hide WellFormed, Set, Replace, Conforms;
    SetIsLocal(codec, schema, v, parts, text);
    AtConforms(schema, v, parts);
    ConformsIsFits(SchemaAt(schema, parts).value, At(v, parts).value);
    TextsThatFit(SchemaAt(schema, parts).value.ty, At(v, parts).value, text);
  }

  predicate AllTexts(x: Json) {
    x.Arr? && forall i :: 0 <= i < |x.items| ==> x.items[i].Str?
  }

  /** The values of a type that is not optional. */
  predicate Takes(ty: Type, x: Json) {
    match ty
    case BoolType => x == Bool(true) || x == Bool(false)
    case IntType(lo, hi) => x.Num? && x.n >= lo && x.n <= hi
    case TextType => x.Str?
    case ChoiceType(names) => x.Str? && x.s in names
    case TextListType => AllTexts(x)
    case OptionalType(_) => false
  }

  /** A type takes the values of its bare form, and null exactly if it is optional. */
  lemma {:induction false} FitsIff(ty: Type, x: Json)
    ensures Fits(ty, x) <==> (ty.OptionalType? && x.Null?) || Takes(Bare(ty), x)
  {
    if ty.OptionalType? {
      FitsIff(ty.inner, x);
    }
  }

  /** A list takes the JSON text of a value of its type, and nothing else. */
  lemma ListTakesIff(codec: Codec, schema: Schema, v: Json, parts: seq<string>, text: string)
    requires WellFormed(schema) && Conforms(schema, v) && parts != [] && IsLeaf(schema, parts)
    requires At(v, parts).Some? && At(v, parts).value.Arr?
    ensures var ty := SchemaAt(schema, parts).value.ty;
      Set(codec, schema, v, parts, text) ==
      match codec.parse(text)
      case None => Err(InvalidJson)
      case Some(x) =>
        if (ty.OptionalType? && x.Null?) || AllTexts(x) then Ok(Replace(v, parts, x)) else Err(ApplyFailed)
  {
    hide WellFormed, Set, Replace, Conforms, Fits;
    SetIsLocal(codec, schema, v, parts, text);
    AtConforms(schema, v, parts);
    ConformsIsFits(SchemaAt(schema, parts).value, At(v, parts).value);
    FitsIff(SchemaAt(schema, parts).value.ty, At(v, parts).value);
    if codec.parse(text).Some? {
      FitsIff(SchemaAt(schema, parts).value.ty, codec.parse(text).value);
    }
  }

  /** An unset option takes null and JSON of its type, and text that is not JSON if its type is text. */
  lemma UnsetTakesIff(codec: Codec, schema: Schema, v: Json, parts: seq<string>, text: string)
    requires WellFormed(schema) && Conforms(schema, v) && parts != [] && IsLeaf(schema, parts)
    requires At(v, parts) == Some(Null)
    ensures var ty := SchemaAt(schema, parts).value.ty;
      var x := if codec.parse(text).Some? then codec.parse(text).value else Str(text);
      Set(codec, schema, v, parts, text) ==
      if x.Null? || Takes(Bare(ty), x) then Ok(Replace(v, parts, x)) else Err(ApplyFailed)
  {
    hide WellFormed, Set, Replace, Conforms, Fits;
    SetIsLocal(codec, schema, v, parts, text);
    AtConforms(schema, v, parts);
    ConformsIsFits(SchemaAt(schema, parts).value, At(v, parts).value);
    FitsIff(SchemaAt(schema, parts).value.ty, Null);
    FitsIff(SchemaAt(schema, parts).value.ty, if codec.parse(text).Some? then codec.parse(text).value else Str(text));
  }

  // ---------------------------------------------------------------------
  // Paths that name nothing
  // ---------------------------------------------------------------------

  /**
   A path that leaves the tree before its last name is not found, one that goes through a value that is no
   section has no parent; an unknown last name in a section is ignored, unless it is another name of a field.
   */
  lemma UnknownPathOutcome(codec: Codec, schema: Schema, v: Json, parts: seq<string>, text: string)
    requires WellFormed(schema) && Conforms(schema, v) && parts != [] && SchemaAt(schema, parts) == None
    ensures var front := parts[..|parts| - 1]; var parent := SchemaAt(schema, front);
      match parent
      case None => Set(codec, schema, v, parts, text) == Err(PathNotFound)
      case Some(Leaf(_, _, _)) => Set(codec, schema, v, parts, text) == Err(ParentNotObject)
      case Some(Node(_, aliases)) =>
        Set(codec, schema, v, parts, text) ==
        if parts[|parts| - 1] in aliases then Err(ApplyFailed) else Ok(v)
  {
    var front, last := parts[..|parts| - 1], parts[|parts| - 1];
    assert parts == front + [last];
    AtIffSchemaAt(schema, v, front);
    match SchemaAt(schema, front)
    case None =>
    case Some(Leaf(ty, _, _)) =>
      AtConforms(schema, v, front);
      FitsIsNoTree(ty, At(v, front).value);
    case Some(Node(_, _)) =>
      SchemaAtInside(schema, front, parts);
      assert parts[|front|..] == [last];
      UnknownInSection(codec, schema, v, front, last, text);
  }

  lemma {:induction false} AtIffSchemaAt(schema: Schema, v: Json, parts: seq<string>)
    requires Conforms(schema, v)
    ensures At(v, parts).Some? <==> SchemaAt(schema, parts).Some?
  {
    if parts != [] {
      if schema.Node? && parts[0] in schema.fields {
        AtIffSchemaAt(schema.fields[parts[0]], v.fields[parts[0]], parts[1..]);
      } else if schema.Leaf? {
        FitsIsNoTree(schema.ty, v);
      }
    }
  }

  lemma {:induction false} UnknownInSection(
      codec: Codec, schema: Schema, v: Json, front: seq<string>, last: string, text: string)
    requires WellFormed(schema) && Conforms(schema, v)
    requires SchemaAt(schema, front).Some? && SchemaAt(schema, front).value.Node?
    requires last !in SchemaAt(schema, front).value.fields
    ensures Set(codec, schema, v, front + [last], text) ==
            if last in SchemaAt(schema, front).value.aliases then Err(ApplyFailed) else Ok(v)
  {
    hide FromValue, Set;
    var parts := front + [last];
    if front == [] {
      assert parts == [last];
      UnknownAtTop(codec, schema, v, last, text);
    } else {
      var k := front[0];
      assert parts[0] == k && parts[1..] == front[1..] + [last];
      UnknownInSection(codec, schema.fields[k], v.fields[k], front[1..], last, text);
      SetOfChild(codec, schema, v, parts, text);
      assert v.fields[k := v.fields[k]] == v.fields;
    }
  }

  lemma UnknownAtTop(codec: Codec, schema: Schema, v: Json, last: string, text: string)
    requires WellFormed(schema) && Conforms(schema, v) && schema.Node? && last !in schema.fields
    ensures Set(codec, schema, v, [last], text) == if last in schema.aliases then Err(ApplyFailed) else Ok(v)
  {
    hide FromValue;
    assert [last][..0] == [];
    var x := ParsedOrText(codec, text);
    assert Put(codec, v, [last], text) == Ok(Obj(v.fields[last := x]));
    FromValueOfUnknown(schema, v, last, x);
  }

  // ---------------------------------------------------------------------
  // On the program's own settings
  // ---------------------------------------------------------------------

  lemma HeartbeatEnabledField()
    ensures SchemaAt(Root(), ["heartbeat", "enabled"]) == Some(Flag(false))
  {
    HeartbeatField();
    hide Root, HeartbeatFields, Entries;
    HeartbeatEnabled();
    assert ["heartbeat", "enabled"][1..] == ["enabled"] && ["enabled"][1..] == [];
  }

  lemma HeartbeatEnabled()
    ensures "enabled" in Entries(HeartbeatFields()) && Entries(HeartbeatFields())["enabled"] == Flag(false)
  {
  }

  lemma HeartbeatField()
    ensures Root().Node? && "heartbeat" in Root().fields
    ensures Root().fields["heartbeat"] == Section(HeartbeatFields())
  {
    hide HeartbeatFields, RootFields5, EmbeddingsFields, TunnelFields, ChannelsFields, AgentFields, WasmFields;
    assert Entries(RootFields4())["heartbeat"] == Section(HeartbeatFields());
    assert Entries(RootFields3())["heartbeat"] == Section(HeartbeatFields());
    assert Entries(RootFields2())["heartbeat"] == Section(HeartbeatFields());
    assert Entries(RootFields1())["heartbeat"] == Section(HeartbeatFields());
    assert Entries(RootFields())["heartbeat"] == Section(HeartbeatFields());
  }

  /** The heartbeat cannot be switched by "yes". */
  lemma YesIsRefused(codec: Codec, v: Json)
    requires Conforms(Root(), v)
    ensures Set(codec, Root(), v, ["heartbeat", "enabled"], "yes") == Err(ExpectedBoolean)
  {
    hide Conforms, WellFormed, OwnNames, Root, SchemaAt, At, Set, Replace;
    RootIsWellFormed();
    HeartbeatEnabledField();
    AtConforms(Root(), v, ["heartbeat", "enabled"]);
    FlagIsBoolean(false, At(v, ["heartbeat", "enabled"]).value);
    BooleanTakesIff(codec, Root(), v, ["heartbeat", "enabled"], "yes");
  }

  lemma FlagIsBoolean(b: bool, v: Json)
    requires Conforms(Flag(b), v)
    ensures v.Bool?
  {
  }

  /** A section that is set to an object without some leaf gets that leaf's default for absent keys. */
  lemma AbsentLeafIsDefault(schema: Schema, v: Json, k: string)
    requires schema.Node? && FromValue(schema, v).Some? && v.Obj?
    requires k in schema.fields && schema.fields[k].Leaf? && k !in v.fields
    ensures FromValue(schema, v).value.Obj? && k in FromValue(schema, v).value.fields
    ensures FromValue(schema, v).value.fields[k] == schema.fields[k].missing
  {
  }

  lemma EmptyIsTaken(schema: Schema)
    requires schema.Node?
    ensures FromValue(schema, Obj(map[])).Some?
  {
  }

  lemma WasmChannelsField()
    ensures "wasm_channels_enabled" in Entries(ChannelsFields())
    ensures Entries(ChannelsFields())["wasm_channels_enabled"] == Leaf(BoolType, Bool(false), Bool(true))
  {
    hide ChannelsFields3;
    var rest := ChannelsFields3();
    assert Entries(rest)["wasm_channels_enabled"] == Leaf(BoolType, Bool(false), Bool(true)) by {
      WasmChannelsLast();
    }
    assert "wasm_channels_enabled" in Entries(ChannelsFields2());
  }

  lemma WasmChannelsLast()
    ensures "wasm_channels_enabled" in Entries(ChannelsFields3())
    ensures Entries(ChannelsFields3())["wasm_channels_enabled"] == Leaf(BoolType, Bool(false), Bool(true))
  {
  }

  /** WASM channels are off by default, but an empty channel section switches them on. */
  lemma EmptyChannelsSwitchWasmOn(codec: Codec, text: string)
    requires codec.parse(text) == Some(Obj(map[]))
    ensures At(Initial(Section(ChannelsFields())), ["wasm_channels_enabled"]) == Some(Bool(false))
    ensures SectionTree(codec, Section(ChannelsFields()), text).Some?
    ensures At(SectionTree(codec, Section(ChannelsFields()), text).value, ["wasm_channels_enabled"]) == Some(Bool(true))
  {
    hide ChannelsFields, FromValue, Entries;
    WasmChannelsField();
    var section, name := Section(ChannelsFields()), "wasm_channels_enabled";
    EmptyIsTaken(section);
    AbsentLeafIsDefault(section, Obj(map[]), name);
    assert [name][1..] == [];
  }
}
