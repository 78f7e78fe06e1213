/** The message bodies of the three channels that accept any value: `error`
    (logger.service.ts lines 198-204), `debug` (207-223) and `verbose`
    (226-268) with its `extractDetails` prototype walk (239-264). A body is
    None when building it throws: JSON.stringify raises a TypeError on a
    BigInt, and the channel then logs nothing. */
module Bodies {
  import opened Wrappers
  import opened Text
  import opened Values
  import opened Json

  /** The text of a serialisation, None when it throws. */
  function TextOf(s: Serialized): (r: Option<string>)
    ensures r.None? <==> !s.Text?
  {
    if s.Text? then Some(s.text) else None
  }

  /** `typeof v === 'object' ? JSON.stringify(v, null, 2) : String(v)`. */
  function Render(v: JsValue): (r: Option<string>)
    ensures r.None? <==> TypeOf(v) == "object" && !Serializable(v)
    ensures v.Str? ==> r == Some(v.s)
    ensures IsStructured(v) && Serializable(v) ==> r == TextOf(Stringify(v))
    ensures v.Null? ==> r == Some("null")
    ensures TypeOf(v) != "object" ==> r == Some(ToDisplay(v))
  {
    if TypeOf(v) == "object" then TextOf(Stringify(v)) else Some(ToDisplay(v))
  }

  /** The body of `error(message, object)`. The second value only decides
      whether a separator and a second copy of the rendered `message` are
      appended; it is never rendered itself. */
  function ErrorBody(message: JsValue, extra: JsValue): (r: Option<string>)
    ensures r.None? <==> Render(message).None?
    ensures extra.Undefined? ==> r == Render(message)
    ensures !extra.Undefined? && Render(message) == Some("") ==> r == Some("")
  {
    var msg := Render(message);
    var error := if extra.Undefined? then None else Render(message);
    match msg
    case None => None
    case Some(m) =>
      if error.Some? && error.value != "" then Some(m + " | " + error.value) else Some(m)
  }

  /** A second value, whatever it is, makes the line repeat the first:
      `error("failed", {code: 5})` logs "failed | failed". */
  lemma ErrorRepeatsMessage(message: JsValue, extra: JsValue)
    requires !extra.Undefined?
    requires Render(message).Some? && Render(message).value != ""
    ensures ErrorBody(message, extra) == Some(Render(message).value + " | " + Render(message).value)
  {
  }

  /** Which second value is passed never changes the body. */
  lemma ErrorIgnoresSecondValue(message: JsValue, extra1: JsValue, extra2: JsValue)
    requires !extra1.Undefined? && !extra2.Undefined?
    ensures ErrorBody(message, extra1) == ErrorBody(message, extra2)
  {
  }

  lemma ErrorExample()
    ensures ErrorBody(Str("failed"), Obj([Prop("code", Prim(Number, "5"), true)], ObjectPrototype))
      == Some("failed | failed")
  {
    ErrorRepeatsMessage(Str("failed"), Obj([Prop("code", Prim(Number, "5"), true)], ObjectPrototype));
    assert "failed" + " | " + "failed" == "failed | failed";
  }

  /** The names of a `debug` record's fields, in order. */
  const DebugKeys := ["key", "type", "value", "isMethod"]

  /** The names of a `verbose` record's fields, in order. */
  const VerboseKeys := ["key", "type", "value", "isArray", "isNull", "isUndefined", "constructor", "isMethod"]

  /** No field name of a record repeats an earlier one. */
  lemma RecordKeysDistinct()
    ensures forall i | 0 <= i < |DebugKeys| :: DebugKeys[i] !in DebugKeys[..i]
    ensures forall i | 0 <= i < |VerboseKeys| :: VerboseKeys[i] !in VerboseKeys[..i]
  {
  }

  /** Each field of an eight-field object with distinct names reads back as
      the value stored under it. */
  lemma ReadEight(props: seq<Prop>, proto: Proto, keys: seq<string>)
    requires |keys| == 8 && Keys(props) == keys
    requires forall i | 0 <= i < |keys| :: keys[i] !in keys[..i]
    ensures Get(Obj(props, proto), keys[0]) == props[0].value && Get(Obj(props, proto), keys[1]) == props[1].value
    ensures Get(Obj(props, proto), keys[2]) == props[2].value && Get(Obj(props, proto), keys[3]) == props[3].value
    ensures Get(Obj(props, proto), keys[4]) == props[4].value && Get(Obj(props, proto), keys[5]) == props[5].value
    ensures Get(Obj(props, proto), keys[6]) == props[6].value && Get(Obj(props, proto), keys[7]) == props[7].value
  {
    GetOwn(props, proto, keys, 0);
    GetOwn(props, proto, keys, 1);
    GetOwn(props, proto, keys, 2);
    GetOwn(props, proto, keys, 3);
    GetOwn(props, proto, keys, 4);
    GetOwn(props, proto, keys, 5);
    GetOwn(props, proto, keys, 6);
    GetOwn(props, proto, keys, 7);
  }

  /** One record of the `debug` dump: key, type, the value or "[Object]" in
      place of a nested array or object, and whether it is a function. */
  function DebugRecord(key: string, value: JsValue): (r: JsValue)
    ensures r.Obj? && Keys(r.props) == DebugKeys
    ensures NestingAtMost(r, 1)
  {
    Obj([Prop("key", Str(key), true),
         Prop("type", Str(TypeOf(value)), true),
         Prop("value", if IsStructured(value) then Str("[Object]") else value, true),
         Prop("isMethod", Bool(value.Func?), true)],
        ObjectPrototype)
  }

  /** `r` reads as the `debug` record of `value` under the name `key`. */
  predicate DebugRecordOf(r: JsValue, key: string, value: JsValue)
  {
    && Get(r, "key") == Str(key)
    && Get(r, "type") == Str(TypeOf(value))
    && Get(r, "value") == (if IsStructured(value) then Str("[Object]") else value)
    && Get(r, "isMethod") == Bool(value.Func?)
  }

  /** Read back, a `debug` record holds the key, `typeof` the value, the value
      itself or "[Object]" for an array or object, and whether it is a
      function. */
  lemma DebugRecordFields(key: string, value: JsValue)
    ensures DebugRecordOf(DebugRecord(key, value), key, value)
  {
    var r := DebugRecord(key, value);
    RecordKeysDistinct();
    assert Get(r, "key") == Str(key) by { GetOwn(r.props, r.proto, DebugKeys, 0); }
    assert Get(r, "type") == Str(TypeOf(value)) by { GetOwn(r.props, r.proto, DebugKeys, 1); }
    assert Get(r, "value") == (if IsStructured(value) then Str("[Object]") else value) by {
      GetOwn(r.props, r.proto, DebugKeys, 2);
    }
    assert Get(r, "isMethod") == Bool(value.Func?) by { GetOwn(r.props, r.proto, DebugKeys, 3); }
  }

  /** One record per `Object.entries` entry of an array or object, none for
      anything else. */
  function DebugRecords(message: JsValue): (r: seq<JsValue>)
    ensures !IsStructured(message) ==> r == []
    ensures IsStructured(message) ==> |r| == |Entries(OwnProps(message))|
    ensures forall i | 0 <= i < |r| ::
      r[i] == DebugRecord(Entries(OwnProps(message))[i].key, Entries(OwnProps(message))[i].value)
  {
    if IsStructured(message) then
      var entries := Entries(OwnProps(message));
      seq(|entries|, i requires 0 <= i < |entries| => DebugRecord(entries[i].key, entries[i].value))
    else []
  }

  /** Each record of the dump describes the entry at the same position. */
  lemma DebugRecordsFields(message: JsValue)
    ensures forall i | 0 <= i < |DebugRecords(message)| ::
      DebugRecordOf(DebugRecords(message)[i], Entries(OwnProps(message))[i].key, Entries(OwnProps(message))[i].value)
  {
    forall i | 0 <= i < |DebugRecords(message)|
      ensures DebugRecordOf(DebugRecords(message)[i], Entries(OwnProps(message))[i].key, Entries(OwnProps(message))[i].value)
    {
      DebugRecordFields(Entries(OwnProps(message))[i].key, Entries(OwnProps(message))[i].value);
    }
  }

  /** The body of `debug(message)`: a string verbatim, otherwise the records
      as indented JSON. */
  function DebugBody(message: JsValue): (r: Option<string>)
    ensures message.Str? ==> r == Some(message.s)
    ensures !message.Str? && !IsStructured(message) ==> r == Some("[]")
    ensures IsStructured(message) ==> r == TextOf(Stringify(Arr(DebugRecords(message), ArrayPrototype)))
  {
    if message.Str? then Some(message.s)
    else
      EmptyStructures(ArrayPrototype, []);
      TextOf(Stringify(Arr(DebugRecords(message), ArrayPrototype)))
  }

  /** The debug dump never goes more than one level into the value: each
      record is a flat object. */
  lemma DebugDumpIsFlat(message: JsValue)
    ensures NestingAtMost(Arr(DebugRecords(message), ArrayPrototype), 2)
  {
  }

  /** The names of a prototype chain, each prototype's own names in order,
      up to `Object.prototype` or `null`. */
  function ChainNames(p: Proto): seq<string>
  {
    match p
    case Inherits(props, parent) => Keys(props) + ChainNames(parent)
    case _ => []
  }

  /** The names `extractDetails` inspects: the own names of the value, then
      those of each prototype until `Object.prototype` or `null`. A name
      shadowed along the chain is listed once per object that has it. */
  function PropertyNames(obj: JsValue): (names: seq<string>)
    ensures |OwnProps(obj)| <= |names| && names[..|OwnProps(obj)|] == Keys(OwnProps(obj))
    ensures ProtoOf(obj) == ObjectPrototype || ProtoOf(obj) == NoPrototype ==> names == Keys(OwnProps(obj))
  {
    Keys(OwnProps(obj)) + ChainNames(ProtoOf(obj))
  }

  /** The prototype walk of `extractDetails`. */
  method CollectPropertyNames(obj: JsValue) returns (names: seq<string>)
    requires IsStructured(obj)
    ensures names == PropertyNames(obj)
  {
    names := Keys(OwnProps(obj));
    var proto := ProtoOf(obj);
    while proto.Inherits?
      invariant names + ChainNames(proto) == PropertyNames(obj)
      decreases proto
    {
      names := names + Keys(proto.props);
      proto := proto.parent;
    }
  }

  /** One record of the `verbose` dump for the property `key` of `obj`, read
      through the prototype chain. A nested array or object is never
      expanded: the record's value is then the marker "[Deep Object]", so the
      record is flat unless the constructor's `name` is itself an array or
      object. */
  function VerboseRecord(obj: JsValue, key: string): (r: JsValue)
    ensures r.Obj? && Keys(r.props) == VerboseKeys
    ensures !IsStructured(ConstructorName(Get(obj, key))) ==> NestingAtMost(r, 1)
  {
    var value := Get(obj, key);
    VerboseFields(key, value, if IsStructured(value) then Summarize(value, 0).value else value, ConstructorName(value))
  }

  /** Read back, the record of `key` describes `obj[key]`. */
  lemma VerboseRecordFields(obj: JsValue, key: string)
    ensures VerboseRecordOf(VerboseRecord(obj, key), key, Get(obj, key))
  {
    var value := Get(obj, key);
    var shown := if IsStructured(value) then Summarize(value, 0).value else value;
    VerboseFieldsRead(key, value, shown, ConstructorName(value));
  }

  /** `r` reads as the `verbose` record of `value` under the name `key`. */
  predicate VerboseRecordOf(r: JsValue, key: string, value: JsValue)
  {
    && Get(r, "key") == Str(key)
    && Get(r, "type") == Str(TypeOf(value))
    && Get(r, "value") == (if IsStructured(value) then DeepObject else value)
    && Get(r, "isArray") == Bool(value.Arr?)
    && Get(r, "isNull") == Bool(value.Null?)
    && Get(r, "isUndefined") == Bool(value.Undefined?)
    && Get(r, "constructor") == ConstructorName(value)
    && Get(r, "isMethod") == Bool(value.Func?)
  }

  /** The eight fields of a `verbose` record, given the value as shown and
      its constructor name. */
  function VerboseFields(key: string, value: JsValue, shown: JsValue, ctorName: JsValue): (r: JsValue)
    requires !IsStructured(shown)
    ensures r.Obj? && Keys(r.props) == VerboseKeys
    ensures !IsStructured(ctorName) ==> NestingAtMost(r, 1)
  {
    Obj([Prop("key", Str(key), true),
         Prop("type", Str(TypeOf(value)), true),
         Prop("value", shown, true),
         Prop("isArray", Bool(value.Arr?), true),
         Prop("isNull", Bool(value.Null?), true),
         Prop("isUndefined", Bool(value.Undefined?), true),
         Prop("constructor", ctorName, true),
         Prop("isMethod", Bool(value.Func?), true)],
        ObjectPrototype)
  }

  /** Read back, the eight fields hold what they are built from. */
  lemma VerboseFieldsRead(key: string, value: JsValue, shown: JsValue, ctorName: JsValue)
    requires !IsStructured(shown)
    ensures var r := VerboseFields(key, value, shown, ctorName);
      && Get(r, "key") == Str(key) && Get(r, "type") == Str(TypeOf(value)) && Get(r, "value") == shown
      && Get(r, "isArray") == Bool(value.Arr?) && Get(r, "isNull") == Bool(value.Null?)
      && Get(r, "isUndefined") == Bool(value.Undefined?) && Get(r, "constructor") == ctorName
      && Get(r, "isMethod") == Bool(value.Func?)
  {
    var r := VerboseFields(key, value, shown, ctorName);
    RecordKeysDistinct();
    ReadEight(r.props, r.proto, VerboseKeys);
  }

  /** What `extractDetails(obj)` returns at its default depth 1: the record of
      each inspected name, in order. */
  function VerboseDetails(obj: JsValue): (r: seq<JsValue>)
    ensures |r| == |PropertyNames(obj)|
    ensures forall i | 0 <= i < |r| :: r[i] == VerboseRecord(obj, PropertyNames(obj)[i])
  {
    var names := PropertyNames(obj);
    seq(|names|, i requires 0 <= i < |names| => VerboseRecord(obj, names[i]))
  }

  /** The `i`-th record of the details describes the `i`-th inspected name,
      read through the prototype chain. */
  lemma VerboseDetailsFields(obj: JsValue, i: nat)
    requires i < |VerboseDetails(obj)|
    ensures VerboseRecordOf(VerboseDetails(obj)[i], PropertyNames(obj)[i], Get(obj, PropertyNames(obj)[i]))
  {
    VerboseRecordFields(obj, PropertyNames(obj)[i]);
  }

  /** `extractDetails(obj)`: collect the names, then one record per name. */
  method ExtractDetails(obj: JsValue) returns (details: seq<JsValue>)
    requires IsStructured(obj)
    ensures details == VerboseDetails(obj)
    ensures forall i | 0 <= i < |details| :: details[i].props[0].value == Str(PropertyNames(obj)[i])
  {
    var names := CollectPropertyNames(obj);
    details := seq(|names|, i requires 0 <= i < |names| => VerboseRecord(obj, names[i]));
  }

  /** The body of `verbose(message)`: a string verbatim; another primitive,
      `undefined`, `null` or a function as `{type, value}`; an array or object
      as its details. */
  function VerboseBody(message: JsValue): (r: Option<string>)
    ensures message.Str? ==> r == Some(message.s)
    ensures !message.Str? && !IsStructured(message) ==> r == TextOf(Stringify(TypeAndValue(message)))
    ensures IsStructured(message) ==> r == TextOf(Stringify(Arr(VerboseDetails(message), ArrayPrototype)))
  {
    if message.Str? then Some(message.s)
    else if !IsStructured(message) then
      TextOf(Stringify(TypeAndValue(message)))
    else TextOf(Stringify(Arr(VerboseDetails(message), ArrayPrototype)))
  }

  /** The `{type, value}` object `verbose` prints for a value that is neither
      a string nor an array or object. */
  function TypeAndValue(message: JsValue): (r: JsValue)
    ensures r.Obj? && Keys(r.props) == ["type", "value"] && r.props[1].value == message
  {
    Obj([Prop("type", Str(TypeOf(message)), true), Prop("value", message, true)], ObjectPrototype)
  }

  /** Read back, the wrapper holds `typeof` the value and the value. */
  lemma TypeAndValueFields(message: JsValue)
    ensures Get(TypeAndValue(message), "type") == Str(TypeOf(message))
    ensures Get(TypeAndValue(message), "value") == message
  {
    var r := TypeAndValue(message);
    GetOwn(r.props, r.proto, ["type", "value"], 0);
    GetOwn(r.props, r.proto, ["type", "value"], 1);
  }

  /** The wrapper serialises exactly when the wrapped value does. */
  lemma TypeAndValueSerializable(message: JsValue)
    ensures Serializable(TypeAndValue(message)) <==> Serializable(message)
  {
    var r := TypeAndValue(message);
    if Serializable(message) {
      PropsSerializable(r.props, ObjectPrototype);
    } else {
      PropThrows(r.props, 1, ObjectPrototype);
    }
  }

  /** The branches of `verbose` up to the call of `logMessage`. */
  method BuildVerboseBody(message: JsValue) returns (body: Option<string>)
    ensures body == VerboseBody(message)
  {
    if message.Str? {
      body := Some(message.s);
    } else if !IsStructured(message) {
      body := TextOf(Stringify(TypeAndValue(message)));
    } else {
      var details := ExtractDetails(message);
      body := TextOf(Stringify(Arr(details, ArrayPrototype)));
    }
  }

  /** A plain object is inspected by its own names only, the non-enumerable
      ones included, in order. */
  lemma PlainObjectNames(props: seq<Prop>)
    ensures PropertyNames(Obj(props, ObjectPrototype)) == Keys(props)
  {
  }

  /** A class instance lists its own names, then its class's, then its
      superclass's, before stopping at `Object.prototype`. */
  lemma InheritedNames(own: seq<Prop>, methods: seq<Prop>, inherited: seq<Prop>)
    ensures PropertyNames(Obj(own, Inherits(methods, Inherits(inherited, ObjectPrototype))))
      == Keys(own) + Keys(methods) + Keys(inherited)
  {
    assert ChainNames(Inherits(inherited, ObjectPrototype)) == Keys(inherited);
  }

  /** An array is listed by its indices, then `length`, then the names on
      its prototype. */
  lemma ArrayNames(items: seq<JsValue>)
    ensures PropertyNames(Arr(items, ArrayPrototype))
      == seq(|items|, i requires 0 <= i < |items| => Decimal(i)) + ["length", "constructor"]
  {
    var names := PropertyNames(Arr(items, ArrayPrototype));
    assert |names| == |items| + 2;
  }

  predicate IsBigInt(v: JsValue)
  {
    v.Prim? && v.kind == BigInt
  }

  /** A dump array fails to serialise exactly when one of its records does. */
  lemma DumpFails(items: seq<JsValue>)
    ensures TextOf(Stringify(Arr(items, ArrayPrototype))).None?
      <==> exists i | 0 <= i < |items| :: !Serializable(items[i])
  {
  }

  lemma DebugRecordSerializable(key: string, value: JsValue)
    ensures Serializable(DebugRecord(key, value)) <==> !IsBigInt(value)
  {
    var r := DebugRecord(key, value);
    if IsBigInt(value) {
      assert r.props[2] in r.props;
    }
  }

  lemma {:induction false} DebugRecordsSerializable(message: JsValue)
    requires IsStructured(message)
    ensures var entries, records := Entries(OwnProps(message)), DebugRecords(message);
      && |records| == |entries|
      && forall i | 0 <= i < |records| :: Serializable(records[i]) <==> !IsBigInt(entries[i].value)
  {
    var entries, records := Entries(OwnProps(message)), DebugRecords(message);
    forall i | 0 <= i < |records|
      ensures Serializable(records[i]) <==> !IsBigInt(entries[i].value)
    {
      assert records[i] == DebugRecord(entries[i].key, entries[i].value);
      DebugRecordSerializable(entries[i].key, entries[i].value);
    }
  }

  /** `debug` throws, logging nothing, exactly when an entry of the value is
      a BigInt. */
  lemma DebugFailsOnlyOnBigInt(message: JsValue)
    ensures DebugBody(message).None? <==>
      IsStructured(message) && exists i | 0 <= i < |Entries(OwnProps(message))| :: IsBigInt(Entries(OwnProps(message))[i].value)
  {
    if IsStructured(message) {
      var records := DebugRecords(message);
      assert DebugBody(message) == TextOf(Stringify(Arr(records, ArrayPrototype)));
      DumpFails(records);
      DebugRecordsSerializable(message);
    }
  }

  lemma VerboseRecordSerializable(obj: JsValue, key: string)
    ensures Serializable(VerboseRecord(obj, key)) <==> !RecordThrows(Get(obj, key))
  {
    var value := Get(obj, key);
    var shown := if IsStructured(value) then Summarize(value, 0).value else value;
    VerboseFieldsSerializable(key, value, shown, ConstructorName(value));
  }

  /** Building the record of `value` makes JSON.stringify throw: the value
      is a BigInt, or its constructor's `name` holds one. */
  predicate RecordThrows(value: JsValue)
  {
    IsBigInt(value) || !Serializable(ConstructorName(value))
  }

  /** With a function, or any value but an array or object, as its
      constructor, a record throws only on a BigInt value. */
  lemma OrdinaryRecordThrows(value: JsValue)
    requires !IsStructured(Get(value, "constructor"))
    ensures RecordThrows(value) <==> IsBigInt(value)
  {
  }

  /** Of the eight fields only the shown value and the constructor name can
      hold a BigInt. */
  lemma VerboseFieldsSerializable(key: string, value: JsValue, shown: JsValue, ctorName: JsValue)
    requires !IsStructured(shown)
    ensures Serializable(VerboseFields(key, value, shown, ctorName)) <==> !IsBigInt(shown) && Serializable(ctorName)
  {
    var r := VerboseFields(key, value, shown, ctorName);
    if IsBigInt(shown) {
      PropThrows(r.props, 2, ObjectPrototype);
    } else if !Serializable(ctorName) {
      PropThrows(r.props, 6, ObjectPrototype);
    } else {
      FlatFieldsSerializable(key, value, shown, ctorName);
    }
  }

  /** Without a BigInt in the shown value or the name every field serialises. */
  lemma FlatFieldsSerializable(key: string, value: JsValue, shown: JsValue, ctorName: JsValue)
    requires !IsStructured(shown) && !IsBigInt(shown) && Serializable(ctorName)
    ensures Serializable(VerboseFields(key, value, shown, ctorName))
  {
    var props := VerboseFields(key, value, shown, ctorName).props;
    PropsSerializable(props, ObjectPrototype);
  }

  /** An object with an enumerable property that does not serialise does not
      serialise either. */
  lemma PropThrows(props: seq<Prop>, i: nat, proto: Proto)
    requires i < |props| && props[i].enumerable && !Serializable(props[i].value)
    ensures !Serializable(Obj(props, proto))
  {
    assert props[i] in props;
  }

  /** An object whose property values all serialise serialises. */
  lemma PropsSerializable(props: seq<Prop>, proto: Proto)
    requires forall i | 0 <= i < |props| :: Serializable(props[i].value)
    ensures Serializable(Obj(props, proto))
  {
    forall p | p in props && p.enumerable
      ensures Serializable(p.value)
    {
      var i :| 0 <= i < |props| && props[i] == p;
    }
  }

  lemma {:induction false} VerboseDetailsSerializable(obj: JsValue)
    ensures var names, details := PropertyNames(obj), VerboseDetails(obj);
      forall i | 0 <= i < |details| :: Serializable(details[i]) <==> !RecordThrows(Get(obj, names[i]))
  {
    var names, details := PropertyNames(obj), VerboseDetails(obj);
    forall i | 0 <= i < |details|
      ensures Serializable(details[i]) <==> !RecordThrows(Get(obj, names[i]))
    {
      assert details[i] == VerboseRecord(obj, names[i]);
      VerboseRecordSerializable(obj, names[i]);
    }
  }

  /** The `{type, value}` wrapper of a primitive fails exactly on a BigInt. */
  lemma WrapperFails(message: JsValue)
    requires !message.Str? && !IsStructured(message)
    ensures VerboseBody(message).None? <==> IsBigInt(message)
  {
    assert VerboseBody(message) == TextOf(Stringify(TypeAndValue(message)));
    TypeAndValueSerializable(message);
  }

  /** `verbose` throws, logging nothing, exactly when the value is a BigInt
      or the record of one of the properties it inspects holds one. */
  lemma VerboseFailsOnlyOnBigInt(message: JsValue)
    ensures VerboseBody(message).None? <==>
      || IsBigInt(message)
      || (IsStructured(message) && exists i | 0 <= i < |PropertyNames(message)| ::
            RecordThrows(Get(message, PropertyNames(message)[i])))
  {
    if IsStructured(message) {
      var details := VerboseDetails(message);
      assert VerboseBody(message) == TextOf(Stringify(Arr(details, ArrayPrototype)));
      DumpFails(details);
      VerboseDetailsSerializable(message);
    } else if !message.Str? {
      WrapperFails(message);
    }
  }
}
