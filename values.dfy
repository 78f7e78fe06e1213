/** JavaScript values as the logger inspects them: a closed set of kinds in
    place of run-time reflection, with `typeof`, `String(...)`, property
    access along the prototype chain, and `summarizeObject`
    (logger.service.ts, lines 139-153). */
module Values {
  import opened Wrappers
  import opened Text

  datatype PrimKind = Boolean | Number | BigInt | Symbol

  /** A value tree. Objects and arrays own their properties in JavaScript's
      own-key order; `Prim.text` is what `String(value)` gives (for a number
      also its JSON text when finite). Values share no structure and have no
      cycles. */
  datatype JsValue =
    | Undefined
    | Null
    | Str(s: string)
    | Prim(kind: PrimKind, text: string)
    | Func(name: string, source: string)
    | Arr(items: seq<JsValue>, proto: Proto)
    | Obj(props: seq<Prop>, proto: Proto)

  /** An own data property. */
  datatype Prop = Prop(key: string, value: JsValue, enumerable: bool)

  /** A prototype: `Object.prototype`, `null`, or an object of its own. */
  datatype Proto = ObjectPrototype | NoPrototype | Inherits(props: seq<Prop>, parent: Proto)

  function Bool(b: bool): JsValue
  {
    Prim(Boolean, if b then "true" else "false")
  }

  /** `typeof v`. */
  function TypeOf(v: JsValue): string
  {
    match v
    case Undefined => "undefined"
    case Null => "object"
    case Str(_) => "string"
    case Prim(Boolean, _) => "boolean"
    case Prim(Number, _) => "number"
    case Prim(BigInt, _) => "bigint"
    case Prim(Symbol, _) => "symbol"
    case Func(_, _) => "function"
    case Arr(_, _) => "object"
    case Obj(_, _) => "object"
  }

  /** `typeof v === "object" && v !== null`: an array or an object. */
  predicate IsStructured(v: JsValue)
  {
    v.Arr? || v.Obj?
  }

  lemma TypeOfObject(v: JsValue)
    ensures TypeOf(v) == "object" <==> IsStructured(v) || v.Null?
  {
  }

  /** `String(v)` for the values that are not of type "object". */
  function ToDisplay(v: JsValue): string
    requires TypeOf(v) != "object"
  {
    match v
    case Undefined => "undefined"
    case Str(s) => s
    case Prim(_, text) => text
    case Func(_, source) => source
  }

  /** The own properties: for an array its indices, then its non-enumerable `length`. */
  function OwnProps(v: JsValue): (r: seq<Prop>)
    ensures v.Obj? ==> r == v.props
    ensures v.Arr? ==> |r| == |v.items| + 1
  {
    match v
    case Arr(items, _) =>
      seq(|items|, i requires 0 <= i < |items| => Prop(Decimal(i), items[i], true))
      + [Prop("length", Prim(Number, Decimal(|items|)), false)]
    case Obj(props, _) => props
    case _ => []
  }

  function Keys(props: seq<Prop>): (r: seq<string>)
    ensures |r| == |props| && forall i | 0 <= i < |props| :: r[i] == props[i].key
  {
    seq(|props|, i requires 0 <= i < |props| => props[i].key)
  }

  /** `Object.entries(v)`: the enumerable own properties, in order. */
  function Entries(props: seq<Prop>): (r: seq<Prop>)
    ensures |r| <= |props|
    ensures forall i | 0 <= i < |r| :: r[i].enumerable && r[i] in props
    ensures forall p | p in props && p.enumerable :: p in r
  {
    if props == [] then []
    else (if props[0].enumerable then [props[0]] else []) + Entries(props[1..])
  }

  /** Each entry of an array is an index with its item. */
  lemma ArrayEntries(items: seq<JsValue>, proto: Proto)
    ensures Entries(OwnProps(Arr(items, proto)))
      == seq(|items|, i requires 0 <= i < |items| => Prop(Decimal(i), items[i], true))
  {
    var indexed := seq(|items|, i requires 0 <= i < |items| => Prop(Decimal(i), items[i], true));
    EntriesOfEnumerable(indexed);
    var length := [Prop("length", Prim(Number, Decimal(|items|)), false)];
    EntriesAppend(indexed, length);
  }

  lemma {:induction false} EntriesOfEnumerable(props: seq<Prop>)
    requires forall i | 0 <= i < |props| :: props[i].enumerable
    ensures Entries(props) == props
  {
    if props != [] {
      EntriesOfEnumerable(props[1..]);
    }
  }

  lemma {:induction false} EntriesAppend(a: seq<Prop>, b: seq<Prop>)
    ensures Entries(a + b) == Entries(a) + Entries(b)
  {
    if a == [] {
      assert a + b == b;
    } else {
      assert (a + b)[1..] == a[1..] + b;
      EntriesAppend(a[1..], b);
    }
  }

  /** The prototype of an array or object. */
  function ProtoOf(v: JsValue): Proto
  {
    match v
    case Arr(_, proto) => proto
    case Obj(_, proto) => proto
    case _ => NoPrototype
  }

  /** The first property with `key`, if any. */
  function Find(props: seq<Prop>, key: string): (r: Option<JsValue>)
    ensures r.None? <==> forall i | 0 <= i < |props| :: props[i].key != key
    ensures r.Some? ==> exists i | 0 <= i < |props| :: props[i].key == key && props[i].value == r.value
  {
    if props == [] then None
    else if props[0].key == key then Some(props[0].value)
    else Find(props[1..], key)
  }

  /** Lookup returns the first property carrying the key. */
  lemma {:induction false} FindFirst(props: seq<Prop>, i: nat, key: string)
    requires i < |props| && props[i].key == key
    requires key !in Keys(props)[..i]
    ensures Find(props, key) == Some(props[i].value)
  {
    if i > 0 {
      assert Keys(props)[0] in Keys(props)[..i];
      assert Keys(props[1..])[..i - 1] == Keys(props)[1..i];
      FindFirst(props[1..], i - 1, key);
    }
  }

  /** An own property that no earlier property shadows is what `Get` finds. */
  lemma GetOwn(props: seq<Prop>, proto: Proto, keys: seq<string>, i: nat)
    requires Keys(props) == keys && i < |keys| && keys[i] !in keys[..i]
    ensures Get(Obj(props, proto), keys[i]) == props[i].value
  {
    FindFirst(props, i, keys[i]);
  }

  /** The `Object` constructor, found as `Object.prototype.constructor`. */
  const ObjectConstructor := Func("Object", "function Object() { [native code] }")

  /** A fresh array's prototype, `Array.prototype`, with only its
      `constructor` listed. */
  const ArrayPrototype :=
    Inherits([Prop("constructor", Func("Array", "function Array() { [native code] }"), false)], ObjectPrototype)

  /** Property lookup on a prototype chain; `undefined` when absent. */
  function ProtoGet(p: Proto, key: string): JsValue
  {
    match p
    case NoPrototype => Undefined
    case ObjectPrototype => if key == "constructor" then ObjectConstructor else Undefined
    case Inherits(props, parent) =>
      match Find(props, key)
      case Some(x) => x
      case None => ProtoGet(parent, key)
  }

  /** `v[key]` for an array or object: own properties first, then the chain. */
  function Get(v: JsValue, key: string): JsValue
  {
    match Find(OwnProps(v), key)
    case Some(x) => x
    case None => ProtoGet(ProtoOf(v), key)
  }

  /** JavaScript truthiness. `Prim.text` is `String(value)`, so `-0` reads "0". */
  predicate Truthy(v: JsValue)
  {
    match v
    case Undefined => false
    case Null => false
    case Str(s) => s != ""
    case Prim(Boolean, text) => text == "true"
    case Prim(Number, text) => text != "0" && text != "NaN"
    case Prim(BigInt, text) => text != "0"
    case _ => true
  }

  /** `c?.name`: a function's name, an array's or object's `name` property,
      and `undefined` for `undefined`, `null` and the primitives, whose
      prototypes have no `name`. */
  function NameOf(c: JsValue): JsValue
  {
    match c
    case Func(name, _) => Str(name)
    case Arr(_, _) => Get(c, "name")
    case Obj(_, _) => Get(c, "name")
    case _ => Undefined
  }

  /** `value?.constructor?.name || "N/A"`, with the built-in prototypes of
      primitives and functions left as the engine sets them up. */
  function ConstructorName(v: JsValue): (r: JsValue)
    ensures Truthy(r)
    ensures v.Undefined? || v.Null? ==> r == Str("N/A")
    ensures IsStructured(v) && !IsStructured(Get(v, "constructor")) ==> r.Str?
  {
    match v
    case Undefined => Str("N/A")
    case Null => Str("N/A")
    case Str(_) => Str("String")
    case Prim(Boolean, _) => Str("Boolean")
    case Prim(Number, _) => Str("Number")
    case Prim(BigInt, _) => Str("BigInt")
    case Prim(Symbol, _) => Str("Symbol")
    case Func(_, _) => Str("Function")
    case _ =>
      var name := NameOf(Get(v, "constructor"));
      if Truthy(name) then name else Str("N/A")
  }

  /** A plain object has `Object` as its constructor name. */
  lemma PlainObjectConstructor(props: seq<Prop>)
    requires forall i | 0 <= i < |props| :: props[i].key != "constructor"
    ensures ConstructorName(Obj(props, ObjectPrototype)) == Str("Object")
  {
  }

  /** An instance reports the name of the constructor on its prototype. */
  lemma InstanceConstructor(own: seq<Prop>, methods: seq<Prop>, parent: Proto, name: string, source: string)
    requires forall i | 0 <= i < |own| :: own[i].key != "constructor"
    requires |methods| > 0 && methods[0] == Prop("constructor", Func(name, source), false)
    ensures ConstructorName(Obj(own, Inherits(methods, parent))) == if name == "" then Str("N/A") else Str(name)
  {
  }

  /** A `constructor` property that is a plain object is read through its
      `name`: `{constructor: {name: "X"}}` reports "X", and a falsy or missing
      name reports "N/A". */
  lemma ConstructorObjectName(name: JsValue)
    ensures var c := Obj([Prop("name", name, true)], ObjectPrototype);
      ConstructorName(Obj([Prop("constructor", c, true)], ObjectPrototype))
        == if Truthy(name) then name else Str("N/A")
  {
    var c := Obj([Prop("name", name, true)], ObjectPrototype);
    var v := Obj([Prop("constructor", c, true)], ObjectPrototype);
    assert Get(v, "constructor") == c;
    assert Get(c, "name") == name;
  }

  /** The prototype chain reaches `Array.prototype`: an array, or an instance
      of a subclass of `Array`. */
  predicate DerivesFromArray(p: Proto)
  {
    p == ArrayPrototype || (p.Inherits? && DerivesFromArray(p.parent))
  }

  /** The marker `summarizeObject` leaves where its depth runs out. */
  const DeepObject := Str("[Deep Object]")

  /** The tree has no array or object nested deeper than `d` levels below it. */
  predicate NestingAtMost(v: JsValue, d: nat)
    decreases v
  {
    match v
    case Arr(items, _) => d > 0 && forall i | 0 <= i < |items| :: NestingAtMost(items[i], d - 1)
    case Obj(props, _) => d > 0 && forall i | 0 <= i < |props| :: NestingAtMost(props[i].value, d - 1)
    case _ => true
  }

  /** The prototype of the array `map` creates (ArraySpeciesCreate), found
      through the first `constructor` on the chain: a function there is taken
      for a class derived from `Array` whose prototype is that link (for
      `Array.prototype` itself, `Array`); `undefined` or an object without a
      species gives a plain array; `null` or a primitive is not a
      constructor, and `map` throws (None). */
  function SpeciesProto(p: Proto): (r: Option<Proto>)
    ensures r.Some? && DerivesFromArray(p) ==> DerivesFromArray(r.value)
  {
    match p
    case Inherits(props, parent) =>
      (match Find(props, "constructor")
       case Some(c) =>
         if c.Func? then Some(p)
         else if c.Undefined? || IsStructured(c) then Some(ArrayPrototype)
         else None
       case None => SpeciesProto(parent))
    case _ => Some(ArrayPrototype)
  }

  /** `summarizeObject(v, depth)`: a copy of the tree cut at `depth`, None
      when JavaScript throws. At depth 0 every value, a primitive too, becomes
      the marker. Below that, an array is rebuilt by `obj.map`, which throws
      when the chain never reaches `Array.prototype` (no `map` is found) or
      when the species constructor is unusable, and gets the prototype
      SpeciesProto gives; objects become plain objects with the keys of their
      entries in order, and anything else passes unchanged. A throw anywhere
      below propagates. */
  function Summarize(v: JsValue, depth: nat): (r: Option<JsValue>)
    ensures depth == 0 ==> r == Some(DeepObject)
    ensures depth > 0 && v.Arr? && (!DerivesFromArray(v.proto) || SpeciesProto(v.proto).None?) ==> r.None?
    ensures depth > 0 && v.Arr? && r.Some? ==>
      && r.value.Arr? && |r.value.items| == |v.items|
      && r.value.proto == SpeciesProto(v.proto).value && DerivesFromArray(r.value.proto)
    ensures depth > 0 && v.Obj? && r.Some? ==>
      (&& r.value.Obj? && r.value.proto == ObjectPrototype
       && Keys(r.value.props) == Keys(Entries(v.props))
       && forall i | 0 <= i < |r.value.props| :: r.value.props[i].enumerable)
    ensures depth > 0 && !IsStructured(v) ==> r == Some(v)
    ensures r.Some? ==> NestingAtMost(r.value, depth)
    decreases v
  {
    if depth == 0 then Some(DeepObject)
    else
      match v
      case Arr(items, proto) =>
        if !DerivesFromArray(proto) then None
        else
          var species := SpeciesProto(proto);
          var parts := seq(|items|, i requires 0 <= i < |items| => Summarize(items[i], depth - 1));
          if species.None? || exists i | 0 <= i < |parts| :: parts[i].None? then None
          else Some(Arr(seq(|parts|, i requires 0 <= i < |parts| => parts[i].value), species.value))
      case Obj(props, _) =>
        var entries := Entries(props);
        var parts := seq(|entries|, i requires 0 <= i < |entries| =>
                       assert entries[i] in props;
                       Summarize(entries[i].value, depth - 1));
        if exists i | 0 <= i < |parts| :: parts[i].None? then None
        else Some(Obj(seq(|entries|, i requires 0 <= i < |entries| =>
                        Prop(entries[i].key, parts[i].value, true)),
                      ObjectPrototype))
      case _ => Some(v)
  }

  /** Arrays whose prototype is `Array.prototype`, at every depth. */
  predicate PlainArrays(v: JsValue)
    decreases v
  {
    match v
    case Arr(items, proto) => proto == ArrayPrototype && forall i | 0 <= i < |items| :: PlainArrays(items[i])
    case Obj(props, _) => forall i | 0 <= i < |props| :: PlainArrays(props[i].value)
    case _ => true
  }

  /** A tree whose arrays are all plain never makes the summary throw. */
  lemma {:induction false} SummarizePlainArrays(v: JsValue, depth: nat)
    requires PlainArrays(v)
    ensures Summarize(v, depth).Some?
    decreases v
  {
    if depth > 0 {
      var d: nat := depth - 1;
      if v.Arr? {
        forall i | 0 <= i < |v.items| ensures Summarize(v.items[i], d).Some? {
          SummarizePlainArrays(v.items[i], d);
        }
        SummarizeArraySome(v.items, d);
      } else if v.Obj? {
        forall i | 0 <= i < |v.props| ensures Summarize(v.props[i].value, d).Some? {
          SummarizePlainArrays(v.props[i].value, d);
        }
        SummarizeObjectSome(v.props, v.proto, d);
      }
    }
  }

  lemma SummarizeArraySome(items: seq<JsValue>, d: nat)
    requires forall i | 0 <= i < |items| :: Summarize(items[i], d).Some?
    ensures Summarize(Arr(items, ArrayPrototype), d + 1).Some?
  {
    assert SpeciesProto(ArrayPrototype) == Some(ArrayPrototype);
    var parts := seq(|items|, i requires 0 <= i < |items| => Summarize(items[i], d));
    assert forall i | 0 <= i < |parts| :: parts[i].Some?;
  }

  lemma SummarizeObjectSome(props: seq<Prop>, proto: Proto, d: nat)
    requires forall i | 0 <= i < |props| :: Summarize(props[i].value, d).Some?
    ensures Summarize(Obj(props, proto), d + 1).Some?
  {
    var entries := Entries(props);
    var parts := seq(|entries|, i requires 0 <= i < |entries| => Summarize(entries[i].value, d));
    forall i | 0 <= i < |parts| ensures parts[i].Some? {
      assert entries[i] in props;
    }
  }

  /** `Object.setPrototypeOf([], null)` has no `map`: summarising it throws. */
  lemma NullPrototypeArrayThrows(items: seq<JsValue>, depth: nat)
    requires depth > 0
    ensures Summarize(Arr(items, NoPrototype), depth).None?
  {
  }

  /** An array made with `Object.create(Array.prototype)` finds `Array` as its
      constructor and is rebuilt as a plain array. */
  lemma ArrayViewRebuiltPlain(items: seq<JsValue>)
    ensures Summarize(Arr(items, Inherits([], ArrayPrototype)), 1) == Some(Arr(seq(|items|, _ => DeepObject), ArrayPrototype))
  {
    var view := Inherits([], ArrayPrototype);
    assert SpeciesProto(view) == SpeciesProto(ArrayPrototype) == Some(ArrayPrototype);
    var parts := seq(|items|, i requires 0 <= i < |items| => Summarize(items[i], 0));
    assert forall i | 0 <= i < |parts| :: parts[i] == Some(DeepObject);
    var rebuilt := seq(|parts|, i requires 0 <= i < |parts| => parts[i].value);
    assert rebuilt == seq(|items|, _ => DeepObject);
    assert Summarize(Arr(items, view), 1) == Some(Arr(rebuilt, ArrayPrototype));
  }

  /** One level of summary replaces every entry's value by the marker:
      `{a: {b: 1}, c: 2}` becomes `{a: "[Deep Object]", c: "[Deep Object]"}`. */
  lemma SummarizeOnce(props: seq<Prop>, proto: Proto)
    ensures Summarize(Obj(props, proto), 1).Some?
    ensures var r := Summarize(Obj(props, proto), 1).value;
      && r.Obj? && |r.props| == |Entries(props)|
      && forall i | 0 <= i < |r.props| :: r.props[i] == Prop(Entries(props)[i].key, DeepObject, true)
  {
  }
}
