/** Forms that a tool asks a person to fill in (`core/interactions.py`): a schema
    is parsed into a form, the form is stored and read back, and an answer is
    validated against it. The reference is what the schema itself says. */
module Elicitation {
  import opened Options

  datatype Value =
    | Null | Bool(b: bool) | Int(n: int) | Float(r: real) | Text(s: string)
    | List(items: seq<Value>) | Object(fields: map<string, Value>)

  datatype Kind = StringKind | NumberKind | IntegerKind | BooleanKind | ArrayKind

  /** `ElicitationField`; the default of an array is the sequence of its texts. */
  datatype Default = NoDefault | Plain(value: Value) | Texts(texts: seq<string>)

  datatype Field = Field(
    name: string, kind: Kind, required: bool, title: string, description: Option<string>,
    enum: seq<Value>, default: Default, minimum: Option<real>, maximum: Option<real>,
    minLength: Option<int>, maxLength: Option<int>, minItems: Option<int>, maxItems: Option<int>,
    itemEnum: seq<string>)

  type Form = map<string, Field>

  const MAX_FIELDS := 25
  const MAX_ITEMS := 25

  // ----- shared helpers; the outer None is the validation error -----

  function Get(fields: map<string, Value>, key: string): Value {
    if key in fields then fields[key] else Null
  }

  function OptionalInt(v: Value): Option<Option<int>> {
    match v
    case Null => Some(None)
    case Int(n) => Some(Some(n))
    case _ => None
  }

  function NonNegative(v: Value): Option<Option<int>> {
    var n := OptionalInt(v);
    if n.Some? && n.value.Some? && n.value.value < 0 then None else n
  }

  function OptionalFloat(v: Value): Option<Option<real>> {
    match v
    case Null => Some(None)
    case Int(n) => Some(Some(n as real))
    case Float(r) => Some(Some(r))
    case _ => None
  }

  predicate AllTexts(items: seq<Value>) { forall i | 0 <= i < |items| :: items[i].Text? }

  function TextsOf(items: seq<Value>): seq<string>
    requires AllTexts(items)
  {
    seq(|items|, i requires 0 <= i < |items| && AllTexts(items) => items[i].s)
  }

  function TextList(texts: seq<string>): Value {
    List(seq(|texts|, i requires 0 <= i < |texts| => Text(texts[i])))
  }

  predicate Primitive(v: Value) { v.Text? || v.Int? || v.Float? || v.Bool? }

  /** How the language shows a value as text, and which values count as true. */
  datatype Library = Library(show: Value -> string, truth: Value -> bool)

  ghost predicate Faithful(lib: Library) {
    (forall s: string :: lib.show(Text(s)) == s) && (forall b: bool :: lib.truth(Bool(b)) == b)
  }

  // ----- comparing values -----

  function NumberOf(v: Value): Option<real> {
    match v
    case Bool(b) => Some(if b then 1.0 else 0.0)
    case Int(n) => Some(n as real)
    case Float(r) => Some(r)
    case _ => None
  }

  /** Equality of the language: numbers and truth values compare as numbers. */
  predicate Same(a: Value, b: Value) {
    if NumberOf(a).Some? && NumberOf(b).Some? then NumberOf(a) == NumberOf(b) else a == b
  }

  predicate Among(v: Value, enum: seq<Value>) { exists i | 0 <= i < |enum| :: Same(v, enum[i]) }

  predicate Between(x: real, low: Option<real>, high: Option<real>) {
    (low.Some? ==> low.value <= x) && (high.Some? ==> x <= high.value)
  }

  predicate Sized(n: int, low: Option<int>, high: Option<int>) {
    (low.Some? ==> low.value <= n) && (high.Some? ==> n <= high.value)
  }

  // ----- validating an answer against a field -----

  /** `_validate_field_value`: None is the validation error, the value comes back unchanged. */
  function ValidateField(f: Field, v: Value): Option<Value> {
    var typed :=
      match f.kind
      case StringKind => v.Text? && Sized(|v.s|, f.minLength, f.maxLength)
      case NumberKind => (v.Int? || v.Float?) && Between(NumberOf(v).value, f.minimum, f.maximum)
      case IntegerKind => v.Int? && Between(NumberOf(v).value, f.minimum, f.maximum)
      case BooleanKind => v.Bool?
      case ArrayKind =>
        && v.List? && AllTexts(v.items) && Sized(|v.items|, f.minItems, f.maxItems)
        && (f.itemEnum != [] ==> forall i | 0 <= i < |v.items| :: v.items[i].s in f.itemEnum);
    if typed && (f.enum != [] ==> Among(v, f.enum)) then Some(v) else None
  }

  /** `ElicitationForm.validate`. */
  function Validate(form: Form, content: map<string, Value>): Option<map<string, Value>> {
    if exists n | n in content :: n !in form then None
    else if exists n | n in form :: n !in content && form[n].required then None
    else if exists n | n in content && n in form :: ValidateField(form[n], content[n]).None? then None
    else Some(map n | n in content && n in form :: ValidateField(form[n], content[n]).value)
  }

  // ----- parsing a schema -----

  function KindOf(name: string): Option<Kind> {
    if name == "string" then Some(StringKind) else if name == "number" then Some(NumberKind)
    else if name == "integer" then Some(IntegerKind) else if name == "boolean" then Some(BooleanKind)
    else if name == "array" then Some(ArrayKind) else None
  }

  function NameOf(kind: Kind): string {
    match kind
    case StringKind => "string" case NumberKind => "number" case IntegerKind => "integer"
    case BooleanKind => "boolean" case ArrayKind => "array"
  }

  function NestedKeys(): set<string> { {"properties", "items", "oneOf", "anyOf", "allOf", "$ref"} }

  /** `_primitive_enum`. */
  function PrimitiveEnum(v: Value): Option<seq<Value>> {
    match v
    case Null => Some([])
    case List(items) => if forall i | 0 <= i < |items| :: Primitive(items[i]) then Some(items) else None
    case _ => None
  }

  /** The texts an array may contain, and how many. */
  function ItemTexts(p: map<string, Value>): Option<seq<string>> {
    var items := Get(p, "items");
    if !items.Object? || Get(items.fields, "type") != Text("string") || (exists k | k in NestedKeys() :: k in items.fields) then None
    else
      match Get(items.fields, "enum")
      case Null => Some([])
      case List(texts) => if AllTexts(texts) then Some(TextsOf(texts)) else None
      case _ => None
  }

  predicate Ordered(low: Option<int>, high: Option<int>) { low.Some? && high.Some? ==> low.value <= high.value }

  predicate OrderedReals(low: Option<real>, high: Option<real>) { low.Some? && high.Some? ==> low.value <= high.value }

  function DefaultOf(v: Value): Default {
    match v
    case Null => NoDefault
    case List(items) => if AllTexts(items) then Texts(TextsOf(items)) else Plain(v)
    case _ => Plain(v)
  }

  function DefaultValue(d: Default): Value {
    match d
    case NoDefault => Null
    case Plain(v) => v
    case Texts(texts) => TextList(texts)
  }

  /** `_parse_elicitation_field`. */
  function ParseField(lib: Library, name: string, p: map<string, Value>, required: bool): Option<Field> {
    var type_ := Get(p, "type");
    var kind := if type_.Text? then KindOf(type_.s) else None;
    var enum, minItems, maxItems := PrimitiveEnum(Get(p, "enum")), NonNegative(Get(p, "minItems")), NonNegative(Get(p, "maxItems"));
    var minimum, maximum := OptionalFloat(Get(p, "minimum")), OptionalFloat(Get(p, "maximum"));
    var minLength, maxLength := NonNegative(Get(p, "minLength")), NonNegative(Get(p, "maxLength"));
    var itemTexts := if kind == Some(ArrayKind) then ItemTexts(p) else Some([]);
    if kind.None? || enum.None? || minItems.None? || maxItems.None? || minimum.None? || maximum.None?
       || minLength.None? || maxLength.None? || itemTexts.None? then None
    else if kind.value != ArrayKind && exists k | k in NestedKeys() :: k in p then None
    else
      var most := if kind.value == ArrayKind && maxItems.value.None? then Some(MAX_ITEMS) else maxItems.value;
      if (kind.value == ArrayKind && most.value > MAX_ITEMS) || !OrderedReals(minimum.value, maximum.value)
         || !Ordered(minLength.value, maxLength.value) || !Ordered(minItems.value, most) then None
      else
        var title, description, default := Get(p, "title"), Get(p, "description"), Get(p, "default");
        var f := Field(name, kind.value, required, if lib.truth(title) then lib.show(title) else name,
                       if description == Null then None else Some(lib.show(description)),
                       enum.value, DefaultOf(default), minimum.value, maximum.value,
                       minLength.value, maxLength.value, minItems.value, most, itemTexts.value);
        if default != Null && ValidateField(f, default).None? then None else Some(f)
  }

  function RequiredNames(schema: map<string, Value>): Option<set<string>> {
    match Get(schema, "required")
    case Null => if "required" in schema then None else Some({})
    case List(items) => if AllTexts(items) then Some(set i | 0 <= i < |items| :: items[i].s) else None
    case _ => None
  }

  /** `parse_elicitation_schema`. */
  function ParseSchema(lib: Library, schema: Value): Option<Form> {
    if !schema.Object? || Get(schema.fields, "type") != Text("object") then None
    else if !(Get(schema.fields, "additionalProperties") == Null || Same(Get(schema.fields, "additionalProperties"), Bool(false))) then None
    else
      var properties, required := Get(schema.fields, "properties"), RequiredNames(schema.fields);
      if !properties.Object? || |properties.fields| > MAX_FIELDS || required.None? || !(required.value <= properties.fields.Keys) then None
      else if exists n | n in properties.fields :: BadField(lib, n, properties.fields[n], n in required.value) then None
      else Some(map n | n in properties.fields :: ParsedField(lib, n, properties.fields[n], n in required.value))
  }

  predicate BadField(lib: Library, name: string, v: Value, required: bool) {
    name == "" || |name| > 100 || !v.Object? || ParseField(lib, name, v.fields, required).None?
  }

  function ParsedField(lib: Library, name: string, v: Value, required: bool): Field {
    if BadField(lib, name, v, required) then Field(name, StringKind, required, name, None, [], NoDefault, None, None, None, None, None, None, [])
    else ParseField(lib, name, v.fields, required).value
  }

  // ----- storing a form -----

  function OptionalValue(x: Option<int>): Value { if x.Some? then Int(x.value) else Null }

  function OptionalReal(x: Option<real>): Value { if x.Some? then Float(x.value) else Null }

  /** One entry of `to_dict`. */
  function StoreField(f: Field): map<string, Value> {
    map["name" := Text(f.name), "value_type" := Text(NameOf(f.kind)), "required" := Bool(f.required),
        "title" := Text(f.title), "description" := if f.description.Some? then Text(f.description.value) else Null,
        "enum" := List(f.enum), "default" := DefaultValue(f.default),
        "minimum" := OptionalReal(f.minimum), "maximum" := OptionalReal(f.maximum),
        "min_length" := OptionalValue(f.minLength), "max_length" := OptionalValue(f.maxLength),
        "min_items" := OptionalValue(f.minItems), "max_items" := OptionalValue(f.maxItems),
        "item_enum" := TextList(f.itemEnum)]
  }

  function Shown(lib: Library, items: seq<Value>): seq<string> {
    seq(|items|, i requires 0 <= i < |items| => lib.show(items[i]))
  }

  /** One entry of `from_dict`. */
  function ReadField(lib: Library, p: map<string, Value>): Option<Field> {
    var minimum, maximum := OptionalFloat(Get(p, "minimum")), OptionalFloat(Get(p, "maximum"));
    var minLength, maxLength := OptionalInt(Get(p, "min_length")), OptionalInt(Get(p, "max_length"));
    var minItems, maxItems := OptionalInt(Get(p, "min_items")), OptionalInt(Get(p, "max_items"));
    var enum, itemEnum, default := Get(p, "enum"), Get(p, "item_enum"), Get(p, "default");
    if "name" !in p || "value_type" !in p || "required" !in p || "title" !in p || !enum.List? || !itemEnum.List?
       || minimum.None? || maximum.None? || minLength.None? || maxLength.None? || minItems.None? || maxItems.None? then None
    else
      var kind := KindOf(lib.show(p["value_type"]));
      Some(Field(lib.show(p["name"]), if kind.Some? then kind.value else ArrayKind, lib.truth(p["required"]), lib.show(p["title"]),
                 if Get(p, "description") == Null then None else Some(lib.show(Get(p, "description"))),
                 enum.items,
                 if default == Null then NoDefault else if default.List? then Texts(Shown(lib, default.items)) else Plain(default),
                 minimum.value, maximum.value, minLength.value, maxLength.value, minItems.value, maxItems.value,
                 Shown(lib, itemEnum.items)))
  }

  /** `to_dict`; a list of fields with distinct names is a map here. */
  function StoreForm(form: Form): map<string, map<string, Value>> { map n | n in form :: StoreField(form[n]) }

  function ReadForm(lib: Library, stored: map<string, map<string, Value>>): Option<Form> {
    if exists n | n in stored :: ReadField(lib, stored[n]).None? then None
    else Some(map n | n in stored && ReadField(lib, stored[n]).Some? :: ReadField(lib, stored[n]).value)
  }

  // ----- how a schema is read -----

  function IntOf(v: Value): Option<int> { if v.Int? then Some(v.n) else None }

  function RealOf(v: Value): Option<real> { if v.Bool? then None else NumberOf(v) }

  function ItemsOf(v: Value): seq<Value> { if v.List? then v.items else [] }

  /** What one property allows as the code reads it, directly from the schema. An
      enumeration that is empty restricts nothing, and no array is longer than 25. */
  predicate Allows(p: map<string, Value>, v: Value) {
    && (match Get(p, "type")
        case Text("string") => v.Text? && Sized(|v.s|, IntOf(Get(p, "minLength")), IntOf(Get(p, "maxLength")))
        case Text("number") => (v.Int? || v.Float?) && Between(NumberOf(v).value, RealOf(Get(p, "minimum")), RealOf(Get(p, "maximum")))
        case Text("integer") => v.Int? && Between(v.n as real, RealOf(Get(p, "minimum")), RealOf(Get(p, "maximum")))
        case Text("boolean") => v.Bool?
        case Text("array") =>
          var items := Get(p, "items");
          && v.List? && AllTexts(v.items)
          && Sized(|v.items|, IntOf(Get(p, "minItems")), IntOf(Get(p, "maxItems"))) && |v.items| <= MAX_ITEMS
          && items.Object?
          && (ItemsOf(Get(items.fields, "enum")) == [] || forall i | 0 <= i < |v.items| :: v.items[i] in ItemsOf(Get(items.fields, "enum")))
        case _ => false)
    && (ItemsOf(Get(p, "enum")) == [] || Among(v, ItemsOf(Get(p, "enum"))))
  }

  /** An answer fits a schema so read: no unknown names, the required ones are there, and
      each value is allowed. */
  ghost predicate Fits(schema: Value, content: map<string, Value>)
    requires schema.Object? && Get(schema.fields, "properties").Object? && RequiredNames(schema.fields).Some?
  {
    var properties := Get(schema.fields, "properties").fields;
    && content.Keys <= properties.Keys
    && RequiredNames(schema.fields).value <= content.Keys
    && forall n | n in content && n in properties :: properties[n].Object? && Allows(properties[n].fields, content[n])
  }

  // ----- the two agree -----

  lemma TextsRoundTrip(lib: Library, texts: seq<string>)
    requires Faithful(lib)
    ensures Shown(lib, TextList(texts).items) == texts
  {
  }

  /** A default that storing does not change: lists are kept as texts only. */
  predicate Storable(d: Default) {
    d.Plain? ==> d.value != Null && !d.value.List?
  }

  /** `p` holds the entries of a stored field. */
  ghost predicate Stores(p: map<string, Value>, f: Field) {
    && "name" in p && "value_type" in p && "required" in p && "title" in p
    && p["name"] == Text(f.name) && p["value_type"] == Text(NameOf(f.kind)) && p["required"] == Bool(f.required)
    && p["title"] == Text(f.title)
    && Get(p, "description") == (if f.description.Some? then Text(f.description.value) else Null)
    && Get(p, "enum") == List(f.enum) && Get(p, "default") == DefaultValue(f.default)
    && Get(p, "minimum") == OptionalReal(f.minimum) && Get(p, "maximum") == OptionalReal(f.maximum)
    && Get(p, "min_length") == OptionalValue(f.minLength) && Get(p, "max_length") == OptionalValue(f.maxLength)
    && Get(p, "min_items") == OptionalValue(f.minItems) && Get(p, "max_items") == OptionalValue(f.maxItems)
    && Get(p, "item_enum") == TextList(f.itemEnum)
  }

  lemma StoredEntries(f: Field)
    ensures Stores(StoreField(f), f)
  {
  }

  lemma ReadEntries(lib: Library, p: map<string, Value>, f: Field)
    requires Faithful(lib) && Storable(f.default) && Stores(p, f)
    ensures ReadField(lib, p) == Some(f)
  {
    TextsRoundTrip(lib, f.itemEnum);
    if f.default.Texts? { TextsRoundTrip(lib, f.default.texts); }
  }

  lemma FieldRoundTrip(lib: Library, f: Field)
    requires Faithful(lib) && Storable(f.default)
    ensures ReadField(lib, StoreField(f)) == Some(f)
  {
    StoredEntries(f);
    ReadEntries(lib, StoreField(f), f);
  }

  /** A form is read back as it was stored. */
  lemma FormRoundTrip(lib: Library, form: Form)
    requires Faithful(lib) && forall n | n in form :: Storable(form[n].default)
    ensures ReadForm(lib, StoreForm(form)) == Some(form)
  {
    forall n | n in form ensures ReadsAs(lib, StoreForm(form), form, n) {
      StoredFieldReads(lib, form, n);
    }
    ReadEach(lib, StoreForm(form), form);
  }

  ghost predicate ReadsAs(lib: Library, stored: map<string, map<string, Value>>, form: Form, n: string) {
    n in form && n in stored && ReadField(lib, stored[n]) == Some(form[n])
  }

  lemma StoredFieldReads(lib: Library, form: Form, n: string)
    requires Faithful(lib) && n in form && Storable(form[n].default)
    ensures ReadsAs(lib, StoreForm(form), form, n)
  {
    FieldRoundTrip(lib, form[n]);
  }

  lemma ReadEach(lib: Library, stored: map<string, map<string, Value>>, form: Form)
    requires stored.Keys == form.Keys && forall n | n in form :: ReadsAs(lib, stored, form, n)
    ensures ReadForm(lib, stored) == Some(form)
  {
    assert ReadForm(lib, stored).value == form;
  }

  /** A parsed field accepts its own default, and the default can be stored. */
  lemma DefaultsAreAccepted(lib: Library, name: string, p: map<string, Value>, required: bool)
    requires ParseField(lib, name, p, required).Some?
    ensures var f := ParseField(lib, name, p, required).value;
      && Storable(f.default)
      && (f.default != NoDefault ==> ValidateField(f, DefaultValue(f.default)) == Some(DefaultValue(f.default)))
  {
    var f := ParseField(lib, name, p, required).value;
    var default := Get(p, "default");
    if default.List? {
      assert f.kind == ArrayKind && AllTexts(default.items);
      assert TextList(TextsOf(default.items)).items == default.items;
    }
  }

  /** Validating against a parsed field is what the property itself allows, and
      returns the value as it is. */
  lemma FieldMeansProperty(lib: Library, name: string, p: map<string, Value>, required: bool, v: Value)
    requires ParseField(lib, name, p, required).Some?
    ensures ValidateField(ParseField(lib, name, p, required).value, v) == if Allows(p, v) then Some(v) else None
  {
    var f := ParseField(lib, name, p, required).value;
    assert f.enum == ItemsOf(Get(p, "enum"));
    assert f.minimum == RealOf(Get(p, "minimum")) && f.maximum == RealOf(Get(p, "maximum"));
    assert f.minLength == IntOf(Get(p, "minLength")) && f.maxLength == IntOf(Get(p, "maxLength"));
    assert f.minItems == IntOf(Get(p, "minItems"));
    if f.kind == ArrayKind {
      ItemsMean(p, f.itemEnum, v);
    }
  }

  // ----- when parsing succeeds, and with which labels -----

  predicate AbsentOrCount(v: Value) { v == Null || (v.Int? && v.n >= 0) }

  predicate AbsentOrNumber(v: Value) { v == Null || v.Int? || v.Float? }

  predicate Below(low: Value, high: Value) {
    NumberOf(low).Some? && NumberOf(high).Some? ==> NumberOf(low).value <= NumberOf(high).value
  }

  predicate NoneOf(keys: set<string>, p: map<string, Value>) { forall k | k in keys :: k !in p }

  /** The items of an array are texts, perhaps enumerated, and at most 25. */
  predicate WellFormedItems(p: map<string, Value>) {
    var items, most := Get(p, "items"), Get(p, "maxItems");
    && items.Object? && Get(items.fields, "type") == Text("string")
    && NoneOf({"properties", "items", "oneOf", "anyOf", "allOf", "$ref"}, items.fields)
    && (Get(items.fields, "enum") == Null || (Get(items.fields, "enum").List? && AllTexts(Get(items.fields, "enum").items)))
    && (most.Int? ==> most.n <= 25) && (most == Null ==> Below(Get(p, "minItems"), Int(25)))
  }

  /** Everything that a property may say, and must, but for its default. */
  predicate WellFormed(p: map<string, Value>) {
    && Get(p, "type") in {Text("string"), Text("number"), Text("integer"), Text("boolean"), Text("array")}
    && (if Get(p, "type") == Text("array") then WellFormedItems(p)
        else NoneOf({"properties", "items", "oneOf", "anyOf", "allOf", "$ref"}, p))
    && (Get(p, "enum") == Null
        || (Get(p, "enum").List? && forall v | v in Get(p, "enum").items :: v.Text? || v.Int? || v.Float? || v.Bool?))
    && WellFormedBounds(p)
  }

  predicate WellFormedBounds(p: map<string, Value>) {
    && AbsentOrCount(Get(p, "minItems")) && AbsentOrCount(Get(p, "maxItems"))
    && AbsentOrCount(Get(p, "minLength")) && AbsentOrCount(Get(p, "maxLength"))
    && AbsentOrNumber(Get(p, "minimum")) && AbsentOrNumber(Get(p, "maximum"))
    && Below(Get(p, "minItems"), Get(p, "maxItems")) && Below(Get(p, "minLength"), Get(p, "maxLength"))
    && Below(Get(p, "minimum"), Get(p, "maximum"))
  }

  lemma BoundsParse(p: map<string, Value>)
    ensures WellFormedBounds(p) <==>
      var (minItems, maxItems) := (NonNegative(Get(p, "minItems")), NonNegative(Get(p, "maxItems")));
      var (minLength, maxLength) := (NonNegative(Get(p, "minLength")), NonNegative(Get(p, "maxLength")));
      var (minimum, maximum) := (OptionalFloat(Get(p, "minimum")), OptionalFloat(Get(p, "maximum")));
      && minItems.Some? && maxItems.Some? && minLength.Some? && maxLength.Some? && minimum.Some? && maximum.Some?
      && Ordered(minItems.value, maxItems.value) && Ordered(minLength.value, maxLength.value)
      && OrderedReals(minimum.value, maximum.value)
  {
  }

  lemma ItemsParse(p: map<string, Value>)
    requires WellFormedItems(p)
    ensures ItemTexts(p).Some?
  {
    var items := Get(p, "items");
    assert forall k | k in NestedKeys() :: k !in items.fields;
  }

  lemma ParsedItems(p: map<string, Value>)
    requires ItemTexts(p).Some? && (Get(p, "maxItems").Int? ==> Get(p, "maxItems").n <= 25)
    requires Get(p, "maxItems") == Null ==> Below(Get(p, "minItems"), Int(25))
    ensures WellFormedItems(p)
  {
    var items := Get(p, "items");
    assert forall k | k in NestedKeys() :: k !in items.fields;
  }

  lemma ParsesPlain(lib: Library, name: string, p: map<string, Value>, required: bool)
    requires Get(p, "default") == Null
    ensures ParseField(lib, name, p, required).Some? <==> WellFormed(p)
  {
    if Get(p, "type") == Text("array") {
      ParsesArray(lib, name, p, required);
    } else {
      ParsesOther(lib, name, p, required);
    }
  }

  lemma ParsesArray(lib: Library, name: string, p: map<string, Value>, required: bool)
    requires Get(p, "default") == Null && Get(p, "type") == Text("array")
    ensures ParseField(lib, name, p, required).Some? <==> WellFormed(p)
  {
    BoundsParse(p);
    if WellFormed(p) {
      ItemsParse(p);
    } else if ParseField(lib, name, p, required).Some? {
      ParsedItems(p);
    }
  }

  lemma ParsesOther(lib: Library, name: string, p: map<string, Value>, required: bool)
    requires Get(p, "default") == Null && Get(p, "type") != Text("array")
    ensures ParseField(lib, name, p, required).Some? <==> WellFormed(p)
  {
    BoundsParse(p);
    assert NoneOf({"properties", "items", "oneOf", "anyOf", "allOf", "$ref"}, p) <==> !exists k | k in NestedKeys() :: k in p;
  }

  /** Two properties that parse alike but for the default. */
  predicate SameButDefault(q: map<string, Value>, p: map<string, Value>) {
    && (forall k | k in {"type", "enum", "items", "minItems", "maxItems", "minimum", "maximum", "minLength", "maxLength",
                         "title", "description"} :: Get(q, k) == Get(p, k))
    && (forall k | k in NestedKeys() :: k in q <==> k in p)
  }

  /** Without its default a property parses to the same field but for that. */
  lemma DefaultAside(lib: Library, name: string, q: map<string, Value>, p: map<string, Value>, required: bool)
    requires SameButDefault(q, p) && Get(q, "default") == Null
    ensures var bare := ParseField(lib, name, q, required);
      && (bare.None? ==> ParseField(lib, name, p, required).None?)
      && (bare.Some? ==>
            ParseField(lib, name, p, required) ==
              if Get(p, "default") != Null && ValidateField(bare.value, Get(p, "default")).None? then None
              else Some(bare.value.(default := DefaultOf(Get(p, "default")))))
  {
    NestedSame(q, p);
    if ParseField(lib, name, q, required).Some? {
      DefaultIsIgnored(ParseField(lib, name, q, required).value, DefaultOf(Get(p, "default")), Get(p, "default"));
    }
  }

  lemma NestedSame(q: map<string, Value>, p: map<string, Value>)
    requires SameButDefault(q, p)
    ensures ItemTexts(q) == ItemTexts(p)
    ensures (exists k | k in NestedKeys() :: k in q) <==> exists k | k in NestedKeys() :: k in p
  {
  }

  lemma DefaultIsIgnored(f: Field, default: Default, v: Value)
    ensures ValidateField(f.(default := default), v) == ValidateField(f, v)
  {
  }

  lemma AllowsSame(q: map<string, Value>, p: map<string, Value>, v: Value)
    requires SameButDefault(q, p)
    ensures Allows(q, v) <==> Allows(p, v)
  {
  }

  lemma WellFormedSame(q: map<string, Value>, p: map<string, Value>)
    requires SameButDefault(q, p)
    ensures WellFormed(q) <==> WellFormed(p)
  {
    assert {"properties", "items", "oneOf", "anyOf", "allOf", "$ref"} == NestedKeys();
  }

  /** A property parses exactly when it is well formed and allows its own default. */
  lemma ParsesExactlyWhen(lib: Library, name: string, p: map<string, Value>, required: bool)
    ensures ParseField(lib, name, p, required).Some? <==>
      WellFormed(p) && (Get(p, "default") == Null || Allows(p, Get(p, "default")))
  {
    var q := p - {"default"};
    assert SameButDefault(q, p);
    WellFormedSame(q, p);
    AllowsSame(q, p, Get(p, "default"));
    DefaultAside(lib, name, q, p, required);
    ParsesPlain(lib, name, q, required);
    if ParseField(lib, name, q, required).Some? {
      FieldMeansProperty(lib, name, q, required, Get(p, "default"));
    }
  }

  predicate PropertyParses(v: Value) {
    v.Object? && WellFormed(v.fields) && (Get(v.fields, "default") == Null || Allows(v.fields, Get(v.fields, "default")))
  }

  lemma RequiredParses(schema: map<string, Value>, names: set<string>)
    ensures RequiredNames(schema).Some? && RequiredNames(schema).value <= names <==>
      "required" !in schema
      || (schema["required"].List? && forall v | v in schema["required"].items :: v.Text? && v.s in names)
    ensures RequiredNames(schema).Some? ==> forall n ::
      n in RequiredNames(schema).value <==> "required" in schema && schema["required"].List? && Text(n) in schema["required"].items
  {
    if "required" in schema && schema["required"].List? {
      var items := schema["required"].items;
      if AllTexts(items) {
        forall n ensures n in (set i | 0 <= i < |items| :: items[i].s) <==> Text(n) in items {
          if Text(n) in items {
            var i :| 0 <= i < |items| && items[i] == Text(n);
            assert items[i].s == n;
          }
        }
      }
    }
  }

  lemma PropertiesParse(lib: Library, properties: map<string, Value>, required: set<string>)
    ensures (exists n | n in properties :: BadField(lib, n, properties[n], n in required))
            <==> !forall n | n in properties :: 1 <= |n| <= 100 && PropertyParses(properties[n])
  {
    forall n | n in properties
      ensures BadField(lib, n, properties[n], n in required) <==> !(1 <= |n| <= 100 && PropertyParses(properties[n]))
    {
      if properties[n].Object? { ParsesExactlyWhen(lib, n, properties[n].fields, n in required); }
    }
  }

  lemma ClosedToOthers(v: Value)
    ensures v == Null || Same(v, Bool(false)) <==> v in {Null, Bool(false), Int(0), Float(0.0)}
  {
  }

  predicate RequiredNamesOwn(schema: map<string, Value>, properties: map<string, Value>) {
    "required" !in schema
    || (schema["required"].List? && forall v | v in schema["required"].items :: v.Text? && v.s in properties)
  }

  predicate PropertiesParseOnTheirOwn(properties: map<string, Value>) {
    |properties| <= 25 && forall n | n in properties :: 1 <= |n| <= 100 && PropertyParses(properties[n])
  }

  /** A schema parses exactly when it is an object of at most 25 properties, all of
      which parse, that names only its own as required and allows no others. */
  lemma SchemaParsesExactlyWhen(lib: Library, schema: Value)
    ensures ParseSchema(lib, schema).Some? <==>
      && schema.Object? && Get(schema.fields, "type") == Text("object")
      && Get(schema.fields, "additionalProperties") in {Null, Bool(false), Int(0), Float(0.0)}
      && Get(schema.fields, "properties").Object?
      && RequiredNamesOwn(schema.fields, Get(schema.fields, "properties").fields)
      && PropertiesParseOnTheirOwn(Get(schema.fields, "properties").fields)
  {
    if schema.Object? {
      ClosedToOthers(Get(schema.fields, "additionalProperties"));
      if Get(schema.fields, "properties").Object? { SchemaParses(lib, schema, Get(schema.fields, "properties").fields); }
    }
  }

  lemma SchemaParses(lib: Library, schema: Value, properties: map<string, Value>)
    requires schema.Object? && Get(schema.fields, "properties") == Object(properties)
    ensures ParseSchema(lib, schema).Some? <==>
      && Get(schema.fields, "type") == Text("object")
      && (Get(schema.fields, "additionalProperties") == Null || Same(Get(schema.fields, "additionalProperties"), Bool(false)))
      && RequiredNamesOwn(schema.fields, properties) && PropertiesParseOnTheirOwn(properties)
  {
    RequiredParses(schema.fields, properties.Keys);
    var required := RequiredNames(schema.fields);
    if required.Some? { PropertiesParse(lib, properties, required.value); }
  }

  /** Which fields of a parsed form are required. */
  lemma RequiredFields(lib: Library, schema: Value, n: string)
    requires ParseSchema(lib, schema).Some? && n in ParseSchema(lib, schema).value
    ensures schema.Object?
    ensures ParseSchema(lib, schema).value[n].required
            <==> "required" in schema.fields && schema.fields["required"].List? && Text(n) in schema.fields["required"].items
  {
    var properties := Get(schema.fields, "properties").fields;
    RequiredParses(schema.fields, properties.Keys);
    ParsedForm(lib, schema);
  }

  /** What a parsed field is called, and what it starts with. */
  lemma ParsedLabels(lib: Library, name: string, p: map<string, Value>, required: bool)
    requires ParseField(lib, name, p, required).Some? && Faithful(lib)
    requires !lib.truth(Null) && forall s: string :: lib.truth(Text(s)) <==> s != ""
    ensures var f := ParseField(lib, name, p, required).value;
      && f.name == name && f.required == required
      && (Get(p, "title") in {Null, Text("")} ==> f.title == name)
      && (Get(p, "title").Text? && Get(p, "title") != Text("") ==> f.title == Get(p, "title").s)
      && (f.description.None? <==> Get(p, "description") == Null)
      && (Get(p, "description").Text? ==> f.description == Some(Get(p, "description").s))
      && (f.default.NoDefault? <==> Get(p, "default") == Null)
      && (Get(p, "default") != Null ==> DefaultValue(f.default) == Get(p, "default"))
  {
    var default := Get(p, "default");
    if default.List? && AllTexts(default.items) {
      assert TextList(TextsOf(default.items)) == default;
    }
  }

  lemma ItemsMean(p: map<string, Value>, texts: seq<string>, v: Value)
    requires ItemTexts(p) == Some(texts)
    ensures Get(p, "items").Object?
    ensures var enum := ItemsOf(Get(Get(p, "items").fields, "enum"));
      && (texts == [] <==> enum == [])
      && (v.List? && AllTexts(v.items) ==>
            ((forall i | 0 <= i < |v.items| :: v.items[i].s in texts) <==> (forall i | 0 <= i < |v.items| :: v.items[i] in enum)))
  {
    var enum := ItemsOf(Get(Get(p, "items").fields, "enum"));
    assert |texts| == |enum| && forall k | 0 <= k < |enum| :: enum[k] == Text(texts[k]);
    if v.List? && AllTexts(v.items) {
      forall i | 0 <= i < |v.items| ensures v.items[i].s in texts <==> v.items[i] in enum {
        if v.items[i].s in texts {
          var k :| 0 <= k < |texts| && texts[k] == v.items[i].s;
          assert enum[k] == v.items[i];
        }
        if v.items[i] in enum {
          var k :| 0 <= k < |enum| && enum[k] == v.items[i];
          assert texts[k] == v.items[i].s;
        }
      }
    }
  }

  lemma ParsedForm(lib: Library, schema: Value)
    requires ParseSchema(lib, schema).Some?
    ensures schema.Object? && Get(schema.fields, "properties").Object? && RequiredNames(schema.fields).Some?
    ensures var form, properties, required :=
        ParseSchema(lib, schema).value, Get(schema.fields, "properties").fields, RequiredNames(schema.fields).value;
      && form.Keys == properties.Keys && required <= properties.Keys
      && forall n | n in form :: properties[n].Object? && ParseField(lib, n, properties[n].fields, n in required) == Some(form[n])
  {
  }

  lemma FieldKeepsRequired(lib: Library, name: string, p: map<string, Value>, required: bool)
    requires ParseField(lib, name, p, required).Some?
    ensures ParseField(lib, name, p, required).value.required == required
  {
  }

  /** Parsing a schema, storing the form, reading it back and validating an
      answer accepts exactly the answers that fit the schema, unchanged. */
  lemma AnswersFitTheSchema(lib: Library, schema: Value, content: map<string, Value>)
    requires Faithful(lib) && ParseSchema(lib, schema).Some?
    ensures schema.Object? && Get(schema.fields, "properties").Object? && RequiredNames(schema.fields).Some?
    ensures var form := ReadForm(lib, StoreForm(ParseSchema(lib, schema).value));
      form.Some? && Validate(form.value, content) == if Fits(schema, content) then Some(content) else None
  {
    ParsedForm(lib, schema);
    var form := ParseSchema(lib, schema).value;
    var properties, required := Get(schema.fields, "properties").fields, RequiredNames(schema.fields).value;
    forall n | n in form
      ensures Storable(form[n].default) && (form[n].required <==> n in required)
      ensures n in content ==>
        ValidateField(form[n], content[n]) == if Allows(properties[n].fields, content[n]) then Some(content[n]) else None
    {
      DefaultsAreAccepted(lib, n, properties[n].fields, n in required);
      FieldKeepsRequired(lib, n, properties[n].fields, n in required);
      if n in content { FieldMeansProperty(lib, n, properties[n].fields, n in required, content[n]); }
    }
    FormRoundTrip(lib, form);
    ValidateMeans(form, schema, content);
  }

  lemma ValidateMeans(form: Form, schema: Value, content: map<string, Value>)
    requires schema.Object? && Get(schema.fields, "properties").Object? && RequiredNames(schema.fields).Some?
    requires var properties, required := Get(schema.fields, "properties").fields, RequiredNames(schema.fields).value;
      && form.Keys == properties.Keys && required <= properties.Keys
      && forall n | n in form ::
           && properties[n].Object? && (form[n].required <==> n in required)
           && (n in content ==>
                 ValidateField(form[n], content[n]) == if Allows(properties[n].fields, content[n]) then Some(content[n]) else None)
    ensures Validate(form, content) == if Fits(schema, content) then Some(content) else None
  {
    var properties, required := Get(schema.fields, "properties").fields, RequiredNames(schema.fields).value;
    if Fits(schema, content) {
      assert forall n | n in content :: n in form && ValidateField(form[n], content[n]) == Some(content[n]);
      assert Validate(form, content).value == content;
    }
  }

  // ----- what the keywords mean -----

  /** Equality of values: numbers by value, and a truth value is no number. */
  predicate Equal(a: Value, b: Value) {
    a.Bool? == b.Bool? && Same(a, b)
  }

  predicate Member(v: Value, enum: seq<Value>) { exists i | 0 <= i < |enum| :: Equal(v, enum[i]) }

  /** What a property means: an enumeration that is there restricts values to its
      members, and there is no bound but those it names. Keywords the parser does
      not read are not part of this reading. */
  predicate Means(p: map<string, Value>, v: Value) {
    && (match Get(p, "type")
        case Text("string") => v.Text? && Sized(|v.s|, IntOf(Get(p, "minLength")), IntOf(Get(p, "maxLength")))
        case Text("number") => (v.Int? || v.Float?) && Between(NumberOf(v).value, RealOf(Get(p, "minimum")), RealOf(Get(p, "maximum")))
        case Text("integer") => v.Int? && Between(v.n as real, RealOf(Get(p, "minimum")), RealOf(Get(p, "maximum")))
        case Text("boolean") => v.Bool?
        case Text("array") =>
          var items := Get(p, "items");
          && v.List? && AllTexts(v.items)
          && Sized(|v.items|, IntOf(Get(p, "minItems")), IntOf(Get(p, "maxItems")))
          && items.Object?
          && (Get(items.fields, "enum").List? ==> forall i | 0 <= i < |v.items| :: v.items[i] in Get(items.fields, "enum").items)
        case _ => false)
    && (Get(p, "enum").List? ==> Member(v, Get(p, "enum").items))
  }

  /** Whether some integer lies between the bounds of a field. */
  predicate SomeInteger(f: Field) {
    f.minimum.Some? && f.maximum.Some? ==> RoundedUp(f.minimum.value) as real <= f.maximum.value
  }

  function RoundedUp(r: real): (n: int)
    ensures r <= n as real < r + 1.0
  {
    if r.Floor as real == r then r.Floor else r.Floor + 1
  }

  /** A truth value or number that the field allows is a member of its
      enumeration only because truth values compare as numbers. */
  predicate Confused(f: Field, v: Value) {
    Among(v, f.enum) && !Member(v, f.enum)
  }

  predicate InRange(f: Field, n: int) { Between(n as real, f.minimum, f.maximum) }

  /** Exactly when the form departs from what the property means. */
  predicate Departs(f: Field, p: map<string, Value>) {
    var enum := Get(p, "enum");
    if enum == List([]) then f.kind != IntegerKind || SomeInteger(f)
    else if enum.List? then
      match f.kind
      case BooleanKind => Confused(f, Bool(true)) || Confused(f, Bool(false))
      case NumberKind => (InRange(f, 0) && Confused(f, Int(0))) || (InRange(f, 1) && Confused(f, Int(1)))
      case IntegerKind => (InRange(f, 0) && Confused(f, Int(0))) || (InRange(f, 1) && Confused(f, Int(1)))
      case _ => false
    else
      && f.kind == ArrayKind && Get(p, "items").Object?
      && (Get(p, "maxItems") == Null
          || (Get(Get(p, "items").fields, "enum") == List([]) && Get(p, "maxItems") != Int(0)))
  }

  predicate Accepts(f: Field, v: Value) { ValidateField(f, v).Some? }

  /** What parsing takes over from a property. */
  ghost predicate TakenFrom(f: Field, p: map<string, Value>) {
    && Get(p, "type") == Text(NameOf(f.kind))
    && (Get(p, "enum") == Null || Get(p, "enum").List?) && f.enum == ItemsOf(Get(p, "enum"))
    && (forall i | 0 <= i < |f.enum| :: Primitive(f.enum[i]))
    && f.minimum == RealOf(Get(p, "minimum")) && f.maximum == RealOf(Get(p, "maximum"))
    && f.minLength == IntOf(Get(p, "minLength")) && f.maxLength == IntOf(Get(p, "maxLength"))
    && OrderedReals(f.minimum, f.maximum) && Ordered(f.minLength, f.maxLength) && Ordered(f.minItems, f.maxItems)
    && (f.minLength.Some? ==> f.minLength.value >= 0) && (f.maxLength.Some? ==> f.maxLength.value >= 0)
    && (f.minItems.Some? ==> f.minItems.value >= 0) && (f.maxItems.Some? ==> f.maxItems.value >= 0)
    && f.minItems == IntOf(Get(p, "minItems"))
    && (f.kind == ArrayKind ==>
          && ItemTexts(p) == Some(f.itemEnum)
          && (Get(p, "maxItems") == Null || Get(p, "maxItems").Int?)
          && f.maxItems == Some(if Get(p, "maxItems").Int? then Get(p, "maxItems").n else MAX_ITEMS)
          && f.maxItems.value <= MAX_ITEMS)
  }

  lemma ParsedIsTaken(lib: Library, name: string, p: map<string, Value>, required: bool)
    requires ParseField(lib, name, p, required).Some?
    ensures TakenFrom(ParseField(lib, name, p, required).value, p)
  {
  }

  lemma SameMembers(v: Value, enum: seq<Value>)
    requires v.Text? || v.List?
    ensures Among(v, enum) <==> Member(v, enum)
  {
    forall i | 0 <= i < |enum| ensures Same(v, enum[i]) <==> Equal(v, enum[i]) {
    }
  }

  /** A number is confused with a truth value only if it is 0 or 1. */
  lemma ConfusedNumber(f: Field, v: Value) returns (n: int)
    requires (v.Int? || v.Float?) && Confused(f, v)
    ensures n == 0 || n == 1
    ensures NumberOf(v) == Some(n as real) && Confused(f, Int(n))
  {
    var i :| 0 <= i < |f.enum| && Same(v, f.enum[i]);
    assert !Equal(v, f.enum[i]);
    n := if f.enum[i].b then 1 else 0;
    assert Same(Int(n), f.enum[i]);
    forall k | 0 <= k < |f.enum| ensures !Equal(Int(n), f.enum[k]) {
      assert !Equal(v, f.enum[k]);
    }
  }

  lemma MembersAreAmong(v: Value, enum: seq<Value>)
    ensures Member(v, enum) ==> Among(v, enum)
  {
    if Member(v, enum) {
      var i :| 0 <= i < |enum| && Equal(v, enum[i]);
      assert Same(v, enum[i]);
    }
  }

  /** Where a form does not depart it accepts a value iff the property means it. */
  lemma NoDeparture(f: Field, p: map<string, Value>, v: Value)
    requires TakenFrom(f, p) && !Departs(f, p)
    ensures Accepts(f, v) <==> Means(p, v)
  {
    if f.kind == ArrayKind {
      NoArrayDeparture(f, p, v);
    } else {
      MembersAreAmong(v, f.enum);
      if v.Text? { SameMembers(v, f.enum); }
      if f.enum != [] && (v.Int? || v.Float?) && Confused(f, v) {
        var n := ConfusedNumber(f, v);
      }
      if f.kind == IntegerKind && v.Int? && Get(p, "enum") == List([]) && Between(v.n as real, f.minimum, f.maximum) {
        IntegerBetween(f, v.n);
      }
    }
  }

  lemma IntegerBetween(f: Field, n: int)
    requires Between(n as real, f.minimum, f.maximum)
    ensures SomeInteger(f)
  {
    if f.minimum.Some? && f.maximum.Some? {
      var up := RoundedUp(f.minimum.value);
      assert up as real < n as real + 1.0;
      assert up <= n;
    }
  }

  lemma NoArrayDeparture(f: Field, p: map<string, Value>, v: Value)
    requires f.kind == ArrayKind && TakenFrom(f, p) && !Departs(f, p)
    ensures Accepts(f, v) <==> Means(p, v)
  {
    ItemsMean(p, f.itemEnum, v);
    if v.List? { NotAmong(v, f.enum); }
  }

  lemma NotAmong(v: Value, enum: seq<Value>)
    requires v.List? && forall i | 0 <= i < |enum| :: Primitive(enum[i])
    ensures !Among(v, enum) && !Member(v, enum)
  {
  }

  function OrZero(x: Option<int>): int { if x.Some? then x.value else 0 }

  function Copies(n: nat, s: string): (v: Value)
    ensures v.List? && |v.items| == n && AllTexts(v.items)
    ensures forall i | 0 <= i < n :: v.items[i] == Text(s)
  {
    List(seq(n, i => Text(s)))
  }

  /** A text that the items of an array may be. */
  function SomeText(f: Field): string { if f.itemEnum == [] then "" else f.itemEnum[0] }

  /** A value of the field's type within its bounds. */
  function Typical(f: Field): Value {
    match f.kind
    case StringKind =>
      var n := OrZero(f.minLength);
      if n >= 0 then Text(seq(n, i => 'x')) else Null
    case NumberKind => Float(if f.minimum.Some? then f.minimum.value else if f.maximum.Some? then f.maximum.value else 0.0)
    case IntegerKind => Int(if f.minimum.Some? then RoundedUp(f.minimum.value) else if f.maximum.Some? then f.maximum.value.Floor else 0)
    case BooleanKind => Bool(true)
    case ArrayKind =>
      var n := OrZero(f.minItems);
      if n >= 0 then Copies(n, SomeText(f)) else Null
  }

  lemma TypicalIsAccepted(f: Field, p: map<string, Value>)
    requires TakenFrom(f, p) && f.enum == [] && (f.kind == IntegerKind ==> SomeInteger(f))
    ensures Accepts(f, Typical(f))
  {
  }

  /** Where a form departs there is a value on which it does. */
  lemma Departure(f: Field, p: map<string, Value>) returns (v: Value)
    requires TakenFrom(f, p) && Departs(f, p)
    ensures Accepts(f, v) != Means(p, v)
  {
    if Get(p, "enum") == List([]) {
      v := Typical(f);
      TypicalIsAccepted(f, p);
      assert !Member(v, []);
    } else if Get(p, "enum").List? {
      v := if f.kind == BooleanKind then (if Confused(f, Bool(true)) then Bool(true) else Bool(false))
           else if InRange(f, 0) && Confused(f, Int(0)) then Int(0) else Int(1);
    } else {
      v := ArrayDeparture(f, p);
    }
  }

  lemma ArrayDeparture(f: Field, p: map<string, Value>) returns (v: Value)
    requires TakenFrom(f, p) && Departs(f, p) && Get(p, "enum") == Null
    ensures Accepts(f, v) != Means(p, v)
  {
    var enum := Get(Get(p, "items").fields, "enum");
    if enum == List([]) {
      v := Copies(if OrZero(f.minItems) > 1 then OrZero(f.minItems) else 1, "");
      assert v.items[0] !in enum.items;
    } else {
      v := Copies(MAX_ITEMS + 1, SomeText(f));
      if enum.List? {
        assert enum.items[0] == Text(f.itemEnum[0]);
      }
    }
  }

  /** A parsed field accepts exactly what its property means, for every value, if
      and only if it does not depart: its enumeration is not empty (unless
      nothing lies between its bounds anyway), does not confuse 0 and 1 with
      truth values, and, for an array, its length is bounded by the property
      and its items are not enumerated by an empty list. */
  lemma AcceptsWhatIsMeant(lib: Library, name: string, p: map<string, Value>, required: bool)
    requires ParseField(lib, name, p, required).Some?
    ensures var f := ParseField(lib, name, p, required).value;
      (forall v :: Accepts(f, v) <==> Means(p, v)) <==> !Departs(f, p)
  {
    var f := ParseField(lib, name, p, required).value;
    ParsedIsTaken(lib, name, p, required);
    if Departs(f, p) {
      var v := Departure(f, p);
    } else {
      forall v ensures Accepts(f, v) <==> Means(p, v) {
        NoDeparture(f, p, v);
      }
    }
  }

  /** As `Fits`, with the meaning of each property. */
  ghost predicate MeantBy(schema: Value, content: map<string, Value>)
    requires schema.Object? && Get(schema.fields, "properties").Object? && RequiredNames(schema.fields).Some?
  {
    var properties := Get(schema.fields, "properties").fields;
    && content.Keys <= properties.Keys
    && RequiredNames(schema.fields).value <= content.Keys
    && forall n | n in content && n in properties :: properties[n].Object? && Means(properties[n].fields, content[n])
  }

  /** A whole form that departs nowhere accepts exactly the answers its schema means. */
  lemma AnswersAreMeant(lib: Library, schema: Value, content: map<string, Value>)
    requires Faithful(lib) && ParseSchema(lib, schema).Some?
    requires schema.Object? && Get(schema.fields, "properties").Object? && RequiredNames(schema.fields).Some?
    requires var form, properties := ParseSchema(lib, schema).value, Get(schema.fields, "properties").fields;
      forall n | n in form && n in properties && properties[n].Object? :: !Departs(form[n], properties[n].fields)
    ensures var form := ReadForm(lib, StoreForm(ParseSchema(lib, schema).value));
      form.Some? && Validate(form.value, content) == if MeantBy(schema, content) then Some(content) else None
  {
    ParsedForm(lib, schema);
    AnswersFitTheSchema(lib, schema, content);
    var form := ParseSchema(lib, schema).value;
    var properties, required := Get(schema.fields, "properties").fields, RequiredNames(schema.fields).value;
    forall n | n in content && n in properties
      ensures Means(properties[n].fields, content[n]) <==> Allows(properties[n].fields, content[n])
    {
      ParsedIsTaken(lib, n, properties[n].fields, n in required);
      NoDeparture(form[n], properties[n].fields, content[n]);
      FieldMeansProperty(lib, n, properties[n].fields, n in required, content[n]);
    }
  }

  /** A schema with one property. */
  function OneProperty(p: map<string, Value>): Value {
    Object(map["type" := Text("object"), "properties" := Object(map["c" := Object(p)])])
  }

  lemma OnePropertyForm(lib: Library, p: map<string, Value>, f: Field)
    requires ParseField(lib, "c", p, false) == Some(f)
    ensures ParseSchema(lib, OneProperty(p)) == Some(map["c" := f])
  {
    var schema := OneProperty(p).fields;
    assert Get(schema, "properties") == Object(map["c" := Object(p)]);
    assert RequiredNames(schema) == Some({});
    assert ParseSchema(lib, OneProperty(p)).value == map["c" := f];
  }

  /** Whether the whole way from a schema with one property to its answer accepts a value. */
  predicate AcceptedAnswer(lib: Library, p: map<string, Value>, v: Value) {
    var schema := ParseSchema(lib, OneProperty(p));
    schema.Some? &&
      (var form := ReadForm(lib, StoreForm(schema.value));
       form.Some? && Validate(form.value, map["c" := v]).Some?)
  }

  lemma ValidateOne(f: Field, v: Value)
    requires !f.required
    ensures Validate(map["c" := f], map["c" := v]).Some? <==> Accepts(f, v)
  {
    var content, form := map["c" := v], map["c" := f];
    assert "c" in content && "c" in form;
  }

  lemma OnePropertyAnswer(lib: Library, p: map<string, Value>, f: Field, v: Value)
    requires Faithful(lib) && ParseField(lib, "c", p, false) == Some(f)
    ensures AcceptedAnswer(lib, p, v) <==> Accepts(f, v)
  {
    OnePropertyForm(lib, p, f);
    DefaultsAreAccepted(lib, "c", p, false);
    FieldKeepsRequired(lib, "c", p, false);
    FormRoundTrip(lib, map["c" := f]);
    ValidateOne(f, v);
  }

  /** An empty enumeration accepts any text, although nothing is meant. */
  lemma EmptyEnumerationAcceptsAnything(lib: Library, text: string)
    requires Faithful(lib)
    ensures var p := map["type" := Text("string"), "enum" := List([])];
      AcceptedAnswer(lib, p, Text(text)) && forall v :: !Means(p, v)
  {
    var p := map["type" := Text("string"), "enum" := List([])];
    var f := ParseField(lib, "c", p, false);
    assert f.Some? && f.value.enum == [];
    OnePropertyAnswer(lib, p, f.value, Text(text));
  }

  /** The number 1 in an enumeration accepts `true`, which is not meant. */
  lemma OneAcceptsTrue(lib: Library)
    requires Faithful(lib)
    ensures var p := map["type" := Text("boolean"), "enum" := List([Int(1)])];
      AcceptedAnswer(lib, p, Bool(true)) && !Means(p, Bool(true))
  {
    var p := map["type" := Text("boolean"), "enum" := List([Int(1)])];
    OneIsTrue();
    var f := ParseField(lib, "c", p, false);
    assert f.Some? && f.value.enum == [Int(1)];
    OnePropertyAnswer(lib, p, f.value, Bool(true));
  }

  lemma OneIsTrue()
    ensures Among(Bool(true), [Int(1)]) && !Member(Bool(true), [Int(1)])
    ensures PrimitiveEnum(List([Int(1)])) == Some([Int(1)])
  {
    var enum := [Int(1)];
    assert Same(Bool(true), enum[0]);
  }

  function AnyTexts(): map<string, Value> {
    map["type" := Text("array"), "items" := Object(map["type" := Text("string")])]
  }

  lemma AnyTextsParses(lib: Library) returns (f: Field)
    ensures ParseField(lib, "c", AnyTexts(), false) == Some(f) && f.kind == ArrayKind && f.maxItems == Some(25)
  {
    assert ItemTexts(AnyTexts()) == Some([]);
    f := ParseField(lib, "c", AnyTexts(), false).value;
  }

  lemma AnyTextsMeansThem(v: Value)
    requires v.List? && AllTexts(v.items)
    ensures Means(AnyTexts(), v)
  {
  }

  /** Where the schema names no bound, 26 items are meant but not accepted. */
  lemma LongListsAreRejected(lib: Library, text: string)
    requires Faithful(lib)
    ensures ParseField(lib, "c", AnyTexts(), false).Some?
    ensures !AcceptedAnswer(lib, AnyTexts(), Copies(26, text)) && Means(AnyTexts(), Copies(26, text))
  {
    var f := AnyTextsParses(lib);
    AnyTextsMeansThem(Copies(26, text));
    OnePropertyAnswer(lib, AnyTexts(), f, Copies(26, text));
  }
}
