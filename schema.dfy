/**
 * Scope tokens and the declarative schema tables of the JISC models: per
 * field a type, a read-access list and the validators the document mapper
 * runs before a save (required, min, max, enum), per entity the read and
 * write scopes and, for soft-deleting models, the set of fields kept when a
 * document is flushed.
 */
module Scopes {

  /** The capability tokens a registered client may be granted. */
  datatype Scope = ALL | UDD_READ | STUDENT_APP | TRIBAL_INSIGHT | LAP | SSP | OPENDASH

  /** Some granted scope occurs in the listed ones. */
  predicate Grants(granted: set<Scope>, listed: seq<Scope>) {
    exists s :: s in granted && s in listed
  }

  /** Every scope of `a` occurs in `b`. */
  predicate Within(a: seq<Scope>, b: seq<Scope>) {
    forall s :: s in a ==> s in b
  }
}

module Schemas {
  import opened Base
  import opened Scopes

  datatype FieldType = StringType | NumberType | DateType | ObjectIdType | ObjectIdArrayType

  /** The enum validator of a string path: the admitted codes and whether null is admitted. */
  datatype EnumSpec = EnumSpec(codes: set<string>, allowsNull: bool)

  datatype Field = Field(
    kind: FieldType,
    required: bool,
    min: Option<int>,
    max: Option<int>,
    default: Option<int>,
    enumValues: Option<EnumSpec>,
    readAccess: Option<seq<Scope>>)   // None: the field declares no readAccess list

  datatype Schema = Schema(
    fields: map<string, Field>,
    readScopes: seq<Scope>,
    writeScopes: seq<Scope>,
    keep: Option<set<string>>)        // None: the model has no soft-delete plugin

  /** The usual shape of a table entry: an optional field with a read-access list. */
  function Scoped(kind: FieldType, readAccess: seq<Scope>): Field {
    Field(kind, false, None, None, None, None, Some(readAccess))
  }

  function RequiredString(readAccess: seq<Scope>): Field {
    Field(StringType, true, None, None, None, None, Some(readAccess))
  }

  function BoundedNumber(lo: int, hi: int, readAccess: seq<Scope>): Field {
    Field(NumberType, false, Some(lo), Some(hi), None, None, Some(readAccess))
  }

  function NullableCode(codes: set<string>, readAccess: seq<Scope>): Field {
    Field(StringType, false, None, None, None, Some(EnumSpec(codes, true)), Some(readAccess))
  }

  /** A field declared without a readAccess list. */
  function Unscoped(kind: FieldType): Field {
    Field(kind, false, None, None, None, None, None)
  }

  /**
   * Every model builds its scopes the same way: the write scopes are a base
   * list, and the read scopes are that list followed by UDD_READ.
   */
  function ScopedSchema(fields: map<string, Field>, base: seq<Scope>, keep: Option<set<string>>): Schema {
    Schema(fields, base + [UDD_READ], base, keep)
  }

  // ---------------------------------------------------------------------
  // Access scoping
  // ---------------------------------------------------------------------

  /** The paths every caller sees whatever its scopes: the identifier and the organisation. */
  const AlwaysVisible: set<string> := {"_id", "organisation"}

  /**
   * A caller may read `name` when the path is always visible, or when it is
   * a declared path and the caller holds the universal scope or a scope in
   * the path's readAccess list.
   */
  predicate CanRead(s: Schema, name: string, granted: set<Scope>) {
    || name in AlwaysVisible
    || (name in s.fields
        && (ALL in granted || (s.fields[name].readAccess.Some? && Grants(granted, s.fields[name].readAccess.value))))
  }

  /** The part of a document a caller with `granted` may read. */
  function FilterRead(s: Schema, doc: Document, granted: set<Scope>): (r: Document)
    ensures forall name :: name in r <==> name in doc && CanRead(s, name, granted)
    ensures forall name :: name in r ==> r[name] == doc[name]
  {
    map name | name in doc && CanRead(s, name, granted) :: doc[name]
  }

  /** With the universal scope every declared or always-visible path of the document is returned, unchanged. */
  lemma UniversalScopeReadsAll(s: Schema, doc: Document, granted: set<Scope>)
    requires ALL in granted
    ensures var r := FilterRead(s, doc, granted);
      forall name :: name in doc && (name in s.fields || name in AlwaysVisible) ==> name in r && r[name] == doc[name]
  {
  }

  /** Without the universal scope a path with no readAccess list is returned only if it is always visible. */
  lemma UnlistedNeedsUniversalScope(s: Schema, doc: Document, granted: set<Scope>, name: string)
    requires name in s.fields && s.fields[name].readAccess.None? && name !in AlwaysVisible
    ensures name in FilterRead(s, doc, granted) <==> name in doc && ALL in granted
  {
  }

  /** Writing is all-or-nothing per entity: some granted scope must be a write scope. */
  predicate CanWrite(s: Schema, granted: set<Scope>) {
    Grants(granted, s.writeScopes)
  }

  /** The scopes appended by ScopedSchema can read, but never write, unless the base list already has them. */
  lemma {:induction false} ReadOnlyScope(fields: map<string, Field>, base: seq<Scope>, keep: Option<set<string>>)
    requires UDD_READ !in base
    ensures var s := ScopedSchema(fields, base, keep);
      && Within(s.writeScopes, s.readScopes)
      && (forall x :: x in s.readScopes && x !in s.writeScopes <==> x == UDD_READ)
      && !CanWrite(s, {UDD_READ})
      && Grants({UDD_READ}, s.readScopes)
  {
    var s := ScopedSchema(fields, base, keep);
    assert UDD_READ in s.readScopes by { assert s.readScopes[|base|] == UDD_READ; }
    forall x | x in s.readScopes ensures x in base || x == UDD_READ {
      var i :| 0 <= i < |s.readScopes| && s.readScopes[i] == x;
      if i < |base| { assert s.readScopes[i] == base[i]; }
    }
  }

  // ---------------------------------------------------------------------
  // Validation: the validators the mapper runs on every declared path
  // ---------------------------------------------------------------------

  /** A stored value; `Null` is an explicit null, a missing key is undefined. */
  datatype Value = Null | Text(s: string) | Number(n: int) | Timestamp(ms: int) | Ref(id: ObjectId) | Refs(ids: seq<ObjectId>)

  datatype ErrorKind = CastFailed | Required | BelowMin | AboveMax | NotInEnum

  type Document = map<string, Value>

  function Lookup(doc: Document, name: string): Option<Value> {
    if name in doc then Some(doc[name]) else None
  }

  predicate Conforms(kind: FieldType, v: Value) {
    match kind
    case StringType => v.Text?
    case NumberType => v.Number?
    case DateType => v.Timestamp?
    case ObjectIdType => v.Ref?
    case ObjectIdArrayType => v.Refs?
  }

  // ---------------------------------------------------------------------
  // Decimal numerals, as the string and number casts write and read them
  // ---------------------------------------------------------------------

  predicate IsNumeral(s: string) {
    |s| > 0 && forall i :: 0 <= i < |s| ==> '0' <= s[i] <= '9'
  }

  function DigitValue(c: char): nat
    requires '0' <= c <= '9'
  {
    c as int - '0' as int
  }

  /** The value of a string of decimal digits; leading zeros are allowed. */
  function NumeralValue(s: string): nat
    requires IsNumeral(s)
    decreases |s|
  {
    if |s| == 1 then DigitValue(s[0])
    else
      var init := s[..|s| - 1];
      assert IsNumeral(init) by {
        forall i | 0 <= i < |init| ensures '0' <= init[i] <= '9' {
          assert init[i] == s[i];
        }
      }
      NumeralValue(init) * 10 + DigitValue(s[|s| - 1])
  }

  /** The decimal digits of `n`, without leading zeros. */
  function Digits(n: nat): (s: string)
    ensures IsNumeral(s)
    decreases n
  {
    var last := ('0' as int + n % 10) as char;
    if n < 10 then [last] else Digits(n / 10) + [last]
  }

  /** How a number is written when it is cast to a string. */
  function Decimal(n: int): string {
    if n < 0 then "-" + Digits(-n) else Digits(n)
  }

  /** A signed decimal integer numeral; any other string is not read as a number here. */
  function ParseInteger(s: string): Option<int> {
    if IsNumeral(s) then Some(NumeralValue(s) as int)
    else if |s| >= 2 && s[0] == '-' && IsNumeral(s[1..]) then Some(-(NumeralValue(s[1..]) as int))
    else if |s| >= 2 && s[0] == '+' && IsNumeral(s[1..]) then Some(NumeralValue(s[1..]) as int)
    else None
  }

  lemma {:induction false} DigitsRoundTrip(n: nat)
    ensures NumeralValue(Digits(n)) == n
    decreases n
  {
    if n >= 10 {
      DigitsRoundTrip(n / 10);
      var s := Digits(n);
      assert s[..|s| - 1] == Digits(n / 10);
    }
  }

  /** Reading back the numeral a number is written as gives the number. */
  lemma DecimalRoundTrip(n: int)
    ensures ParseInteger(Decimal(n)) == Some(n)
  {
    if n < 0 {
      var s := Decimal(n);
      assert s[0] == '-' && !IsNumeral(s);
      assert s[1..] == Digits(-n);
      DigitsRoundTrip(-n);
    } else {
      DigitsRoundTrip(n);
    }
  }

  // ---------------------------------------------------------------------
  // Casting: the mapper converts a value to the path's type before validating
  // ---------------------------------------------------------------------

  /**
   * The cast of one value to a path's type, or None when the cast fails.
   * Null stays null and a value of the path's type stays as it is. A number
   * becomes its decimal numeral on a string path; on a number path an empty
   * string becomes null, an integer numeral its value and a date its
   * millisecond count; on a date path a number is a millisecond count.
   */
  function Cast(kind: FieldType, v: Value): (r: Option<Value>)
    ensures v == Null ==> r == Some(Null)
    ensures Conforms(kind, v) ==> r == Some(v)
    ensures r.Some? ==> r.value == Null || Conforms(kind, r.value)
    ensures r == Some(Null) ==> v == Null || (kind == NumberType && v == Text(""))
  {
    if v == Null || Conforms(kind, v) then Some(v)
    else
      match kind
      case StringType => if v.Number? then Some(Text(Decimal(v.n))) else None
      case NumberType =>
        if v == Text("") then Some(Null)
        else if v.Text? && ParseInteger(v.s).Some? then Some(Number(ParseInteger(v.s).value))
        else if v.Timestamp? then Some(Number(v.ms))
        else None
      case DateType => if v.Number? then Some(Timestamp(v.n)) else None
      case ObjectIdType => None
      case ObjectIdArrayType => None
  }

  /** A number cast to a string path and back to a number path is the same number. */
  lemma CastNumberRoundTrip(n: int)
    ensures Cast(StringType, Number(n)) == Some(Text(Decimal(n)))
    ensures Cast(NumberType, Text(Decimal(n))) == Some(Number(n))
  {
    DecimalRoundTrip(n);
    assert Decimal(n) != "" by {
      if n >= 0 { assert |Digits(n)| > 0; }
    }
  }

  /** An undefined path stays undefined; anything else must cast. */
  predicate Castable(kind: FieldType, v: Option<Value>) {
    v.None? || Cast(kind, v.value).Some?
  }

  /** The value held after casting; a value whose cast fails is kept as it is. */
  function CastOrKeep(kind: FieldType, v: Value): Value {
    if Cast(kind, v).Some? then Cast(kind, v).value else v
  }

  function Stored(kind: FieldType, v: Option<Value>): Option<Value> {
    if v.Some? then Some(CastOrKeep(kind, v.value)) else None
  }

  /** The document as the mapper holds it: every declared path cast to its type. */
  function CastDocument(s: Schema, doc: Document): (r: Document)
    ensures r.Keys == doc.Keys
    ensures forall name :: name in doc && name !in s.fields ==> r[name] == doc[name]
    ensures forall name :: name in s.fields ==> Lookup(r, name) == Stored(s.fields[name].kind, Lookup(doc, name))
  {
    map name | name in doc :: if name in s.fields then CastOrKeep(s.fields[name].kind, doc[name]) else doc[name]
  }

  /** The required validator: not null or undefined, and for strings not empty. */
  predicate Present(kind: FieldType, v: Option<Value>) {
    v.Some? && v.value != Null && (kind == StringType ==> v.value.Text? && |v.value.s| > 0)
  }

  /** The enum validator: undefined passes; null passes only if null is listed. */
  predicate Admitted(e: EnumSpec, v: Option<Value>) {
    match v
    case None => true
    case Some(Null) => e.allowsNull
    case Some(Text(s)) => s in e.codes
    case Some(_) => false
  }

  /** The value casts, and every validator of the path accepts the cast value. */
  predicate Passes(f: Field, v: Option<Value>) {
    && Castable(f.kind, v)
    && var w := Stored(f.kind, v);
    && (f.required ==> Present(f.kind, w))
    && (w.Some? && w.value.Number? && f.min.Some? ==> f.min.value <= w.value.n)
    && (w.Some? && w.value.Number? && f.max.Some? ==> w.value.n <= f.max.value)
    && (f.enumValues.Some? ==> Admitted(f.enumValues.value, w))
  }

  /** The first failing check of one path, in the order the mapper runs them: the cast, then the validators. */
  function FieldError(f: Field, v: Option<Value>): (e: Option<ErrorKind>)
    ensures e.None? <==> Passes(f, v)
    ensures e == Some(CastFailed) <==> !Castable(f.kind, v)
    ensures e.None? && v.Some? ==> Stored(f.kind, v).value == Null || Conforms(f.kind, Stored(f.kind, v).value)
    ensures e == Some(Required) ==> f.required && !Present(f.kind, Stored(f.kind, v))
    ensures e == Some(BelowMin) ==>
      var w := Stored(f.kind, v); f.min.Some? && w.Some? && w.value.Number? && w.value.n < f.min.value
    ensures e == Some(AboveMax) ==>
      var w := Stored(f.kind, v); f.max.Some? && w.Some? && w.value.Number? && w.value.n > f.max.value
  {
    if !Castable(f.kind, v) then Some(CastFailed)
    else
      var w := Stored(f.kind, v);
      if f.required && !Present(f.kind, w) then Some(Required)
      else if w.Some? && w.value.Number? && f.min.Some? && w.value.n < f.min.value then Some(BelowMin)
      else if w.Some? && w.value.Number? && f.max.Some? && w.value.n > f.max.value then Some(AboveMax)
      else if f.enumValues.Some? && !Admitted(f.enumValues.value, w) then Some(NotInEnum)
      else None
  }

  /** The validation errors of a document, keyed by path; undeclared paths are not checked. */
  function ValidationErrors(s: Schema, doc: Document): map<string, ErrorKind> {
    map name | name in s.fields && FieldError(s.fields[name], Lookup(doc, name)).Some? ::
      FieldError(s.fields[name], Lookup(doc, name)).value
  }

  predicate IsValid(s: Schema, doc: Document) {
    forall name :: name in s.fields ==> FieldError(s.fields[name], Lookup(doc, name)).None?
  }

  lemma ValidIffNoErrors(s: Schema, doc: Document)
    ensures IsValid(s, doc) <==> ValidationErrors(s, doc) == map[]
  {
    if !IsValid(s, doc) {
      var name :| name in s.fields && FieldError(s.fields[name], Lookup(doc, name)).Some?;
      assert name in ValidationErrors(s, doc);
    }
  }

  /** A number field is undefined, null, or within [lo, hi]. */
  predicate InRange(doc: Document, name: string, lo: int, hi: int) {
    name !in doc || doc[name] == Null || (doc[name].Number? && lo <= doc[name].n <= hi)
  }

  /** Once cast, a bounded number field of a valid document is undefined, null or within its bounds. */
  lemma ValidBounded(s: Schema, doc: Document, name: string)
    requires IsValid(s, doc)
    requires name in s.fields && s.fields[name].kind == NumberType
    requires s.fields[name].min.Some? && s.fields[name].max.Some?
    ensures InRange(CastDocument(s, doc), name, s.fields[name].min.value, s.fields[name].max.value)
  {
    assert FieldError(s.fields[name], Lookup(doc, name)).None?;
  }

  /** Once cast, a required string field of a valid document holds a non-empty string. */
  lemma ValidRequiredString(s: Schema, doc: Document, name: string)
    requires IsValid(s, doc)
    requires name in s.fields && s.fields[name].kind == StringType && s.fields[name].required
    ensures var r := CastDocument(s, doc); name in r && r[name].Text? && |r[name].s| > 0
  {
    assert FieldError(s.fields[name], Lookup(doc, name)).None?;
  }

  /** The names of the required fields. */
  function RequiredFields(s: Schema): set<string> {
    set name | name in s.fields && s.fields[name].required
  }

  // ---------------------------------------------------------------------
  // Defaults
  // ---------------------------------------------------------------------

  /** Fills every undefined path that declares a default. */
  function ApplyDefaults(s: Schema, doc: Document): (r: Document)
    ensures forall name :: name in doc ==> name in r && r[name] == doc[name]
    ensures forall name :: name in s.fields && s.fields[name].default.Some? && name !in doc ==>
      name in r && r[name] == Number(s.fields[name].default.value)
    ensures forall name :: name in r ==> name in doc || (name in s.fields && s.fields[name].default.Some?)
  {
    var defaults := map name | name in s.fields && s.fields[name].default.Some? && name !in doc ::
      Number(s.fields[name].default.value);
    doc + defaults
  }

  /** Every declared default passes its own field's validators. */
  predicate DefaultsPass(s: Schema) {
    forall name :: name in s.fields && s.fields[name].default.Some? ==>
      FieldError(s.fields[name], Some(Number(s.fields[name].default.value))).None?
  }

  /** A field left undefined cannot fail validation once its sound default is applied. */
  lemma DefaultedFieldValid(s: Schema, doc: Document, name: string)
    requires DefaultsPass(s)
    requires name in s.fields && s.fields[name].default.Some? && name !in doc
    ensures FieldError(s.fields[name], Lookup(ApplyDefaults(s, doc), name)).None?
  {
  }

  // ---------------------------------------------------------------------
  // Soft-delete flush
  // ---------------------------------------------------------------------

  /** A declared path of type string. */
  predicate IsStringPath(s: Schema, name: string) {
    name in s.fields && s.fields[name].kind == StringType
  }

  /** A path the flush leaves as it is: the identity, the organisation and the keep set. */
  predicate Retained(keep: set<string>, name: string) {
    name in keep || name in AlwaysVisible
  }

  /**
   * The soft-delete flush. The identity, the organisation and the paths of
   * the keep set keep their values; every other string path present is
   * emptied to "", and every other path (number, date, reference) is removed.
   */
  function Flush(s: Schema, keep: set<string>, doc: Document): (r: Document)
    ensures forall name :: name in r <==> name in doc && (Retained(keep, name) || IsStringPath(s, name))
    ensures forall name :: name in r && Retained(keep, name) ==> r[name] == doc[name]
    ensures forall name :: name in r && !Retained(keep, name) ==> r[name] == Text("")
  {
    map name | name in doc && (Retained(keep, name) || IsStringPath(s, name)) ::
      if Retained(keep, name) then doc[name] else Text("")
  }

  /** Flushing an already flushed document changes nothing. */
  lemma FlushIdempotent(s: Schema, keep: set<string>, doc: Document)
    ensures Flush(s, keep, Flush(s, keep, doc)) == Flush(s, keep, doc)
  {
    var once := Flush(s, keep, doc);
    var twice := Flush(s, keep, once);
    assert twice.Keys == once.Keys;
    forall name | name in once ensures twice[name] == once[name] {
    }
  }
}
