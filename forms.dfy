/** What every modal form shares: reading a field, clearing a field's error when the
    field changes, and the test of an error entry. */
module Forms {
  import opened Wrappers
  import opened Js

  /** A field of a form that also holds numbers: what the user typed, or a number loaded
      from a stored record. */
  datatype FormValue = Text(s: string) | Number(n: int)

  /** The field as a JavaScript value. */
  function AsValue(v: FormValue): Value {
    match v
    case Text(s) => Str(s)
    case Number(n) => Num(n)
  }

  /** `!!v` of a field. */
  predicate TruthyField(v: FormValue) {
    match v
    case Text(s) => s != ""
    case Number(n) => n != 0
  }

  lemma TruthyFieldIsTruthy(v: FormValue)
    ensures TruthyField(v) == Truthy(AsValue(v))
  {
  }

  /** `parseInt(v)` of a field; a number parses back to itself. */
  function ParseField(v: FormValue): (r: Option<int>)
    ensures r == ParseIntValue(AsValue(v))
  {
    match v
    case Text(s) => ParseInt(s)
    case Number(n) => ParseIntOfNum(n); Some(n)
  }

  /** `formData[k]` of a string form; a missing key reads as '' (undefined is falsy and
      parses to NaN just as '' does). */
  function Field(form: map<string, string>, k: string): string {
    if k in form then form[k] else ""
  }

  /** `errors[name]` is truthy: the field shows an error message. */
  predicate HasError(errors: map<string, string>, name: string) {
    name in errors && errors[name] != ""
  }

  /** `if (errors[name]) setErrors(prev => ({ ...prev, [name]: '' }))`: the entry of the
      changed field is blanked, the key itself stays, and every other entry is kept. */
  function ClearFieldError(errors: map<string, string>, name: string): (r: map<string, string>)
    ensures r.Keys == errors.Keys
    ensures !HasError(r, name)
    ensures forall k | k in errors && k != name :: r[k] == errors[k]
    ensures !HasError(errors, name) ==> r == errors
  {
    if HasError(errors, name) then errors[name := ""] else errors
  }

  const NameRequired := "El nombre es requerido"

  /** The check every form makes of its nombre field: not blank after trimming. */
  function NameError(form: map<string, string>): (e: Option<string>)
    ensures e.Some? <==> IsBlank(Field(form, "nombre"))
    ensures e.Some? ==> e.value == NameRequired
  {
    if IsBlank(Field(form, "nombre")) then Some(NameRequired) else None
  }

  /** The one-entry error map of a field whose check gave `e`, empty when it passed. */
  function Entry(k: string, e: Option<string>): (m: map<string, string>)
    ensures m.Keys <= {k}
    ensures k in m <==> e.Some?
    ensures k in m ==> m[k] == e.value
  {
    if e.Some? then map[k := e.value] else map[]
  }

  /** `Object.keys(m).length === 0` holds exactly for the empty map. */
  lemma NoKeysIsEmpty(m: map<string, string>)
    ensures |m.Keys| == 0 <==> m == map[]
  {
    if m != map[] {
      var k :| k in m;
      assert k in m.Keys;
    }
  }

  /** Setting the entry of a field not yet in the map. */
  lemma AddEntry(a: map<string, string>, k: string, v: string)
    requires k !in a
    ensures a[k := v] == a + Entry(k, Some(v))
  {
  }

  /** Overwriting the entry of `k` when other fields' entries come before and after it. */
  lemma OverwriteMiddle(a: map<string, string>, k: string, e: Option<string>, v: string, b: map<string, string>)
    requires k !in a && k !in b
    ensures (a + Entry(k, e) + b)[k := v] == a + Entry(k, Some(v)) + b
  {
  }

  /** Entries of two other fields added after a map keep every entry of that map. */
  lemma EntriesKeep(a: map<string, string>, k1: string, e1: Option<string>, k2: string, e2: Option<string>)
    requires k1 !in a && k2 !in a
    ensures forall k | k in a :: k in a + Entry(k1, e1) + Entry(k2, e2) && (a + Entry(k1, e1) + Entry(k2, e2))[k] == a[k]
  {
  }

  /** Overwriting the entry of `k` after the other fields' entries. */
  lemma OverwriteLast(a: map<string, string>, k: string, e: Option<string>, v: string)
    requires k !in a
    ensures (a + Entry(k, e))[k := v] == a + Entry(k, Some(v))
  {
  }
}
