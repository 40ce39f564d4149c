/** The product form (src/components/modals/ProductModal.jsx). Its fields hold strings
    typed by the user or, after the edit preload, the numbers of the stored product. */
module ProductModal {
  import opened Wrappers
  import opened Js
  import opened Entities
  import opened Forms

  const SkuRequired := "El SKU es requerido"
  const CategoryRequired := "La categoría es requerida"
  const WarehouseRequired := "El almacén es requerido"
  const MinRequired := "El stock mínimo es requerido"
  const MinPositive := "El stock mínimo debe ser positivo"
  const MinInteger := "El stock mínimo debe ser un número entero"
  const MaxRequired := "El stock máximo es requerido"
  const MaxPositive := "El stock máximo debe ser positivo"
  const MaxInteger := "El stock máximo debe ser un número entero"
  const MinAboveMax := "El stock mínimo no puede ser mayor al máximo"

  const ProductFields: set<string> :=
    {"sku", "nombre", "category_id", "warehouse_id", "stock_minimo", "stock_maximo"}

  /** `formData[k]`; every key of ProductFields is always present, and a missing one
      would behave as '' does (falsy, NaN). */
  function FieldValue(form: map<string, FormValue>, k: string): FormValue {
    if k in form then form[k] else Text("")
  }

  /** sku and nombre hold strings, so `validate` can call `trim` on them. */
  predicate TextsAreStrings(form: map<string, FormValue>) {
    FieldValue(form, "sku").Text? && FieldValue(form, "nombre").Text?
  }

  /** `x || ''` for a number of the stored product. */
  function OrEmpty(n: int): (v: FormValue)
    ensures TruthyField(v) <==> n != 0
    ensures n != 0 ==> v == Number(n)
    ensures n == 0 ==> v == Text("")
  {
    if n != 0 then Number(n) else Text("")
  }

  /** `product.warehouse_id || ''`, where the product may have no warehouse. */
  function WarehouseOrEmpty(w: Option<int>): (v: FormValue)
    ensures TruthyField(v) <==> w.Some? && w.value != 0
  {
    if w.Some? then OrEmpty(w.value) else Text("")
  }

  /** The form the init effect sets: the stored product's fields with '' for falsy ones,
      or an empty form whose warehouse is the first one offered, if any. */
  function InitialForm(product: Option<Product>, warehouses: seq<Warehouse>): (form: map<string, FormValue>)
    ensures form.Keys == ProductFields
    ensures TextsAreStrings(form)
    ensures product.None? ==>
              form["warehouse_id"] == (if |warehouses| > 0 then Number(warehouses[0].id) else Text(""))
    ensures product.Some? ==> form["sku"] == Text(product.value.sku) && form["nombre"] == Text(product.value.nombre)
    ensures product.None? ==> forall k | k in ProductFields - {"warehouse_id"} :: form[k] == Text("")
    ensures product.Some? ==>
              && form["category_id"] == OrEmpty(product.value.category_id)
              && form["warehouse_id"] == WarehouseOrEmpty(product.value.warehouse_id)
              && form["stock_minimo"] == OrEmpty(product.value.stock_minimo)
              && form["stock_maximo"] == OrEmpty(product.value.stock_maximo)
    ensures product.Some? ==>
              (TruthyField(form["stock_minimo"]) <==> product.value.stock_minimo != 0)
              && (TruthyField(form["stock_maximo"]) <==> product.value.stock_maximo != 0)
  {
    match product
    case Some(p) =>
      map["sku" := Text(p.sku), "nombre" := Text(p.nombre), "category_id" := OrEmpty(p.category_id),
          "warehouse_id" := WarehouseOrEmpty(p.warehouse_id),
          "stock_minimo" := OrEmpty(p.stock_minimo), "stock_maximo" := OrEmpty(p.stock_maximo)]
    case None =>
      var defaultWarehouse := if |warehouses| > 0 then Number(warehouses[0].id) else Text("");
      map["sku" := Text(""), "nombre" := Text(""), "category_id" := Text(""),
          "warehouse_id" := defaultWarehouse, "stock_minimo" := Text(""), "stock_maximo" := Text("")]
  }

  /** The checks of one stock field on its own, given the field and its parse: empty is
      required, a negative parse is not positive, and NaN is not an integer. */
  function StockError(v: FormValue, n: Option<int>, required: string, positive: string, integer: string)
    : (e: Option<string>)
    ensures e.None? <==> TruthyField(v) && n.Some? && n.value >= 0
    ensures !TruthyField(v) ==> e == Some(required)
    ensures TruthyField(v) && n.Some? && n.value < 0 ==> e == Some(positive)
    ensures TruthyField(v) && n.None? ==> e == Some(integer)
  {
    if !TruthyField(v) then Some(required)
    else if NumLess(n, 0) then Some(positive)
    else if n.None? then Some(integer)
    else None
  }

  /** The cross check: both parses truthy (not 0, not NaN) and the minimum above the maximum. */
  predicate MinExceedsMax(stockMin: Option<int>, stockMax: Option<int>) {
    TruthyNumber(stockMin) && TruthyNumber(stockMax) && stockMin.value > stockMax.value
  }

  /** The stock_minimo error: the cross check wins over the field's own checks. */
  function MinError(form: map<string, FormValue>, stockMin: Option<int>, stockMax: Option<int>): Option<string> {
    if MinExceedsMax(stockMin, stockMax) then Some(MinAboveMax)
    else StockError(FieldValue(form, "stock_minimo"), stockMin, MinRequired, MinPositive, MinInteger)
  }

  function MaxError(form: map<string, FormValue>, stockMax: Option<int>): Option<string> {
    StockError(FieldValue(form, "stock_maximo"), stockMax, MaxRequired, MaxPositive, MaxInteger)
  }

  function RequiredText(form: map<string, FormValue>, k: string, msg: string): Option<string>
    requires TextsAreStrings(form) && (k == "sku" || k == "nombre")
  {
    if IsBlank(FieldValue(form, k).s) then Some(msg) else None
  }

  function RequiredValue(form: map<string, FormValue>, k: string, msg: string): Option<string> {
    if !TruthyField(FieldValue(form, k)) then Some(msg) else None
  }

  /** The checks that do not read the stock fields; the warehouse is required only when
      there is a warehouse to choose. */
  function TextErrors(form: map<string, FormValue>, hasWarehouses: bool): (errors: map<string, string>)
    requires TextsAreStrings(form)
    ensures errors.Keys <= {"sku", "nombre", "category_id", "warehouse_id"}
    ensures "sku" in errors <==> IsBlank(FieldValue(form, "sku").s)
    ensures "nombre" in errors <==> IsBlank(FieldValue(form, "nombre").s)
    ensures "category_id" in errors <==> !TruthyField(FieldValue(form, "category_id"))
    ensures "warehouse_id" in errors <==> hasWarehouses && !TruthyField(FieldValue(form, "warehouse_id"))
  {
    Entry("sku", RequiredText(form, "sku", SkuRequired))
    + Entry("nombre", RequiredText(form, "nombre", NameRequired))
    + Entry("category_id", RequiredValue(form, "category_id", CategoryRequired))
    + Entry("warehouse_id", if hasWarehouses then RequiredValue(form, "warehouse_id", WarehouseRequired) else None)
  }

  /** All the errors, given the two parses `validate` computes up front. */
  function FormErrors(form: map<string, FormValue>, hasWarehouses: bool, stockMin: Option<int>, stockMax: Option<int>)
    : map<string, string>
    requires TextsAreStrings(form)
  {
    TextErrors(form, hasWarehouses) + Entry("stock_minimo", MinError(form, stockMin, stockMax))
    + Entry("stock_maximo", MaxError(form, stockMax))
  }

  /** The stock keys are none of the keys of the other checks, nor each other. */
  lemma StockKeysNotText(m: map<string, string>)
    requires m.Keys <= {"sku", "nombre", "category_id", "warehouse_id"}
    ensures "stock_minimo" !in m && "stock_maximo" !in m
    ensures "stock_minimo" != "stock_maximo"
  {
    assert "stock_minimo"[0] != "warehouse_id"[0] && "stock_maximo"[0] != "warehouse_id"[0];
    assert "stock_minimo"[7] != "stock_maximo"[7];
  }

  /** The two stock entries added after the other checks' map: each is present exactly
      when its check failed, and every other entry is kept. */
  lemma StockEntries(texts: map<string, string>, minError: Option<string>, maxError: Option<string>)
    requires texts.Keys <= {"sku", "nombre", "category_id", "warehouse_id"}
    ensures var errors := texts + Entry("stock_minimo", minError) + Entry("stock_maximo", maxError);
            && errors.Keys <= ProductFields
            && (forall k | k in texts :: k in errors && errors[k] == texts[k])
            && ("stock_minimo" in errors <==> minError.Some?)
            && ("stock_maximo" in errors <==> maxError.Some?)
            && ("stock_minimo" in errors ==> errors["stock_minimo"] == minError.value)
            && ("stock_maximo" in errors ==> errors["stock_maximo"] == maxError.value)
  {
    StockKeysNotText(texts);
    EntriesKeep(texts, "stock_minimo", minError, "stock_maximo", maxError);
  }

  /** Each check's message is in the map exactly when that check fails, under its own
      field, and no other key is. */
  lemma FormErrorsEntries(form: map<string, FormValue>, hasWarehouses: bool, stockMin: Option<int>, stockMax: Option<int>)
    requires TextsAreStrings(form)
    ensures var errors := FormErrors(form, hasWarehouses, stockMin, stockMax);
            && errors.Keys <= ProductFields
            && (forall k | k in TextErrors(form, hasWarehouses) :: k in errors && errors[k] == TextErrors(form, hasWarehouses)[k])
            && ("stock_minimo" in errors <==> MinError(form, stockMin, stockMax).Some?)
            && ("stock_maximo" in errors <==> MaxError(form, stockMax).Some?)
            && ("stock_minimo" in errors ==> errors["stock_minimo"] == MinError(form, stockMin, stockMax).value)
            && ("stock_maximo" in errors ==> errors["stock_maximo"] == MaxError(form, stockMax).value)
  {
    StockEntries(TextErrors(form, hasWarehouses), MinError(form, stockMin, stockMax), MaxError(form, stockMax));
  }

  /** The error map `validate` stores. */
  function ProductErrors(form: map<string, FormValue>, hasWarehouses: bool): (errors: map<string, string>)
    requires TextsAreStrings(form)
  {
    FormErrors(form, hasWarehouses, ParseField(FieldValue(form, "stock_minimo")), ParseField(FieldValue(form, "stock_maximo")))
  }

  /** The stock_minimo message of `validate`: the message that the minimum is above the
      maximum when both parses are truthy and in that order, and otherwise "requerido" for
      a falsy field, "positivo" for a negative parse and "entero" for NaN. */
  lemma MinimumMessages(form: map<string, FormValue>, hasWarehouses: bool)
    requires TextsAreStrings(form)
    ensures var errors := ProductErrors(form, hasWarehouses);
            var v := FieldValue(form, "stock_minimo");
            var stockMin := ParseField(v);
            var stockMax := ParseField(FieldValue(form, "stock_maximo"));
            var above := stockMin.Some? && stockMin.value != 0 && stockMax.Some? && stockMax.value != 0
                         && stockMin.value > stockMax.value;
            && (above ==> "stock_minimo" in errors && errors["stock_minimo"] == MinAboveMax)
            && (!above && !TruthyField(v) ==> "stock_minimo" in errors && errors["stock_minimo"] == MinRequired)
            && (!above && TruthyField(v) && stockMin.Some? && stockMin.value < 0 ==>
                  "stock_minimo" in errors && errors["stock_minimo"] == MinPositive)
            && (!above && TruthyField(v) && stockMin.None? ==>
                  "stock_minimo" in errors && errors["stock_minimo"] == MinInteger)
            && (!above && TruthyField(v) && stockMin.Some? && stockMin.value >= 0 ==> "stock_minimo" !in errors)
  {
    var stockMin := ParseField(FieldValue(form, "stock_minimo"));
    var stockMax := ParseField(FieldValue(form, "stock_maximo"));
    FormErrorsEntries(form, hasWarehouses, stockMin, stockMax);
  }

  /** The stock_maximo message of `validate`: "requerido" for a falsy field, "positivo"
      for a negative parse and "entero" for NaN; the minimum plays no part. */
  lemma MaximumMessages(form: map<string, FormValue>, hasWarehouses: bool)
    requires TextsAreStrings(form)
    ensures var errors := ProductErrors(form, hasWarehouses);
            var v := FieldValue(form, "stock_maximo");
            var stockMax := ParseField(v);
            && (!TruthyField(v) ==> "stock_maximo" in errors && errors["stock_maximo"] == MaxRequired)
            && (TruthyField(v) && stockMax.Some? && stockMax.value < 0 ==>
                  "stock_maximo" in errors && errors["stock_maximo"] == MaxPositive)
            && (TruthyField(v) && stockMax.None? ==>
                  "stock_maximo" in errors && errors["stock_maximo"] == MaxInteger)
            && (TruthyField(v) && stockMax.Some? && stockMax.value >= 0 ==> "stock_maximo" !in errors)
  {
    var stockMin := ParseField(FieldValue(form, "stock_minimo"));
    var stockMax := ParseField(FieldValue(form, "stock_maximo"));
    FormErrorsEntries(form, hasWarehouses, stockMin, stockMax);
  }

  /** The product form passes exactly when sku and nombre are not blank, a category (and,
      when there are warehouses, a warehouse) is chosen, both stock fields are given and
      parse to non-negative integers, and, unless one of them is 0, the minimum is not
      above the maximum. */
  lemma ProductAcceptedIff(form: map<string, FormValue>, hasWarehouses: bool)
    requires TextsAreStrings(form)
    ensures ProductErrors(form, hasWarehouses) == map[] <==>
              var stockMin := ParseField(FieldValue(form, "stock_minimo"));
              var stockMax := ParseField(FieldValue(form, "stock_maximo"));
              && !IsBlank(FieldValue(form, "sku").s) && !IsBlank(FieldValue(form, "nombre").s)
              && TruthyField(FieldValue(form, "category_id"))
              && (hasWarehouses ==> TruthyField(FieldValue(form, "warehouse_id")))
              && TruthyField(FieldValue(form, "stock_minimo")) && stockMin.Some? && stockMin.value >= 0
              && TruthyField(FieldValue(form, "stock_maximo")) && stockMax.Some? && stockMax.value >= 0
              && (stockMin.value != 0 && stockMax.value != 0 ==> stockMin.value <= stockMax.value)
  {
    var stockMin := ParseField(FieldValue(form, "stock_minimo"));
    var stockMax := ParseField(FieldValue(form, "stock_maximo"));
    FormErrorsEntries(form, hasWarehouses, stockMin, stockMax);
    var errors := ProductErrors(form, hasWarehouses);
    var texts := TextErrors(form, hasWarehouses);
    assert texts.Keys <= errors.Keys;
    if errors != map[] {
      var k :| k in errors;
    }
  }

  /** Editing a product whose stored minimum is 0 loads '' and fails as "requerido". */
  lemma ZeroMinimumReloadsAsMissing(p: Product, warehouses: seq<Warehouse>)
    requires p.stock_minimo == 0
    ensures ProductErrors(InitialForm(Some(p), warehouses), |warehouses| > 0)["stock_minimo"] == MinRequired
  {
    var form := InitialForm(Some(p), warehouses);
    assert FieldValue(form, "stock_minimo") == Text("");
    var stockMin := ParseField(FieldValue(form, "stock_minimo"));
    var stockMax := ParseField(FieldValue(form, "stock_maximo"));
    assert stockMin == None by {
      ParseIntOfBlank("");
    }
    assert !MinExceedsMax(stockMin, stockMax);
    FormErrorsEntries(form, |warehouses| > 0, stockMin, stockMax);
  }

  /** A typed maximum of "0" switches the cross check off: minimum "10" with maximum "0"
      passes both stock checks. */
  lemma ZeroMaximumSkipsOrder()
    ensures ProductErrors(map["sku" := Text("A-1"), "nombre" := Text("Caja"), "category_id" := Text("1"),
                              "stock_minimo" := Text("10"), "stock_maximo" := Text("0")], false) == map[]
  {
    var form := map["sku" := Text("A-1"), "nombre" := Text("Caja"), "category_id" := Text("1"),
                     "stock_minimo" := Text("10"), "stock_maximo" := Text("0")];
    assert FieldValue(form, "stock_minimo") == Text("10");
    assert FieldValue(form, "stock_maximo") == Text("0");
    assert FieldValue(form, "sku").s == "A-1" && FieldValue(form, "nombre").s == "Caja";
    assert !IsBlank("A-1") by { assert !IsWhitespace("A-1"[0]); }
    assert !IsBlank("Caja") by { assert !IsWhitespace("Caja"[0]); }
    assert TruthyField(FieldValue(form, "category_id"));
    ParseTen();
    ParseZero();
    ProductAcceptedIff(form, false);
  }

  lemma ParseTen()
    ensures ParseField(Text("10")) == Some(10)
  {
    assert NatToString(10) == "10" by {
      assert NatToString(1) == "1";
    }
    ParseIntOfIntToString(10);
  }

  lemma ParseZero()
    ensures ParseField(Text("0")) == Some(0)
  {
    assert NatToString(0) == "0";
    ParseIntOfIntToString(0);
  }

  /** The submitted object: the fields with both stock values parsed, and no warehouse_id
      when there are no warehouses. */
  function Payload(form: map<string, FormValue>, hasWarehouses: bool, stockMin: int, stockMax: int): (payload: map<string, FormValue>)
    ensures payload.Keys == (form.Keys + {"stock_minimo", "stock_maximo"}) - (if hasWarehouses then {} else {"warehouse_id"})
    ensures payload["stock_minimo"] == Number(stockMin) && payload["stock_maximo"] == Number(stockMax)
    ensures forall k | k in form && k !in {"stock_minimo", "stock_maximo", "warehouse_id"} :: payload[k] == form[k]
    ensures hasWarehouses && "warehouse_id" in form ==> payload["warehouse_id"] == form["warehouse_id"]
  {
    var data := form["stock_minimo" := Number(stockMin)]["stock_maximo" := Number(stockMax)];
    if hasWarehouses then data else data - {"warehouse_id"}
  }

  lemma ValidStockParses(form: map<string, FormValue>, hasWarehouses: bool)
    requires TextsAreStrings(form) && ProductErrors(form, hasWarehouses) == map[]
    ensures ParseField(FieldValue(form, "stock_minimo")).Some?
    ensures ParseField(FieldValue(form, "stock_maximo")).Some?
  {
    ProductAcceptedIff(form, hasWarehouses);
  }

  /** A complete stored product with positive, ordered stock levels loads into a form
      that passes unchanged, and its payload carries the stored levels. */
  lemma EditRoundTrip(p: Product, warehouses: seq<Warehouse>)
    requires !IsBlank(p.sku) && !IsBlank(p.nombre) && p.category_id != 0
    requires |warehouses| > 0 ==> p.warehouse_id.Some? && p.warehouse_id.value != 0
    requires 0 < p.stock_minimo <= p.stock_maximo
    ensures var form := InitialForm(Some(p), warehouses);
            && ProductErrors(form, |warehouses| > 0) == map[]
            && ParseField(form["stock_minimo"]) == Some(p.stock_minimo)
            && ParseField(form["stock_maximo"]) == Some(p.stock_maximo)
  {
    var form := InitialForm(Some(p), warehouses);
    assert FieldValue(form, "stock_minimo") == Number(p.stock_minimo);
    assert FieldValue(form, "stock_maximo") == Number(p.stock_maximo);
    assert FieldValue(form, "sku") == Text(p.sku) && FieldValue(form, "nombre") == Text(p.nombre);
    assert FieldValue(form, "category_id") == Number(p.category_id);
    assert FieldValue(form, "warehouse_id") == WarehouseOrEmpty(p.warehouse_id);
    ProductAcceptedIff(form, |warehouses| > 0);
  }

  /** The checks of the two stock fields, as `validate` runs them on `newErrors`. */
  method CheckStock(v: FormValue, n: Option<int>, key: string, required: string, positive: string, integer: string,
                    errors: map<string, string>)
    returns (newErrors: map<string, string>)
    requires key !in errors
    ensures newErrors == errors + Entry(key, StockError(v, n, required, positive, integer))
  {
    newErrors := errors;
    if !TruthyField(v) {
      AddEntry(newErrors, key, required);
      newErrors := newErrors[key := required];
    } else if NumLess(n, 0) {
      AddEntry(newErrors, key, positive);
      newErrors := newErrors[key := positive];
    } else if n.None? {
      AddEntry(newErrors, key, integer);
      newErrors := newErrors[key := integer];
    } else {
      assert newErrors == newErrors + Entry(key, None);
    }
  }

  /** The sku, nombre, category and warehouse checks of `validate`. */
  method CheckTexts(form: map<string, FormValue>, hasWarehouses: bool) returns (newErrors: map<string, string>)
    requires TextsAreStrings(form)
    ensures newErrors == TextErrors(form, hasWarehouses)
  {
    newErrors := map[];
    if IsBlank(FieldValue(form, "sku").s) {
      newErrors := newErrors["sku" := SkuRequired];
    }
    assert newErrors == Entry("sku", RequiredText(form, "sku", SkuRequired));
    ghost var a := newErrors;
    if IsBlank(FieldValue(form, "nombre").s) {
      AddEntry(newErrors, "nombre", NameRequired);
      newErrors := newErrors["nombre" := NameRequired];
    }
    assert newErrors == a + Entry("nombre", RequiredText(form, "nombre", NameRequired));
    ghost var b := newErrors;
    if !TruthyField(FieldValue(form, "category_id")) {
      AddEntry(newErrors, "category_id", CategoryRequired);
      newErrors := newErrors["category_id" := CategoryRequired];
    }
    assert newErrors == b + Entry("category_id", RequiredValue(form, "category_id", CategoryRequired));
    ghost var c := newErrors;
    if hasWarehouses && !TruthyField(FieldValue(form, "warehouse_id")) {
      AddEntry(newErrors, "warehouse_id", WarehouseRequired);
      newErrors := newErrors["warehouse_id" := WarehouseRequired];
    }
    assert newErrors == c + Entry("warehouse_id",
                                 if hasWarehouses then RequiredValue(form, "warehouse_id", WarehouseRequired) else None);
  }

  /** The body of `validate` up to `setErrors`: the field checks in order, then the cross
      check, which overwrites the stock_minimo message. */
  method CheckForm(form: map<string, FormValue>, hasWarehouses: bool) returns (newErrors: map<string, string>)
    requires TextsAreStrings(form)
    ensures newErrors == ProductErrors(form, hasWarehouses)
  {
    newErrors := CheckTexts(form, hasWarehouses);
    var stockMin := ParseField(FieldValue(form, "stock_minimo"));
    var stockMax := ParseField(FieldValue(form, "stock_maximo"));
    ghost var texts := newErrors;
    StockKeysNotText(texts);
    newErrors := CheckStock(FieldValue(form, "stock_minimo"), stockMin, "stock_minimo",
                            MinRequired, MinPositive, MinInteger, newErrors);
    ghost var base := StockError(FieldValue(form, "stock_minimo"), stockMin, MinRequired, MinPositive, MinInteger);
    newErrors := CheckStock(FieldValue(form, "stock_maximo"), stockMax, "stock_maximo",
                            MaxRequired, MaxPositive, MaxInteger, newErrors);
    if TruthyNumber(stockMin) && TruthyNumber(stockMax) && stockMin.value > stockMax.value {
      OverwriteMiddle(texts, "stock_minimo", base, MinAboveMax, Entry("stock_maximo", MaxError(form, stockMax)));
      newErrors := newErrors["stock_minimo" := MinAboveMax];
    }
    assert newErrors == FormErrors(form, hasWarehouses, stockMin, stockMax);
  }

  class ProductModal {
    var formData: map<string, FormValue>
    var errors: map<string, string>

    predicate Valid()
      reads this
    {
      TextsAreStrings(formData)
    }

    constructor()
      ensures Valid()
      ensures formData == InitialForm(None, []) && errors == map[]
    {
      formData := InitialForm(None, []);
      errors := map[];
    }

    /** The init effect, run when the product, the warehouses or `isOpen` change. */
    method Init(product: Option<Product>, warehouses: seq<Warehouse>)
      modifies this
      ensures Valid()
      ensures formData == InitialForm(product, warehouses) && errors == map[]
    {
      if product.Some? {
        var p := product.value;
        formData := map["sku" := Text(p.sku), "nombre" := Text(p.nombre),
                        "category_id" := OrEmpty(p.category_id),
                        "warehouse_id" := WarehouseOrEmpty(p.warehouse_id),
                        "stock_minimo" := OrEmpty(p.stock_minimo),
                        "stock_maximo" := OrEmpty(p.stock_maximo)];
      } else {
        var defaultWarehouse := if |warehouses| > 0 then Number(warehouses[0].id) else Text("");
        formData := map["sku" := Text(""), "nombre" := Text(""), "category_id" := Text(""),
                        "warehouse_id" := defaultWarehouse,
                        "stock_minimo" := Text(""), "stock_maximo" := Text("")];
      }
      errors := map[];
    }

    /** `handleChange`: the named field takes the typed string; its error is cleared. */
    method HandleChange(name: string, value: string)
      requires Valid()
      modifies this
      ensures Valid()
      ensures formData == old(formData)[name := Text(value)]
      ensures errors == ClearFieldError(old(errors), name)
    {
      formData := formData[name := Text(value)];
      if HasError(errors, name) {
        errors := errors[name := ""];
      }
    }

    /** `validate`: the field checks in order, then the cross check, which overwrites the
        stock_minimo message; the map is stored and the form passes iff it is empty. */
    method Validate(warehouses: seq<Warehouse>) returns (ok: bool)
      requires Valid()
      modifies this
      ensures unchanged(this`formData)
      ensures Valid()
      ensures errors == ProductErrors(formData, |warehouses| > 0)
      ensures ok <==> errors == map[]
    {
      var form := formData;
      var newErrors := CheckForm(form, |warehouses| > 0);
      NoKeysIsEmpty(newErrors);
      ok := |newErrors.Keys| == 0;
      errors := newErrors;
    }

    /** `handleSubmit`: a form that passes is sent with parsed stock levels, and without
        warehouse_id when no warehouse exists. */
    method HandleSubmit(warehouses: seq<Warehouse>) returns (payload: Option<map<string, FormValue>>)
      requires Valid()
      modifies this
      ensures Valid()
      ensures errors == ProductErrors(formData, |warehouses| > 0)
      ensures payload.Some? <==> errors == map[]
      ensures payload.Some? ==>
                && ParseField(FieldValue(formData, "stock_minimo")).Some?
                && ParseField(FieldValue(formData, "stock_maximo")).Some?
                && payload.value == Payload(formData, |warehouses| > 0,
                                            ParseField(FieldValue(formData, "stock_minimo")).value,
                                            ParseField(FieldValue(formData, "stock_maximo")).value)
      ensures unchanged(this`formData)
    {
      var ok := Validate(warehouses);
      if ok {
        ValidStockParses(formData, |warehouses| > 0);
        var stockMin := ParseField(FieldValue(formData, "stock_minimo")).value;
        var stockMax := ParseField(FieldValue(formData, "stock_maximo")).value;
        var dataToSubmit := formData["stock_minimo" := Number(stockMin)]["stock_maximo" := Number(stockMax)];
        if |warehouses| == 0 {
          dataToSubmit := dataToSubmit - {"warehouse_id"};
        }
        payload := Some(dataToSubmit);
      } else {
        payload := None;
      }
    }
  }
}
