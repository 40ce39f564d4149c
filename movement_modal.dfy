/** The stock movement form (src/components/modals/MovementModal.jsx): its state, the
    product lookup on change, the validation rules and the submitted payload. */
module MovementModal {
  import opened Wrappers
  import opened Js
  import opened Entities
  import opened Forms

  const SelectProduct := "Selecciona un producto"
  const QuantityRequired := "La cantidad es requerida"
  const QuantityPositive := "La cantidad debe ser mayor a 0"
  const QuantityInteger := "La cantidad debe ser un número entero"
  const InsufficientPrefix := "Stock insuficiente. Disponible: "

  /** The message of a salida above the stock, naming the stock. */
  function InsufficientStock(stock: int): (msg: string)
    ensures |msg| > |InsufficientPrefix| && msg[..|InsufficientPrefix|] == InsufficientPrefix
    ensures ParseInt(msg[|InsufficientPrefix|..]) == Some(stock)
  {
    var msg := InsufficientPrefix + IntToString(stock);
    assert msg[|InsufficientPrefix|..] == IntToString(stock);
    ParseIntOfIntToString(stock);
    msg
  }

  /** The state of a closed form, and of a new one. */
  const EmptyForm: map<string, string> :=
    map["tipo_movimiento" := "entrada", "product_id" := "", "cantidad" := "", "nota" := ""]

  /** `products.find(p => p.id === id)`; NaN equals no id. */
  function FindProductById(products: seq<Product>, id: Option<int>): (r: Option<Product>)
    ensures r.Some? ==> id == Some(r.value.id)
    ensures r.Some? ==> exists i | 0 <= i < |products| ::
              products[i] == r.value && forall j | 0 <= j < i :: products[j].id != r.value.id
    ensures r.None? <==> id.None? || forall i | 0 <= i < |products| :: products[i].id != id.value
  {
    if products == [] || id.None? then None
    else if products[0].id == id.value then Some(products[0])
    else
      var r := FindProductById(products[1..], id);
      if r.Some? then
        var i :| 1 <= i + 1 < |products| && products[1..][i] == r.value
                 && forall j | 0 <= j < i :: products[1..][j].id != r.value.id;
        assert products[i + 1] == r.value;
        assert forall j | 0 <= j < i + 1 :: products[j].id != r.value.id by {
          forall j | 0 <= j < i + 1 ensures products[j].id != r.value.id {
            if j > 0 {
              assert products[j] == products[1..][j - 1];
            }
          }
        }
        r
      else
        assert forall i | 0 <= i < |products| :: products[i].id != id.value by {
          forall i | 0 <= i < |products| ensures products[i].id != id.value {
            if i > 0 {
              assert products[i] == products[1..][i - 1];
            }
          }
        }
        r
  }

  /** The product_id error: a product must be chosen. */
  function ProductIdError(form: map<string, string>): Option<string> {
    if Field(form, "product_id") == "" then Some(SelectProduct) else None
  }

  /** The three checks of cantidad on its own: an empty field is required, a parsed
      value of at most 0 is too small, and NaN is not an integer. */
  function BaseQuantityError(form: map<string, string>): Option<string> {
    var text := Field(form, "cantidad");
    var n := ParseInt(text);
    if text == "" then Some(QuantityRequired)
    else if n.Some? && n.value <= 0 then Some(QuantityPositive)
    else if n.None? then Some(QuantityInteger)
    else None
  }

  /** The stock check applies to a salida of a selected product whose quantity parses
      above the stock. */
  predicate ExceedsStock(form: map<string, string>, selected: Option<Product>) {
    Field(form, "tipo_movimiento") == "salida" && selected.Some?
    && NumGreater(ParseInt(Field(form, "cantidad")), selected.value.stock)
  }

  /** The cantidad error: the stock message wins over the other checks. */
  function QuantityError(form: map<string, string>, selected: Option<Product>): Option<string> {
    if ExceedsStock(form, selected) then Some(InsufficientStock(selected.value.stock))
    else BaseQuantityError(form)
  }

  /** The error map `validate` stores: one entry per failing field, and only those. */
  function MovementErrors(form: map<string, string>, selected: Option<Product>): (errors: map<string, string>)
    ensures errors.Keys <= {"product_id", "cantidad"}
    ensures "product_id" in errors <==> Field(form, "product_id") == ""
    ensures "product_id" in errors ==> errors["product_id"] == SelectProduct
    ensures "cantidad" in errors <==> QuantityError(form, selected).Some?
    ensures "cantidad" in errors ==> errors["cantidad"] == QuantityError(form, selected).value
  {
    Entry("product_id", ProductIdError(form)) + Entry("cantidad", QuantityError(form, selected))
  }

  /** The form passes exactly when a product is chosen, the quantity parses to a positive
      integer, and a salida of a selected product does not exceed its stock. */
  lemma MovementAcceptedIff(form: map<string, string>, selected: Option<Product>)
    ensures MovementErrors(form, selected) == map[] <==>
              && Field(form, "product_id") != ""
              && ParseInt(Field(form, "cantidad")).Some?
              && ParseInt(Field(form, "cantidad")).value > 0
              && (Field(form, "tipo_movimiento") == "salida" && selected.Some? ==>
                    ParseInt(Field(form, "cantidad")).value <= selected.value.stock)
  {
    var errors := MovementErrors(form, selected);
    if errors != map[] {
      assert "product_id" in errors || "cantidad" in errors;
    }
    if Field(form, "cantidad") == "" {
      ParseIntOfBlank("");
    }
  }

  /** The cantidad message of `validate`: the stock message, naming the stock, for a salida
      of a selected product that parses above it; otherwise "requerida" for an empty field,
      "mayor a 0" for a parse of at most 0 and "entero" for NaN. */
  lemma QuantityMessages(form: map<string, string>, selected: Option<Product>)
    ensures var errors := MovementErrors(form, selected);
            var text := Field(form, "cantidad");
            var n := ParseInt(text);
            var over := Field(form, "tipo_movimiento") == "salida" && selected.Some?
                        && n.Some? && n.value > selected.value.stock;
            && (over ==> "cantidad" in errors && errors["cantidad"] == InsufficientStock(selected.value.stock))
            && (!over && text == "" ==> "cantidad" in errors && errors["cantidad"] == QuantityRequired)
            && (!over && text != "" && n.Some? && n.value <= 0 ==>
                  "cantidad" in errors && errors["cantidad"] == QuantityPositive)
            && (!over && text != "" && n.None? ==> "cantidad" in errors && errors["cantidad"] == QuantityInteger)
            && (!over && text != "" && n.Some? && n.value > 0 ==> "cantidad" !in errors)
  {
    var q := QuantityError(form, selected);
    assert q == if ExceedsStock(form, selected) then Some(InsufficientStock(selected.value.stock))
                else BaseQuantityError(form);
  }

  /** "2.5" passes as a quantity: `parseInt` reads 2. */
  lemma DecimalQuantityAccepted(selected: Option<Product>)
    ensures MovementErrors(map["tipo_movimiento" := "entrada", "product_id" := "1",
                               "cantidad" := "2.5", "nota" := ""], selected) == map[]
  {
    var form := map["tipo_movimiento" := "entrada", "product_id" := "1", "cantidad" := "2.5", "nota" := ""];
    assert Field(form, "cantidad") == "2.5";
    assert Field(form, "tipo_movimiento") == "entrada";
    assert Field(form, "product_id") == "1";
    DecimalQuantityPasses(form, selected);
    var errors := MovementErrors(form, selected);
    assert errors.Keys == {};
  }

  lemma DecimalQuantityPasses(form: map<string, string>, selected: Option<Product>)
    requires Field(form, "cantidad") == "2.5" && Field(form, "tipo_movimiento") == "entrada"
    ensures QuantityError(form, selected) == None
  {
    ParseIntOfDecimal();
  }

  /** Letters give NaN and the integer message. */
  lemma LettersRejected(selected: Option<Product>)
    ensures MovementErrors(map["tipo_movimiento" := "entrada", "product_id" := "1",
                               "cantidad" := "abc", "nota" := ""], selected)
            == map["cantidad" := QuantityInteger]
  {
    var form := map["tipo_movimiento" := "entrada", "product_id" := "1", "cantidad" := "abc", "nota" := ""];
    assert Field(form, "cantidad") == "abc";
    assert Field(form, "tipo_movimiento") == "entrada";
    assert Field(form, "product_id") == "1";
    LettersQuantityRejected(form, selected);
  }

  lemma LettersQuantityRejected(form: map<string, string>, selected: Option<Product>)
    requires Field(form, "cantidad") == "abc" && Field(form, "tipo_movimiento") == "entrada"
    requires Field(form, "product_id") != ""
    ensures MovementErrors(form, selected) == map["cantidad" := QuantityInteger]
  {
    ParseIntOfLetters();
    assert QuantityError(form, selected) == Some(QuantityInteger);
  }

  /** The selected product only matters for a salida: an entrada never gets the stock
      message. */
  lemma EntradaIgnoresStock(form: map<string, string>, selected: Option<Product>)
    requires Field(form, "tipo_movimiento") != "salida"
    ensures MovementErrors(form, selected) == MovementErrors(form, None)
  {
  }

  /** The cantidad part of `validate`, on the `newErrors` built so far: the three checks,
      then the stock check of a salida, which overwrites the quantity message. */
  method CheckQuantity(form: map<string, string>, selected: Option<Product>, errors: map<string, string>)
    returns (newErrors: map<string, string>)
    requires "cantidad" !in errors
    ensures newErrors == errors + Entry("cantidad", QuantityError(form, selected))
  {
    newErrors := errors;
    var text := Field(form, "cantidad");
    var cantidad := ParseInt(text);
    if text == "" {
      AddEntry(newErrors, "cantidad", QuantityRequired);
      newErrors := newErrors["cantidad" := QuantityRequired];
    } else if cantidad.Some? && cantidad.value <= 0 {
      AddEntry(newErrors, "cantidad", QuantityPositive);
      newErrors := newErrors["cantidad" := QuantityPositive];
    } else if cantidad.None? {
      AddEntry(newErrors, "cantidad", QuantityInteger);
      newErrors := newErrors["cantidad" := QuantityInteger];
    } else {
      assert newErrors == newErrors + Entry("cantidad", None);
    }
    assert newErrors == errors + Entry("cantidad", BaseQuantityError(form));
    if Field(form, "tipo_movimiento") == "salida" && selected.Some? {
      if NumGreater(cantidad, selected.value.stock) {
        var msg := InsufficientStock(selected.value.stock);
        OverwriteLast(errors, "cantidad", BaseQuantityError(form), msg);
        newErrors := newErrors["cantidad" := msg];
      }
    }
  }

  class MovementModal {
    var formData: map<string, string>
    var errors: map<string, string>
    var selectedProduct: Option<Product>

    constructor()
      ensures formData == EmptyForm && errors == map[] && selectedProduct == None
    {
      formData := EmptyForm;
      errors := map[];
      selectedProduct := None;
    }

    /** The effect on `isOpen`: closing resets the form, the errors and the selection. */
    method OnOpenChange(isOpen: bool)
      modifies this
      ensures !isOpen ==> formData == EmptyForm && errors == map[] && selectedProduct == None
      ensures isOpen ==> formData == old(formData) && errors == old(errors)
                         && selectedProduct == old(selectedProduct)
    {
      if !isOpen {
        formData := EmptyForm;
        errors := map[];
        selectedProduct := None;
      }
    }

    /** `handleChange`: the named field takes the value and its error is cleared; a new
        product_id selects the first product with that id, or none. */
    method HandleChange(name: string, value: string, products: seq<Product>)
      modifies this
      ensures formData == old(formData)[name := value]
      ensures name == "product_id" ==> selectedProduct == FindProductById(products, ParseInt(value))
      ensures name != "product_id" ==> selectedProduct == old(selectedProduct)
      ensures errors == ClearFieldError(old(errors), name)
    {
      formData := formData[name := value];
      if name == "product_id" {
        selectedProduct := FindProductById(products, ParseInt(value));
      }
      if HasError(errors, name) {
        errors := errors[name := ""];
      }
    }

    /** `validate`: `newErrors` is filled check by check and stored; the form passes iff
        it is empty. */
    method Validate() returns (ok: bool)
      modifies this
      ensures errors == MovementErrors(formData, selectedProduct)
      ensures ok <==> errors == map[]
      ensures formData == old(formData) && selectedProduct == old(selectedProduct)
    {
      var form, selected := formData, selectedProduct;
      var newErrors: map<string, string> := map[];
      if Field(form, "product_id") == "" {
        newErrors := newErrors["product_id" := SelectProduct];
      }
      assert newErrors == Entry("product_id", ProductIdError(form));
      newErrors := CheckQuantity(form, selected, newErrors);
      errors := newErrors;
      NoKeysIsEmpty(newErrors);
      ok := |newErrors.Keys| == 0;
    }

    /** `handleSubmit`: only a form that passes is submitted, as its fields with cantidad
        replaced by the parsed integer. */
    method HandleSubmit() returns (payload: Option<map<string, Value>>)
      modifies this
      ensures errors == MovementErrors(formData, selectedProduct)
      ensures payload.Some? <==> errors == map[]
      ensures payload.Some? ==>
                && ParseInt(Field(formData, "cantidad")).Some?
                && payload.value.Keys == formData.Keys + {"cantidad"}
                && payload.value["cantidad"] == Num(ParseInt(Field(formData, "cantidad")).value)
                && forall k | k in formData && k != "cantidad" :: payload.value[k] == Str(formData[k])
      ensures formData == old(formData) && selectedProduct == old(selectedProduct)
    {
      var ok := Validate();
      if ok {
        MovementAcceptedIff(formData, selectedProduct);
        var n := ParseInt(Field(formData, "cantidad")).value;
        var fields := map k | k in formData :: Str(formData[k]);
        payload := Some(fields["cantidad" := Num(n)]);
      } else {
        payload := None;
      }
    }
  }
}
