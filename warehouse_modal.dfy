/** The warehouse form (src/components/modals/WarehouseModal.jsx): nombre is required
    after trimming, ubicacion is free, and the form is sent as typed. */
module WarehouseModal {
  import opened Wrappers
  import opened Js
  import opened Entities
  import opened Forms

  const EmptyForm: map<string, string> := map["nombre" := "", "ubicacion" := ""]

  /** The form the init effect sets: the warehouse's name and location, or empty ones. */
  function InitialForm(warehouse: Option<Warehouse>): (form: map<string, string>)
    ensures form.Keys == {"nombre", "ubicacion"}
    ensures form["nombre"] == (if warehouse.Some? then warehouse.value.nombre else "")
    ensures form["ubicacion"] == (if warehouse.Some? then warehouse.value.ubicacion else "")
  {
    if warehouse.Some? then map["nombre" := warehouse.value.nombre, "ubicacion" := warehouse.value.ubicacion]
    else EmptyForm
  }

  /** The error map `validate` stores: at most the nombre entry. */
  function WarehouseErrors(form: map<string, string>): (errors: map<string, string>)
    ensures errors.Keys <= {"nombre"}
    ensures errors == map[] <==> !IsBlank(Field(form, "nombre"))
    ensures "nombre" in errors ==> errors["nombre"] == NameRequired
  {
    var errors := Entry("nombre", NameError(form));
    assert errors == map[] <==> "nombre" !in errors;
    errors
  }

  /** ubicacion is never checked: whatever it holds, the errors are the same. */
  lemma LocationIsFree(form: map<string, string>, location: string)
    ensures WarehouseErrors(form["ubicacion" := location]) == WarehouseErrors(form)
  {
    assert Field(form["ubicacion" := location], "nombre") == Field(form, "nombre");
  }

  class WarehouseModal {
    var formData: map<string, string>
    var errors: map<string, string>

    constructor()
      ensures formData == EmptyForm && errors == map[]
    {
      formData := EmptyForm;
      errors := map[];
    }

    /** The init effect, run when the warehouse or `isOpen` changes. */
    method Init(warehouse: Option<Warehouse>)
      modifies this
      ensures formData == InitialForm(warehouse) && errors == map[]
    {
      if warehouse.Some? {
        formData := map["nombre" := warehouse.value.nombre, "ubicacion" := warehouse.value.ubicacion];
      } else {
        formData := map["nombre" := "", "ubicacion" := ""];
      }
      errors := map[];
    }

    /** `handleChange`: the named field takes the value; its error is cleared. */
    method HandleChange(name: string, value: string)
      modifies this
      ensures formData == old(formData)[name := value]
      ensures errors == ClearFieldError(old(errors), name)
    {
      formData := formData[name := value];
      if HasError(errors, name) {
        errors := errors[name := ""];
      }
    }

    /** `validate`: the form passes iff nombre is not blank. */
    method Validate() returns (ok: bool)
      modifies this
      ensures unchanged(this`formData)
      ensures errors == WarehouseErrors(formData)
      ensures ok <==> !IsBlank(Field(formData, "nombre"))
    {
      var newErrors: map<string, string> := map[];
      if IsBlank(Field(formData, "nombre")) {
        newErrors := newErrors["nombre" := NameRequired];
      }
      assert newErrors == Entry("nombre", NameError(formData));
      NoKeysIsEmpty(newErrors);
      ok := |newErrors.Keys| == 0;
      errors := newErrors;
    }

    /** `handleSubmit`: the form is sent as it is, and only when it passes. */
    method HandleSubmit() returns (payload: Option<map<string, string>>)
      modifies this
      ensures unchanged(this`formData)
      ensures errors == WarehouseErrors(formData)
      ensures payload.Some? <==> !IsBlank(Field(formData, "nombre"))
      ensures payload.Some? ==> payload.value == formData
    {
      var ok := Validate();
      payload := if ok then Some(formData) else None;
    }
  }
}
