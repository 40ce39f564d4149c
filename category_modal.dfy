/** The category form (src/components/modals/CategoryModal.jsx): one field, nombre,
    required after trimming and sent as typed. */
module CategoryModal {
  import opened Wrappers
  import opened Js
  import opened Entities
  import opened Forms

  const EmptyForm: map<string, string> := map["nombre" := ""]

  /** The form the init effect sets: the category's name, or an empty one. */
  function InitialForm(category: Option<Category>): (form: map<string, string>)
    ensures form.Keys == {"nombre"}
    ensures form["nombre"] == (if category.Some? then category.value.nombre else "")
  {
    if category.Some? then map["nombre" := category.value.nombre] else EmptyForm
  }

  /** The error map `validate` stores: at most the nombre entry. */
  function CategoryErrors(form: map<string, string>): (errors: map<string, string>)
    ensures errors.Keys <= {"nombre"}
    ensures errors == map[] <==> !IsBlank(Field(form, "nombre"))
    ensures "nombre" in errors ==> errors["nombre"] == NameRequired
  {
    var errors := Entry("nombre", NameError(form));
    assert errors == map[] <==> "nombre" !in errors;
    errors
  }

  class CategoryModal {
    var formData: map<string, string>
    var errors: map<string, string>

    constructor()
      ensures formData == EmptyForm && errors == map[]
    {
      formData := EmptyForm;
      errors := map[];
    }

    /** The init effect, run when the category or `isOpen` changes. */
    method Init(category: Option<Category>)
      modifies this
      ensures formData == InitialForm(category) && errors == map[]
    {
      if category.Some? {
        formData := map["nombre" := category.value.nombre];
      } else {
        formData := map["nombre" := ""];
      }
      errors := map[];
    }

    /** `handleChange`: the named field takes the value; its error is cleared. */
    method HandleChange(name: string, value: string)
      modifies this
      ensures formData == old(formData)[name := value]
      ensures errors == ClearFieldError(old(errors), name)
    {
      formData := formData[name := value];
      if HasError(errors, name) {
        errors := errors[name := ""];
      }
    }

    /** `validate`: the form passes iff nombre is not blank. */
    method Validate() returns (ok: bool)
      modifies this
      ensures unchanged(this`formData)
      ensures errors == CategoryErrors(formData)
      ensures ok <==> !IsBlank(Field(formData, "nombre"))
    {
      var newErrors: map<string, string> := map[];
      if IsBlank(Field(formData, "nombre")) {
        newErrors := newErrors["nombre" := NameRequired];
      }
      assert newErrors == Entry("nombre", NameError(formData));
      NoKeysIsEmpty(newErrors);
      ok := |newErrors.Keys| == 0;
      errors := newErrors;
    }

    /** `handleSubmit`: the form is sent as it is, and only when it passes. */
    method HandleSubmit() returns (payload: Option<map<string, string>>)
      modifies this
      ensures unchanged(this`formData)
      ensures errors == CategoryErrors(formData)
      ensures payload.Some? <==> !IsBlank(Field(formData, "nombre"))
      ensures payload.Some? ==> payload.value == formData
    {
      var ok := Validate();
      payload := if ok then Some(formData) else None;
    }
  }
}
