/** The user form (src/components/modals/UserModal.jsx): the init effect, the field
    update, the three checks of `validate` and the password omission on submit. */
module UserModal {
  import opened Wrappers
  import opened Js
  import opened Entities
  import opened Formatters
  import opened Forms

  const EmailRequired := "El correo es requerido"
  const EmailInvalid := "El correo no es válido"
  const PasswordRequired := "La contraseña es requerida"
  const PasswordShort := "La contraseña debe tener al menos 6 caracteres"
  const MinPasswordLength := 6

  /** The fields of the form. */
  const UserFields: set<string> := {"nombre", "correo", "contrasenia", "rol"}

  /** The form of a new user, and of a closed one. */
  const EmptyForm: map<string, string> :=
    map["nombre" := "", "correo" := "", "contrasenia" := "", "rol" := Colaborador]

  /** The form the init effect sets: the user's name, email and role (a missing role
      reads as colaborador) and never the password; a new user gets the empty form. */
  function InitialForm(user: Option<User>): (form: map<string, string>)
    ensures form.Keys == UserFields
    ensures form["contrasenia"] == ""
    ensures user.None? ==> form == EmptyForm
    ensures user.Some? ==> form["nombre"] == user.value.nombre && form["correo"] == user.value.correo
    ensures user.Some? ==> form["rol"] == (if user.value.rol != "" then user.value.rol else Colaborador)
    ensures form["rol"] != ""
  {
    match user
    case Some(u) =>
      map["nombre" := u.nombre, "correo" := u.correo, "contrasenia" := "",
          "rol" := if u.rol != "" then u.rol else Colaborador]
    case None => EmptyForm
  }

  /** A match of /\S+@\S+\.\S+/ on `s[i..j]`, with its '@' at `a` and its '.' at `d`. */
  predicate RegexMatchAt(s: string, i: int, a: int, d: int, j: int) {
    && 0 <= i < a && a + 1 < d && d + 1 < j <= |s|
    && s[a] == '@' && s[d] == '.'
    && NoWhitespace(s[i..a]) && NoWhitespace(s[a + 1..d]) && NoWhitespace(s[d + 1..j])
  }

  /** `/\S+@\S+\.\S+/.test(s)`: the pattern is not anchored, so any substring may match. */
  predicate LooseEmail(s: string) {
    exists i, a, d, j | 0 <= i < a < d < j <= |s| :: RegexMatchAt(s, i, a, d, j)
  }

  /** The smallest match around an '@' at `a` and a '.' at `d`: one visible character
      before the '@', visible characters up to the '.', and one visible character after. */
  predicate ShortestMatchAt(s: string, a: int, d: int) {
    && 0 < a && a + 1 < d && d + 1 < |s|
    && s[a] == '@' && s[d] == '.'
    && !IsWhitespace(s[a - 1]) && NoWhitespace(s[a + 1..d]) && !IsWhitespace(s[d + 1])
  }

  /** The regex matches exactly when some '@' has a visible character before it and is
      followed by a run of visible characters, a '.', and a visible character. */
  lemma LooseEmailIff(s: string)
    ensures LooseEmail(s) <==> exists a, d | 0 < a < d < |s| :: ShortestMatchAt(s, a, d)
  {
    if LooseEmail(s) {
      var i, a, d, j :| 0 <= i < a < d < j <= |s| && RegexMatchAt(s, i, a, d, j);
      assert s[a - 1] == s[i..a][a - 1 - i];
      assert s[d + 1] == s[d + 1..j][0];
      assert ShortestMatchAt(s, a, d);
    }
    if exists a, d | 0 < a < d < |s| :: ShortestMatchAt(s, a, d) {
      var a, d :| 0 < a < d < |s| && ShortestMatchAt(s, a, d);
      assert s[a - 1..a] == [s[a - 1]];
      assert s[d + 1..d + 2] == [s[d + 1]];
      assert RegexMatchAt(s, a - 1, a, d, d + 2);
    }
  }

  /** Every address `isValidEmail` accepts passes this form's looser test. */
  lemma ValidEmailIsLoose(s: string)
    requires IsValidEmail(s)
    ensures LooseEmail(s)
  {
    var p, q :| 0 < p < q < |s| && IsAtom(s[..p]) && s[p] == '@'
                && IsAtom(s[p + 1..q]) && s[q] == '.' && IsAtom(s[q + 1..]);
    assert s[0..p] == s[..p];
    assert s[q + 1..|s|] == s[q + 1..];
    assert RegexMatchAt(s, 0, p, q, |s|);
  }

  /** The looser test lets through an address `isValidEmail` refuses: "a b@c.d" matches
      on "b@c.d". */
  lemma LooseAcceptsSpace()
    ensures LooseEmail("a b@c.d") && !IsValidEmail("a b@c.d")
  {
    var s := "a b@c.d";
    assert s[2..3] == "b" && s[4..5] == "c" && s[6..7] == "d";
    assert RegexMatchAt(s, 2, 3, 5, 7);
    IsValidEmailIff(s);
    assert IsWhitespace(s[1]);
  }

  /** The correo error: blank is required, otherwise the regex must match. */
  function EmailError(form: map<string, string>): Option<string> {
    var correo := Field(form, "correo");
    if IsBlank(correo) then Some(EmailRequired)
    else if !LooseEmail(correo) then Some(EmailInvalid)
    else None
  }

  /** The contrasenia error: a new user needs a password that is not blank; any
      non-empty password, even a blank one when editing, needs six characters. */
  function PasswordError(form: map<string, string>, editing: bool): Option<string> {
    var password := Field(form, "contrasenia");
    if !editing && IsBlank(password) then Some(PasswordRequired)
    else if password != "" && |password| < MinPasswordLength then Some(PasswordShort)
    else None
  }

  /** The error map `validate` stores. */
  function UserErrors(form: map<string, string>, editing: bool): (errors: map<string, string>)
    ensures errors.Keys <= {"nombre", "correo", "contrasenia"}
    ensures "nombre" in errors <==> NameError(form).Some?
    ensures "nombre" in errors ==> errors["nombre"] == NameRequired
    ensures "correo" in errors <==> EmailError(form).Some?
    ensures "correo" in errors ==> errors["correo"] == EmailError(form).value
    ensures "contrasenia" in errors <==> PasswordError(form, editing).Some?
    ensures "contrasenia" in errors ==> errors["contrasenia"] == PasswordError(form, editing).value
  {
    assert "nombre"[0] != "correo"[0];
    Entry("nombre", NameError(form)) + Entry("correo", EmailError(form))
    + Entry("contrasenia", PasswordError(form, editing))
  }

  /** The form passes exactly when nombre and correo are not blank, correo matches the
      regex, a new user has a password that is not blank, and a password, if any, has at
      least six characters. */
  lemma UserAcceptedIff(form: map<string, string>, editing: bool)
    ensures UserErrors(form, editing) == map[] <==>
              var password := Field(form, "contrasenia");
              && !IsBlank(Field(form, "nombre"))
              && !IsBlank(Field(form, "correo")) && LooseEmail(Field(form, "correo"))
              && (!editing ==> !IsBlank(password))
              && (password == "" || |password| >= MinPasswordLength)
  {
    var errors := UserErrors(form, editing);
    if errors != map[] {
      var k :| k in errors;
    }
  }

  /** Editing with the password left empty passes the password check. */
  lemma EditWithoutPassword(form: map<string, string>)
    requires Field(form, "contrasenia") == ""
    ensures "contrasenia" !in UserErrors(form, true)
  {
  }

  /** Editing with a password of three spaces is refused as too short, although the
      submit would have dropped it as blank. */
  lemma BlankEditPasswordIsShort(form: map<string, string>)
    requires Field(form, "contrasenia") == "   "
    ensures UserErrors(form, true)["contrasenia"] == PasswordShort
  {
  }

  /** The submitted object: the fields, without contrasenia when editing with a blank
      password. */
  function Payload(form: map<string, string>, editing: bool): (payload: map<string, string>)
    ensures editing && IsBlank(Field(form, "contrasenia")) ==> payload == form - {"contrasenia"}
    ensures !(editing && IsBlank(Field(form, "contrasenia"))) ==> payload == form
  {
    if editing && IsBlank(Field(form, "contrasenia")) then form - {"contrasenia"} else form
  }

  /** A password that reaches the server is never blank and has at least six characters;
      a new user always sends one. */
  lemma SubmittedPassword(form: map<string, string>, editing: bool)
    requires "contrasenia" in form
    requires UserErrors(form, editing) == map[]
    ensures !editing ==> "contrasenia" in Payload(form, editing)
    ensures "contrasenia" in Payload(form, editing) ==>
              var password := Payload(form, editing)["contrasenia"];
              !IsBlank(password) && |password| >= MinPasswordLength
  {
    UserAcceptedIff(form, editing);
  }

  /** The checks of `validate` in order, on a `newErrors` that starts empty. */
  method CheckUser(form: map<string, string>, editing: bool) returns (newErrors: map<string, string>)
    ensures newErrors == UserErrors(form, editing)
  {
    newErrors := map[];
    if IsBlank(Field(form, "nombre")) {
      newErrors := newErrors["nombre" := NameRequired];
    }
    assert newErrors == Entry("nombre", NameError(form));
    ghost var a := newErrors;
    assert "correo" !in a by {
      assert "nombre"[0] != "correo"[0];
    }
    var correo := Field(form, "correo");
    if IsBlank(correo) {
      AddEntry(newErrors, "correo", EmailRequired);
      newErrors := newErrors["correo" := EmailRequired];
    } else if !LooseEmail(correo) {
      AddEntry(newErrors, "correo", EmailInvalid);
      newErrors := newErrors["correo" := EmailInvalid];
    }
    assert newErrors == a + Entry("correo", EmailError(form));
    ghost var b := newErrors;
    var password := Field(form, "contrasenia");
    if !editing && IsBlank(password) {
      AddEntry(newErrors, "contrasenia", PasswordRequired);
      newErrors := newErrors["contrasenia" := PasswordRequired];
    } else if password != "" && |password| < MinPasswordLength {
      AddEntry(newErrors, "contrasenia", PasswordShort);
      newErrors := newErrors["contrasenia" := PasswordShort];
    }
    assert newErrors == b + Entry("contrasenia", PasswordError(form, editing));
  }

  class UserModal {
    var formData: map<string, string>
    var errors: map<string, string>

    constructor()
      ensures formData == EmptyForm && errors == map[]
    {
      formData := EmptyForm;
      errors := map[];
    }

    /** The init effect, run when the user or `isOpen` changes. */
    method Init(user: Option<User>)
      modifies this
      ensures formData == InitialForm(user) && errors == map[]
    {
      if user.Some? {
        var u := user.value;
        formData := map["nombre" := u.nombre, "correo" := u.correo, "contrasenia" := "",
                        "rol" := if u.rol != "" then u.rol else Colaborador];
      } else {
        formData := map["nombre" := "", "correo" := "", "contrasenia" := "", "rol" := Colaborador];
      }
      errors := map[];
    }

    /** `handleChange`: the named field takes the value; its error is cleared. */
    method HandleChange(name: string, value: string)
      modifies this
      ensures formData == old(formData)[name := value]
      ensures errors == ClearFieldError(old(errors), name)
    {
      formData := formData[name := value];
      if HasError(errors, name) {
        errors := errors[name := ""];
      }
    }

    /** `validate`: `user` is the edited user, None for a new one. */
    method Validate(user: Option<User>) returns (ok: bool)
      modifies this
      ensures unchanged(this`formData)
      ensures errors == UserErrors(formData, user.Some?)
      ensures ok <==> errors == map[]
    {
      var newErrors := CheckUser(formData, user.Some?);
      NoKeysIsEmpty(newErrors);
      ok := |newErrors.Keys| == 0;
      errors := newErrors;
    }

    /** `handleSubmit`: a form that passes is sent, without contrasenia when editing with
        a blank password. */
    method HandleSubmit(user: Option<User>) returns (payload: Option<map<string, string>>)
      modifies this
      ensures unchanged(this`formData)
      ensures errors == UserErrors(formData, user.Some?)
      ensures payload.Some? <==> errors == map[]
      ensures payload.Some? ==> payload.value == Payload(formData, user.Some?)
    {
      var ok := Validate(user);
      if ok {
        var dataToSubmit := formData;
        if user.Some? && IsBlank(Field(dataToSubmit, "contrasenia")) {
          dataToSubmit := dataToSubmit - {"contrasenia"};
        }
        payload := Some(dataToSubmit);
      } else {
        payload := None;
      }
    }
  }
}
