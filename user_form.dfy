/** The create/edit dialog (src/components/UserForm.js): the seeded form
    values, the field rules, the Save-disabled test, how a request's result
    is normalised, and the component's handlers. Requests are abstracted to
    their outcome, which each handler takes as an input. */
module UserForm {
  import opened Api

  /** UserRole.STUDENT, the role a form starts with when none is given. The
      file defining UserRole (src/constants) is not part of this model, so
      the value stands for whatever that constant holds. */
  const StudentRole := "STUDENT"

  /** The fallback text of a failed request. */
  const GenericError := "Something went wrong"

  const MaxLength := 255

  /** The four text fields the Save button and the schema look at. */
  const RequiredFields: set<string> := {"username", "full_name", "email", "password"}

  /** The keys of the form's values. */
  const FormKeys: set<string> := {"id", "username", "full_name", "email", "password", "role", "submit"}

  /** JavaScript's `x || d` on a string that may be absent: an absent or
      empty string gives d. */
  function OrDefault(x: Option<string>, d: string): (r: string)
    ensures r == d || (x.Some? && r == x.value && r != "")
    ensures x.Some? && x.value != "" ==> r == x.value
  {
    if x.Some? && x.value != "" then x.value else d
  }

  // ---------------------------------------------------------------------
  // Seeding

  /** `initialValues`: every text field from the user (or '' when the user,
      or the field, is missing), the role or STUDENT, and `submit: null`. */
  function InitialValues(user: Option<User>): (v: JsObject)
    ensures v.Keys == FormKeys
    ensures v["submit"] == Null
    ensures forall k :: k in v && k != "submit" ==> v[k].Str?
    ensures v["role"].Str? && v["role"].s != ""
    ensures user.Some? ==> v["username"] == Str(user.value.username)
  {
    match user
    case None =>
      map["id" := Str(""), "username" := Str(""), "full_name" := Str(""),
          "email" := Str(""), "password" := Str(""), "role" := Str(StudentRole),
          "submit" := Null]
    case Some(u) =>
      map["id" := Str(u.id), "username" := Str(u.username),
          "full_name" := Str(OrDefault(u.full_name, "")),
          "email" := Str(OrDefault(u.email, "")),
          "password" := Str(OrDefault(u.password, "")),
          "role" := Str(OrDefault(u.role, StudentRole)),
          "submit" := Null]
  }

  /** A create form starts with every text field empty and the STUDENT role. */
  lemma CreateFormSeed()
    ensures var v := InitialValues(None);
      && (forall k :: k in RequiredFields ==> v[k] == Str(""))
      && v["role"] == Str(StudentRole)
  {
  }

  /** An edit form shows the user's own values, wherever the user has them;
      a missing field shows as '', a missing role as STUDENT. */
  lemma EditFormSeed(u: User)
    ensures var v := InitialValues(Some(u));
      && v["id"] == Str(u.id) && v["username"] == Str(u.username)
      && (u.full_name.Some? ==> v["full_name"] == Str(u.full_name.value))
      && (u.email.Some? ==> v["email"] == Str(u.email.value))
      && (u.password.Some? ==> v["password"] == Str(u.password.value))
      && (u.full_name.None? ==> v["full_name"] == Str(""))
      && (u.email.None? ==> v["email"] == Str(""))
      && (u.password.None? ==> v["password"] == Str(""))
      && v["role"] == Str(if u.role.Some? && u.role.value != "" then u.role.value else StudentRole)
  {
  }

  // ---------------------------------------------------------------------
  // Field rules and the Save button

  /** JavaScript's `!values[k]`: the key is missing, null or ''. */
  predicate Falsy(v: JsObject, k: string) {
    k !in v || v[k] == Null || v[k] == Str("")
  }

  /** The schema's rule for a text field: a string, present, at most 255
      characters long. */
  predicate ValidText(v: JsObject, k: string) {
    k in v && v[k].Str? && 1 <= |v[k].s| <= MaxLength
  }

  /** The whole schema. Email syntax is the validation library's own test,
      passed in as `emailOk`. */
  predicate Validates(v: JsObject, emailOk: string -> bool) {
    ValidText(v, "username") && ValidText(v, "full_name") &&
    ValidText(v, "email") && emailOk(v["email"].s) &&
    ValidText(v, "password")
  }

  /** The `disabled` expression of the Save button. */
  function SaveDisabled(isSubmitting: bool, v: JsObject): (r: bool)
    ensures r <==> isSubmitting || exists k :: k in RequiredFields && Falsy(v, k)
  {
    assert Falsy(v, "username") ==> "username" in RequiredFields;
    isSubmitting || Falsy(v, "username") || Falsy(v, "full_name") ||
    Falsy(v, "email") || Falsy(v, "password")
  }

  /** Values the schema accepts always leave Save enabled when nothing is in
      flight. */
  lemma ValidEnablesSave(v: JsObject, emailOk: string -> bool)
    requires Validates(v, emailOk)
    ensures !SaveDisabled(false, v)
  {
    forall k | k in RequiredFields
      ensures !Falsy(v, k)
    {
      assert ValidText(v, k);
    }
  }

  /** Save is pressable only when every required field holds a non-empty
      string. */
  lemma EnabledSaveHasText(isSubmitting: bool, v: JsObject, k: string)
    requires !SaveDisabled(isSubmitting, v) && k in RequiredFields
    ensures !isSubmitting && k in v && v[k].Str? && v[k].s != ""
  {
  }

  /** The button does not check lengths: a 256-character username leaves
      Save enabled though the schema refuses it. */
  lemma SaveEnabledOnOverlongName(emailOk: string -> bool)
    ensures var name := seq(256, _ => 'a');
      var v := InitialValues(None)["username" := Str(name)]["full_name" := Str("a")]
                 ["email" := Str("a")]["password" := Str("a")];
      !SaveDisabled(false, v) && !Validates(v, emailOk)
  {
    var name := seq(256, _ => 'a');
    assert |name| == 256;
  }

  /** A fresh create form cannot be saved. */
  lemma CreateFormSaveDisabled()
    ensures SaveDisabled(false, InitialValues(None))
  {
    assert Falsy(InitialValues(None), "username");
  }

  // ---------------------------------------------------------------------
  // Requests and their results

  /** What createUser/updateUser return: the client's response when the
      request resolved, otherwise the backend's error object when the thrown
      error carries one, otherwise a default 500 record. */
  datatype Response = Response(status: Option<int>, message: Option<string>)

  function Normalize(o: Outcome): Response {
    match o
    case Responded(status) => Response(Some(status), None)
    case Threw(None) => Response(Some(500), Some(GenericError))
    case Threw(Some(e)) => Response(e.status, e.message)
  }

  predicate IsSuccess(r: Response) {
    r.status == Some(200)
  }

  /** `response.message || 'Something went wrong'`: the text shown under
      the form when a submission fails. */
  function SubmitErrorText(r: Response): (t: string)
    ensures t != ""
    ensures r.message.Some? && r.message.value != "" ==> t == r.message.value
    ensures !(r.message.Some? && r.message.value != "") ==> t == GenericError
  {
    OrDefault(r.message, GenericError)
  }

  /** A submission counts as successful exactly when the request answered
      200, or when it threw with a backend error object whose own status is
      200. */
  lemma SuccessOutcomes(o: Outcome)
    ensures IsSuccess(Normalize(o)) <==>
      o == Responded(200) || (o.Threw? && o.error.Some? && o.error.value.status == Some(200))
  {
  }

  /** A thrown error without a backend error object fails with the generic
      text; a backend error object's own non-empty message is shown as is. */
  lemma FailureText(o: Outcome)
    requires o.Threw?
    ensures o.error.None? ==>
      !IsSuccess(Normalize(o)) && SubmitErrorText(Normalize(o)) == GenericError
    ensures o.error.Some? && o.error.value.message.Some? && o.error.value.message.value != "" ==>
      SubmitErrorText(Normalize(o)) == o.error.value.message.value
  {
  }

  /** A resolved request that did not answer 200 fails with the generic
      text, since the client's response carries no message. */
  lemma RespondedNot200Text(status: int)
    requires status != 200
    ensures !IsSuccess(Normalize(Responded(status)))
    ensures SubmitErrorText(Normalize(Responded(status))) == GenericError
  {
  }

  /** The body of the role-change request: the role alone. */
  function RoleBody(role: string): (body: JsObject)
    ensures body.Keys == {"role"} && body["role"] == Str(role)
  {
    map["role" := Str(role)]
  }

  /** The request onSubmit makes: the values without `submit`, PUT at the
      user's id when there is a user, POST otherwise. */
  function SubmitRequest(user: Option<User>, values: JsObject): (r: Request)
    ensures r.PutUser? <==> user.Some?
    ensures r.PostUser? <==> user.None?
    ensures r.PutUser? ==> r.id == user.value.id
    ensures (r.PutUser? || r.PostUser?) && "submit" !in r.body
    ensures r.body.Keys == values.Keys - {"submit"}
    ensures forall k :: k in r.body ==> r.body[k] == values[k]
  {
    var body := values - {"submit"};
    match user
    case Some(u) => PutUser(u.id, body)
    case None => PostUser(body)
  }

  /** Saving an unchanged edit form sends back the seeded record, minus
      `submit`, at the user's id. */
  lemma UnchangedEditResubmits(u: User)
    ensures var r := SubmitRequest(Some(u), InitialValues(Some(u)));
      && r == PutUser(u.id, r.body)
      && r.body.Keys == FormKeys - {"submit"}
      && r.body["username"] == Str(u.username)
  {
    var v := InitialValues(Some(u));
    assert v["username"] == Str(u.username);
  }

  // ---------------------------------------------------------------------
  // The component

  /** What the form shows its owner: a call of one of the two callbacks it
      was given, or a request to the backend. */
  datatype FormEffect =
    | OnLoading(loading: bool)
    | Send(request: Request)
    | OnClose(result: bool)

  /** onLoading(true), the request, onLoading(false). */
  function RequestEffects(r: Request): seq<FormEffect> {
    [OnLoading(true), Send(r), OnLoading(false)]
  }

  class Form {
    /** The `user` prop: the user being edited, or none for a create form. */
    const user: Option<User>
    /** Set once a PUT has resolved; never cleared. */
    var updated: bool
    /** Formik's values, status.success, errors.submit and isSubmitting. */
    var values: JsObject
    var success: Option<bool>
    var submitError: Option<string>
    var submitting: bool
    ghost var effects: seq<FormEffect>

    /** The username field is disabled on an edit form, so its value stays the
        seeded one. */
    ghost predicate Valid()
      reads this
    {
      user.Some? ==> "username" in values && values["username"] == Str(user.value.username)
    }

    constructor (user: Option<User>)
      ensures Valid()
      ensures this.user == user && !updated && values == InitialValues(user)
      ensures success.None? && submitError.None? && !submitting && effects == []
    {
      this.user := user;
      updated := false;
      values := InitialValues(user);
      success, submitError, submitting := None, None, false;
      effects := [];
    }

    /** A change event on one of the four text fields; the username field
        is disabled when editing. The role select goes through OnRoleChange. */
    method HandleChange(key: string, text: string)
      requires Valid()
      requires key in RequiredFields
      requires !(user.Some? && key == "username")
      modifies this
      ensures Valid()
      ensures values == old(values)[key := Str(text)]
      ensures updated == old(updated) && effects == old(effects)
      ensures success == old(success) && submitError == old(submitError)
      ensures submitting == old(submitting)
    {
      values := values[key := Str(text)];
    }

    /** createUser(values). */
    method CreateUser(body: JsObject, o: Outcome) returns (response: Response)
      modifies this
      ensures response == Normalize(o)
      ensures effects == old(effects) + RequestEffects(PostUser(body))
      ensures updated == old(updated) && values == old(values)
      ensures success == old(success) && submitError == old(submitError)
      ensures submitting == old(submitting)
    {
      effects := effects + [OnLoading(true)];
      effects := effects + [Send(PostUser(body))];
      match o {
        case Responded(status) =>
          response := Response(Some(status), None);
        case Threw(err) =>
          response := Response(Some(500), Some(GenericError));
          if err.Some? {
            response := Response(err.value.status, err.value.message);
          }
      }
      effects := effects + [OnLoading(false)];
    }

    /** updateUser(values); `updated` is set when the PUT resolves. */
    method UpdateUser(body: JsObject, o: Outcome) returns (response: Response)
      requires user.Some?
      modifies this
      ensures response == Normalize(o)
      ensures effects == old(effects) + RequestEffects(PutUser(user.value.id, body))
      ensures updated == (old(updated) || o.Responded?)
      ensures values == old(values)
      ensures success == old(success) && submitError == old(submitError)
      ensures submitting == old(submitting)
    {
      effects := effects + [OnLoading(true)];
      effects := effects + [Send(PutUser(user.value.id, body))];
      match o {
        case Responded(status) =>
          response := Response(Some(status), None);
          updated := true;
        case Threw(err) =>
          response := Response(Some(500), Some(GenericError));
          if err.Some? {
            response := Response(err.value.status, err.value.message);
          }
      }
      effects := effects + [OnLoading(false)];
    }

    /** The role select's onChange: handleChange, then handleChangeRole,
        which sends `{role}` alone, and only for an existing user. */
    method OnRoleChange(role: string, o: Outcome)
      requires Valid()
      modifies this
      ensures Valid()
      ensures values == old(values)["role" := Str(role)]
      ensures user.Some? ==>
        effects == old(effects) + RequestEffects(PutUser(user.value.id, RoleBody(role)))
      ensures user.None? ==> effects == old(effects)
      ensures updated == (old(updated) || (user.Some? && o.Responded?))
      ensures success == old(success) && submitError == old(submitError)
      ensures submitting == old(submitting)
    {
      values := values["role" := Str(role)];
      if user.Some? {
        var _ := UpdateUser(RoleBody(role), o);
      }
    }

    /** The onSubmit handler: drop `submit` from the values, update or
        create, then on status 200 reset the form, mark success and ask the
        owner to close and refresh; otherwise mark failure and show the
        error text, leaving the dialog open. */
    method OnSubmit(o: Outcome)
      requires Valid()
      modifies this
      ensures Valid()
      ensures var r := Normalize(o);
        && effects == old(effects) + RequestEffects(SubmitRequest(user, old(values)))
                        + (if IsSuccess(r) then [OnClose(true)] else [])
        && !submitting
        && success == Some(IsSuccess(r))
        && (IsSuccess(r) ==> values == InitialValues(user) && submitError.None?)
        && (!IsSuccess(r) ==> values == old(values) - {"submit"}
                               && submitError == Some(SubmitErrorText(r)))
      ensures updated == (old(updated) || (user.Some? && o.Responded?))
    {
      var response := SendValues(o);
      FinishSubmit(response);
    }

    /** The first half of onSubmit: `delete values.submit`, then
        updateUser(values) when there is a user, createUser(values)
        otherwise. */
    method SendValues(o: Outcome) returns (response: Response)
      requires Valid()
      modifies this
      ensures Valid()
      ensures response == Normalize(o)
      ensures values == old(values) - {"submit"}
      ensures effects == old(effects) + RequestEffects(SubmitRequest(user, old(values)))
      ensures updated == (old(updated) || (user.Some? && o.Responded?))
      ensures success == old(success) && submitError == old(submitError)
      ensures submitting == old(submitting)
    {
      values := values - {"submit"};
      if user.Some? {
        response := UpdateUser(values, o);
      } else {
        response := CreateUser(values, o);
      }
    }

    /** The second half of onSubmit: clear the in-flight flag, then the
        success or the failure branch on the response's status. */
    method FinishSubmit(response: Response)
      requires Valid()
      modifies this
      ensures Valid()
      ensures effects == old(effects) + (if IsSuccess(response) then [OnClose(true)] else [])
      ensures !submitting && success == Some(IsSuccess(response))
      ensures IsSuccess(response) ==> values == InitialValues(user) && submitError.None?
      ensures !IsSuccess(response) ==>
        values == old(values) && submitError == Some(SubmitErrorText(response))
      ensures updated == old(updated)
    {
      submitting := false;
      if response.status == Some(200) {
        values, submitError, submitting := InitialValues(user), None, false;
        success := Some(true);
        effects := effects + [OnClose(true)];
      } else {
        success := Some(false);
        submitError := Some(OrDefault(response.message, GenericError));
      }
    }

    /** The close icon: reports whether anything was persisted by a PUT. */
    method Close() returns (result: bool)
      modifies this
      ensures result == updated && updated == old(updated)
      ensures effects == old(effects) + [OnClose(result)]
      ensures values == old(values) && success == old(success)
      ensures submitError == old(submitError) && submitting == old(submitting)
    {
      result := updated;
      effects := effects + [OnClose(result)];
    }

    /** The Save button's state right now. */
    function SaveEnabled(): (r: bool)
      reads this
      ensures r ==> !submitting && forall k :: k in RequiredFields ==> !Falsy(values, k)
    {
      !SaveDisabled(submitting, values)
    }
  }
}
