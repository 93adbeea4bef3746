/**
 * TravelPlannerApp/src/hooks/useForm.ts: a form's `values`, `errors` and
 * `touched` maps, updated one event at a time. The optional `validate`
 * function maps the values to error messages by field name. An error
 * counts as present when its message is non-empty (a JavaScript truthy
 * string). `HandleSubmit` returns the values it hands to the callback, or
 * `None` when the callback is not called.
 */
module UseForm {
  import opened Wrappers

  class Form<V> {
    var values: map<string, V>
    var errors: map<string, string>
    var touched: map<string, bool>
    const initialValues: map<string, V>
    const validate: Option<map<string, V> -> map<string, string>>

    /** `useForm(initialValues, validate)`: the initial values, no errors, nothing touched. */
    constructor (initial: map<string, V>, validator: Option<map<string, V> -> map<string, string>>)
      ensures initialValues == initial && validate == validator
      ensures values == initial && errors == map[] && touched == map[]
    {
      initialValues := initial;
      validate := validator;
      values := initial;
      errors := map[];
      touched := map[];
    }

    /** `handleChange`: sets the field's value and clears its error when one is showing. */
    method HandleChange(name: string, value: V)
      modifies this
      ensures values == old(values)[name := value]
      ensures name in old(errors) && old(errors)[name] != "" ==> errors == old(errors) - {name}
      ensures !(name in old(errors) && old(errors)[name] != "") ==> errors == old(errors)
      ensures forall f :: f != name ==> (f in errors <==> f in old(errors))
      ensures forall f :: f != name && f in errors ==> errors[f] == old(errors)[f]
      ensures touched == old(touched)
    {
      values := values[name := value];
      if name in errors && errors[name] != "" {
        errors := errors - {name};
      }
    }

    /** `handleBlur`: marks the field touched and shows its error, if the validator reports one. */
    method HandleBlur(name: string)
      modifies this
      ensures touched == old(touched)[name := true]
      ensures validate.None? ==> errors == old(errors)
      ensures validate.Some? ==>
        var found := validate.value(old(values));
        && (name in found && found[name] != "" ==> errors == old(errors)[name := found[name]])
        && (!(name in found && found[name] != "") ==> errors == old(errors))
      ensures forall f :: f != name ==> (f in errors <==> f in old(errors))
      ensures forall f :: f != name && f in errors ==> errors[f] == old(errors)[f]
      ensures values == old(values)
    {
      touched := touched[name := true];
      if validate.Some? {
        var validationErrors := validate.value(values);
        if name in validationErrors && validationErrors[name] != "" {
          errors := errors[name := validationErrors[name]];
        }
      }
    }

    /**
     * `handleSubmit`: with a validator, the errors become its result and the
     * callback receives the values only when that result has no keys at
     * all; without one, the callback always receives them.
     */
    method HandleSubmit() returns (submitted: Option<map<string, V>>)
      modifies this
      ensures validate.Some? ==> errors == validate.value(old(values))
      ensures validate.None? ==> errors == old(errors)
      ensures submitted.Some? <==> validate.None? || validate.value(old(values)) == map[]
      ensures submitted.Some? ==> submitted.value == old(values)
      ensures submitted.Some? ==> validate.None? || errors == map[]
      ensures values == old(values) && touched == old(touched)
    {
      if validate.Some? {
        var validationErrors := validate.value(values);
        errors := validationErrors;
        if |validationErrors.Keys| == 0 {
          return Some(values);
        }
        return None;
      }
      return Some(values);
    }

    /** `resetForm`: the initial values back, no errors, nothing touched. */
    method ResetForm()
      modifies this
      ensures values == initialValues && errors == map[] && touched == map[]
    {
      values := initialValues;
      errors := map[];
      touched := map[];
    }
  }
}
