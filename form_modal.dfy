/** The ad form (client/src/App.tsx, AdFormModal and openForm): its working
    record and per-field errors, the edits and the submission that change
    them, and the control each field descriptor renders as. */
module FormModal {
  import opened Js
  import opened Types
  import opened Validation
  import opened AdList

  /** INITIAL_FORM_DATA: every text attribute and the price empty, no id and
      no click count. */
  const InitialFormData: Record :=
    map[Title := Str(""), Publisher := Str(""), Content := Str(""), LandingUrl := Str(""), Price := Str("")]

  /** `{ ...ad }`: the ad as a form record; an absent id or count is not an
      attribute of the copy. */
  function AdRecord(ad: Ad): (rec: Record)
    ensures Get(rec, Title) == Str(ad.title) && Get(rec, Publisher) == Str(ad.publisher)
    ensures Get(rec, Content) == Str(ad.content) && Get(rec, LandingUrl) == Str(ad.landingUrl)
    ensures Get(rec, Price) == (match ad.price case Number(n) => Num(n) case Text(s) => Str(s))
    ensures Get(rec, Id) == (match ad.id case Some(i) => Num(i as real) case None => Undefined)
    ensures Get(rec, Clicked) == (match ad.clicked case Some(c) => Num(c as real) case None => Undefined)
  {
    var base := map[Title := Str(ad.title), Publisher := Str(ad.publisher), Content := Str(ad.content),
                     LandingUrl := Str(ad.landingUrl),
                     Price := match ad.price case Number(n) => Num(n) case Text(s) => Str(s)];
    var withId := match ad.id case Some(i) => base[Id := Num(i as real)] case None => base;
    match ad.clicked case Some(c) => withId[Clicked := Num(c as real)] case None => withId
  }

  /** openForm: a create starts from the empty record, an edit or a copy of a
      given ad from a copy of that ad; otherwise the current record stays. */
  function OpenForm(mode: FormMode, ad: Option<Ad>, current: Record): Record
  {
    if mode == Create then InitialFormData
    else if ad.Some? then AdRecord(ad.value)
    else current
  }

  /** The errors map after an edit of `name`: its message is dropped when it
      is a truthy (non-empty) string, and every other entry is kept. */
  function ClearedError(errors: map<Key, string>, name: Key): (r: map<Key, string>)
    ensures name in errors && errors[name] != "" ==> name !in r
    ensures name in r ==> name in errors && r[name] == errors[name] == ""
    ensures forall k :: k != name ==> (k in r <==> k in errors)
    ensures forall k :: k != name && k in r ==> r[k] == errors[k]
  {
    if name in errors && errors[name] != "" then errors - {name} else errors
  }

  /** handleSubmit's `formDataToSave`: a string price is replaced by
      parseFloat of it (NaN when it does not parse); every other attribute is
      copied. */
  function PriceConverted(rt: Runtime, data: Record): (r: Record)
    ensures !Get(r, Price).Str?
    ensures Get(data, Price).Str? ==> Get(r, Price) == ParseFloat(rt, Get(data, Price))
    ensures !Get(data, Price).Str? ==> Get(r, Price) == Get(data, Price)
    ensures forall k :: k != Price ==> Get(r, k) == Get(data, k)
  {
    var price := Get(data, Price);
    data[Price := if price.Str? then ParseFloat(rt, price) else price]
  }

  /** Opening an ad that has an id for editing, submitting and saving sends an
      update of that very id. */
  lemma EditSendsUpdateOfThatId(rt: Runtime, ad: Ad, current: Record)
    requires HasId(ad.id)
    ensures var q := SaveRequestFor(Edit, PriceConverted(rt, OpenForm(Edit, Some(ad), current)));
      q.UpdateRequest? && q.id == Num(ad.id.value as real)
  {
  }

  /** The state of one open form: the working record and the messages shown
      under the fields. */
  class AdFormModal {
    var formData: Record
    var errors: map<Key, string>

    constructor (initialData: Record)
      ensures formData == initialData && errors == map[]
    {
      formData := initialData;
      errors := map[];
    }

    /** handleChange: the input writes its text into its attribute, and the
        attribute's message, if one is shown, is cleared. */
    method HandleChange(name: Key, value: string)
      modifies this
      ensures formData == old(formData)[name := Str(value)]
      ensures errors == ClearedError(old(errors), name)
    {
      formData := formData[name := Str(value)];
      if name in errors && errors[name] != "" {
        var newErrors := errors;
        newErrors := newErrors - {name};
        errors := newErrors;
      }
    }

    /** validateForm: the errors of the configuration replace the shown ones,
        and the form is valid exactly when no field failed a check. */
    method ValidateForm(rt: Runtime, config: FormConfig) returns (valid: bool)
      modifies this
      ensures formData == old(formData)
      ensures errors == Errors(rt, config.fields, formData)
      ensures valid <==> errors == map[]
      ensures valid <==> forall i :: 0 <= i < |config.fields| ==>
        FieldMessage(rt, config.fields[i], formData).None?
    {
      var newErrors := ComputeErrors(rt, config, formData);
      errors := newErrors;
      valid := |newErrors| == 0;
      ValidIffNoCheckFails(rt, config.fields, formData);
    }

    /** handleSubmit: an invalid form is not saved; a valid one is handed to
        onSave with its price converted. */
    method HandleSubmit(rt: Runtime, config: FormConfig) returns (toSave: Option<Record>)
      modifies this
      ensures formData == old(formData)
      ensures errors == Errors(rt, config.fields, formData)
      ensures toSave.Some? <==> errors == map[]
      ensures toSave.Some? ==> toSave.value == PriceConverted(rt, formData)
    {
      var valid := ValidateForm(rt, config);
      if !valid {
        return None;
      }
      toSave := Some(PriceConverted(rt, formData));
    }
  }

  /** How a field renders: a four-row text area, or a single input of the
      field's type with its presentation hints and, when truthy, its suffix. */
  datatype Control =
    | TextArea(rows: nat)
    | Input(inputType: string, min: Option<real>, step: Option<Value>, pattern: Option<string>, suffix: Option<string>)

  datatype FieldView = FieldView(
    name: Key,
    requiredMark: bool,
    caption: string,
    placeholder: string,
    value: Value,
    maxLength: Option<int>,
    control: Control,
    errorText: Option<string>)

  /** renderFormField */
  function RenderFormField(f: FormField, formData: Record, errors: map<Key, string>): (view: FieldView)
    ensures view.control.TextArea? <==> f.fieldType == "textarea"
    ensures view.control.TextArea? ==> view.control.rows == 4
    ensures view.control.Input? ==> view.control.inputType == f.fieldType
    ensures view.control.Input? ==>
      (view.control.suffix.Some? <==> f.suffix.Some? && f.suffix.value != "")
    ensures view.control.Input? && view.control.suffix.Some? ==> view.control.suffix == f.suffix
    ensures view.requiredMark == f.required && view.caption == f.labelText
    ensures view.placeholder != ""
    ensures f.placeholder.Some? && f.placeholder.value != "" ==> view.placeholder == f.placeholder.value
    ensures Truthy(Get(formData, f.name)) ==> view.value == Get(formData, f.name)
    ensures !Truthy(Get(formData, f.name)) ==> view.value == Str("")
    ensures view.errorText.Some? <==> f.name in errors && errors[f.name] != ""
    ensures view.errorText.Some? ==> view.errorText.value == errors[f.name]
  {
    var v := Get(formData, f.name);
    var placeholder := if f.placeholder.Some? && f.placeholder.value != "" then f.placeholder.value
                       else "请输入" + f.labelText;
    var control := if f.fieldType == "textarea" then TextArea(4)
                   else Input(f.fieldType, f.min, f.step, f.pattern,
                              if f.suffix.Some? && f.suffix.value != "" then f.suffix else None);
    var errorText := if f.name in errors && errors[f.name] != "" then Some(errors[f.name]) else None;
    FieldView(f.name, f.required, f.labelText, placeholder, if Truthy(v) then v else Str(""),
              f.maxLength, control, errorText)
  }
}
