/** Schema-driven form validation (client/src/App.tsx, validateForm). Each
    field runs three checks in source order: required, pattern, maxLength. A
    failing check assigns its message to the field's name, overwriting any
    message an earlier check, or an earlier field of the same name, put there. */
module Validation {
  import opened Js
  import opened Types

  function RequiredMessage(caption: string): string { caption + "不能为空" }
  function PatternMessage(caption: string): string { "请输入有效的" + caption }
  function MaxLengthMessage(caption: string, maxLength: int): string
  {
    caption + "不能超过" + IntText(maxLength) + "个字符"
  }

  /** `field.required && !value` */
  predicate RequiredFails(f: FormField, v: Value)
  {
    f.required && !Truthy(v)
  }

  /** `field.pattern && value && !new RegExp(field.pattern).test(String(value))` */
  predicate PatternFails(rt: Runtime, f: FormField, v: Value)
  {
    f.pattern.Some? && f.pattern.value != "" && Truthy(v) && !rt.matches(f.pattern.value, ToText(rt, v))
  }

  /** `String(value || '')`: the text whose length the maxLength check measures. */
  function MeasuredText(rt: Runtime, v: Value): string
  {
    if Truthy(v) then ToText(rt, v) else ""
  }

  /** `field.maxLength && String(value || '').length > field.maxLength`, the
      length in UTF-16 code units. */
  predicate MaxLengthFails(rt: Runtime, f: FormField, v: Value)
  {
    f.maxLength.Some? && f.maxLength.value != 0 && JsLength(MeasuredText(rt, v)) > f.maxLength.value
  }

  /** One iteration of the forEach: the three checks of `f`, each failing one
      writing its message under `f.name`. */
  function Check(rt: Runtime, errors: map<Key, string>, f: FormField, data: Record): map<Key, string>
  {
    var v := Get(data, f.name);
    var afterRequired := if RequiredFails(f, v) then errors[f.name := RequiredMessage(f.labelText)] else errors;
    var afterPattern := if PatternFails(rt, f, v) then afterRequired[f.name := PatternMessage(f.labelText)] else afterRequired;
    if MaxLengthFails(rt, f, v) then afterPattern[f.name := MaxLengthMessage(f.labelText, f.maxLength.value)]
    else afterPattern
  }

  /** The errors map after the checks of `fields`, in order: each field that
      fails a check writes its message under its name. */
  function Errors(rt: Runtime, fields: seq<FormField>, data: Record): map<Key, string>
    decreases |fields|
  {
    if fields == [] then map[]
    else
      var before := Errors(rt, fields[..|fields| - 1], data);
      var f := fields[|fields| - 1];
      match FieldMessage(rt, f, data)
      case Some(m) => before[f.name := m]
      case None => before
  }

  /** The message a single field ends up with: the last of its failing checks
      wins, so maxLength beats pattern and pattern beats required. */
  function FieldMessage(rt: Runtime, f: FormField, data: Record): (m: Option<string>)
    ensures m.Some? <==> var v := Get(data, f.name);
      RequiredFails(f, v) || PatternFails(rt, f, v) || MaxLengthFails(rt, f, v)
    ensures MaxLengthFails(rt, f, Get(data, f.name)) ==>
      m == Some(MaxLengthMessage(f.labelText, f.maxLength.value))
    ensures !MaxLengthFails(rt, f, Get(data, f.name)) && PatternFails(rt, f, Get(data, f.name)) ==>
      m == Some(PatternMessage(f.labelText))
    ensures (!MaxLengthFails(rt, f, Get(data, f.name)) && !PatternFails(rt, f, Get(data, f.name))
             && RequiredFails(f, Get(data, f.name))) ==> m == Some(RequiredMessage(f.labelText))
  {
    var v := Get(data, f.name);
    if MaxLengthFails(rt, f, v) then Some(MaxLengthMessage(f.labelText, f.maxLength.value))
    else if PatternFails(rt, f, v) then Some(PatternMessage(f.labelText))
    else if RequiredFails(f, v) then Some(RequiredMessage(f.labelText))
    else None
  }

  /** The three overwriting assignments leave exactly the field's message. */
  lemma CheckWritesFieldMessage(rt: Runtime, errors: map<Key, string>, f: FormField, data: Record)
    ensures FieldMessage(rt, f, data).None? ==> Check(rt, errors, f, data) == errors
    ensures FieldMessage(rt, f, data).Some? ==>
      Check(rt, errors, f, data) == errors[f.name := FieldMessage(rt, f, data).value]
  {
  }

  /** A required field with a falsy value gets the required message, and no
      later check overwrites it: the pattern check skips a falsy value and the
      measured text is empty. (A negative maxLength is truthy and `0 > -n`, so
      the claim needs a non-negative one.) */
  lemma RequiredMessageIsKept(rt: Runtime, f: FormField, data: Record)
    requires RequiredFails(f, Get(data, f.name))
    requires f.maxLength.None? || f.maxLength.value >= 0
    ensures FieldMessage(rt, f, data) == Some(RequiredMessage(f.labelText))
  {
  }

  /** A field is in the errors map exactly when some field of that name failed
      a check; its message is the one of the last such field. */
  lemma ErrorsMeaning(rt: Runtime, fields: seq<FormField>, data: Record, k: Key)
    ensures k in Errors(rt, fields, data) <==>
      exists i :: 0 <= i < |fields| && fields[i].name == k && FieldMessage(rt, fields[i], data).Some?
    ensures k in Errors(rt, fields, data) ==>
      exists i :: (LastFailing(rt, fields, data, k, i)
        && FieldMessage(rt, fields[i], data) == Some(Errors(rt, fields, data)[k]))
  {
    ErrorsDomain(rt, fields, data, k);
    if k in Errors(rt, fields, data) {
      ErrorsLastMessage(rt, fields, data, k);
    }
  }

  lemma {:induction false} ErrorsDomain(rt: Runtime, fields: seq<FormField>, data: Record, k: Key)
    ensures k in Errors(rt, fields, data) <==>
      exists i :: 0 <= i < |fields| && fields[i].name == k && FieldMessage(rt, fields[i], data).Some?
    decreases |fields|
  {
    if fields != [] {
      var n := |fields| - 1;
      var init := fields[..n];
      ErrorsDomain(rt, init, data, k);
      assert forall i :: 0 <= i < n ==> init[i] == fields[i];
    }
  }

  /** `fields[i]` is the last field named `k` that fails a check. */
  predicate LastFailing(rt: Runtime, fields: seq<FormField>, data: Record, k: Key, i: int)
  {
    && 0 <= i < |fields| && fields[i].name == k && FieldMessage(rt, fields[i], data).Some?
    && forall j :: i < j < |fields| && fields[j].name == k ==> FieldMessage(rt, fields[j], data).None?
  }

  /** A field that does not write under `k` leaves the last failing field named `k` in place. */
  lemma LastFailingExtend(rt: Runtime, fields: seq<FormField>, data: Record, k: Key, i: int)
    requires fields != []
    requires LastFailing(rt, fields[..|fields| - 1], data, k, i)
    requires fields[|fields| - 1].name != k || FieldMessage(rt, fields[|fields| - 1], data).None?
    ensures LastFailing(rt, fields, data, k, i)
  {
    var init := fields[..|fields| - 1];
    assert fields[i] == init[i];
    assert forall j :: i < j < |init| ==> fields[j] == init[j];
  }

  lemma {:induction false} ErrorsLastMessage(rt: Runtime, fields: seq<FormField>, data: Record, k: Key)
    requires k in Errors(rt, fields, data)
    ensures exists i :: (LastFailing(rt, fields, data, k, i)
      && FieldMessage(rt, fields[i], data) == Some(Errors(rt, fields, data)[k]))
    decreases |fields|
  {
    var n := |fields| - 1;
    var init := fields[..n];
    var e := Errors(rt, fields, data);
    if fields[n].name == k && FieldMessage(rt, fields[n], data).Some? {
      assert LastFailing(rt, fields, data, k, n);
      assert FieldMessage(rt, fields[n], data) == Some(e[k]);
    } else {
      assert k in Errors(rt, init, data) && e[k] == Errors(rt, init, data)[k];
      ErrorsLastMessage(rt, init, data, k);
      var i :| LastFailing(rt, init, data, k, i)
        && FieldMessage(rt, init[i], data) == Some(Errors(rt, init, data)[k]);
      LastFailingExtend(rt, fields, data, k, i);
      assert fields[i] == init[i];
    }
  }

  /** The form is valid (validateForm returns true) exactly when no field fails
      any of its checks. */
  lemma ValidIffNoCheckFails(rt: Runtime, fields: seq<FormField>, data: Record)
    ensures Errors(rt, fields, data) == map[] <==>
      forall i :: 0 <= i < |fields| ==> FieldMessage(rt, fields[i], data).None?
  {
    if Errors(rt, fields, data) != map[] {
      var k :| k in Errors(rt, fields, data);
      ErrorsMeaning(rt, fields, data, k);
    } else {
      forall i | 0 <= i < |fields| ensures FieldMessage(rt, fields[i], data).None? {
        ErrorsMeaning(rt, fields, data, fields[i].name);
      }
    }
  }

  /** No two fields share a name. */
  predicate UniqueNames(fields: seq<FormField>)
  {
    forall i, j :: 0 <= i < j < |fields| ==> fields[i].name != fields[j].name
  }

  /** With unique names each field's entry is its own message, and a field
      that passes all checks has no entry. */
  lemma UniqueFieldEntry(rt: Runtime, fields: seq<FormField>, data: Record, i: nat)
    requires UniqueNames(fields)
    requires i < |fields|
    ensures fields[i].name in Errors(rt, fields, data) <==> FieldMessage(rt, fields[i], data).Some?
    ensures fields[i].name in Errors(rt, fields, data) ==>
      Some(Errors(rt, fields, data)[fields[i].name]) == FieldMessage(rt, fields[i], data)
  {
    ErrorsMeaning(rt, fields, data, fields[i].name);
  }

  /** validateForm's loop: `newErrors` starts empty and each field's checks
      write into it. The result is the errors map of the whole configuration;
      each entry belongs to a field that failed a check. */
  method ComputeErrors(rt: Runtime, config: FormConfig, data: Record) returns (newErrors: map<Key, string>)
    ensures newErrors == Errors(rt, config.fields, data)
    ensures forall k :: k in newErrors <==>
      exists i :: (0 <= i < |config.fields|
        && config.fields[i].name == k && FieldMessage(rt, config.fields[i], data).Some?)
  {
    var fields := config.fields;
    newErrors := map[];
    var i := 0;
    while i < |fields|
      invariant 0 <= i <= |fields|
      invariant newErrors == Errors(rt, fields[..i], data)
    {
      var field := fields[i];
      var value := Get(data, field.name);
      ghost var before := newErrors;
      if field.required && !Truthy(value) {
        newErrors := newErrors[field.name := RequiredMessage(field.labelText)];
      }
      if field.pattern.Some? && field.pattern.value != "" && Truthy(value) {
        if !rt.matches(field.pattern.value, ToText(rt, value)) {
          newErrors := newErrors[field.name := PatternMessage(field.labelText)];
        }
      }
      if field.maxLength.Some? && field.maxLength.value != 0
        && JsLength(MeasuredText(rt, value)) > field.maxLength.value
      {
        newErrors := newErrors[field.name := MaxLengthMessage(field.labelText, field.maxLength.value)];
      }
      assert newErrors == Check(rt, before, field, data);
      CheckWritesFieldMessage(rt, before, field, data);
      ErrorsStep(rt, fields, data, i);
      i := i + 1;
    }
    assert fields[..i] == fields;
    forall k ensures k in newErrors <==>
      exists i :: (0 <= i < |fields| && fields[i].name == k && FieldMessage(rt, fields[i], data).Some?)
    {
      ErrorsDomain(rt, fields, data, k);
    }
  }

  /** The errors of one more field are the errors so far, checked once more. */
  lemma ErrorsStep(rt: Runtime, fields: seq<FormField>, data: Record, i: nat)
    requires i < |fields|
    ensures FieldMessage(rt, fields[i], data).None? ==> Errors(rt, fields[..i + 1], data) == Errors(rt, fields[..i], data)
    ensures FieldMessage(rt, fields[i], data).Some? ==>
      (Errors(rt, fields[..i + 1], data)
       == Errors(rt, fields[..i], data)[fields[i].name := FieldMessage(rt, fields[i], data).value])
  {
    assert fields[..i + 1][..i] == fields[..i];
  }
}
