/** The controlled-form state of the admin edit pages: `formData` is an object keyed by
    field name, and every change handler writes one key with `{ ...prev, [name]: value }`. */
module Forms {
  import opened Wrappers
  import opened Types

  /** A value held in `formData`. A number is `None` when `Number.parseFloat` gave NaN. */
  datatype FormValue =
    | FText(text: string)
    | FNumber(number: Option<real>)
    | FFlag(flag: bool)
    | FList(items: seq<string>)
    | FAttrs(attrs: Attributes)

  type Form = map<string, FormValue>

  /** `{ ...prev, [name]: v }`: the named key takes `v`, every other key keeps its value. */
  function SetField(form: Form, name: string, v: FormValue): (r: Form)
    ensures r.Keys == form.Keys + {name}
    ensures r[name] == v
    ensures forall k :: k in form && k != name ==> r[k] == form[k]
  {
    form[name := v]
  }

  /** `e.target.type` of the input that changed. */
  datatype InputKind = Checkbox | NumberInput | TextInput

  /** A change event: the input's name, kind, raw value and checked state, and
      `parsed`, the result of `Number.parseFloat(value)` (None for NaN), which the
      model takes as given. */
  datatype ChangeEvent = ChangeEvent(name: string, kind: InputKind, value: string, checked: bool, parsed: Option<real>)

  /** `isEditMode = !!id`. */
  predicate IsEditMode(id: Option<string>) {
    TruthyText(id)
  }

  /** What `handleSubmit` calls: update the record with the route's id, or create one. */
  datatype SubmitTarget = CreateNew | UpdateExisting(id: string)

  /** `if (isEditMode && id) update(id, formData) else create(formData)`. */
  function SubmitTargetOf(id: Option<string>): (r: SubmitTarget)
    ensures r.UpdateExisting? <==> IsEditMode(id)
    ensures r.UpdateExisting? ==> r.id == id.value
  {
    if IsEditMode(id) then UpdateExisting(id.value) else CreateNew
  }
}
