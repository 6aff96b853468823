/** The generic input handler of the login and account forms:
    `setFormData(prev => ({ ...prev, [name]: type === "checkbox" ? checked : value }))`.
    Form state is a dictionary from field name to the value last stored. */
module Forms {

  /** What a form field holds: text from an input, the `checked` flag of a
      checkbox, or nothing (`undefined`, a key the form does not have). */
  datatype FieldValue = Text(text: string) | Flag(on: bool) | Absent

  /** JavaScript truthiness of a field value. */
  predicate Truthy(v: FieldValue) {
    match v
    case Text(t) => t != ""
    case Flag(b) => b
    case Absent => false
  }

  type FormData = map<string, FieldValue>

  /** `formData.name` (undefined when the key is missing). */
  function Get(form: FormData, name: string): (v: FieldValue)
    ensures name !in form ==> v == Absent
    ensures name in form ==> v == form[name]
  {
    if name in form then form[name] else Absent
  }

  /** The `change` event of an input: its `name`, `value`, `checked` and
      whether its `type` is "checkbox". */
  datatype InputEvent = InputEvent(name: string, value: string, checked: bool, isCheckbox: bool)

  /** The value the handler stores for an event. */
  function StoredValue(e: InputEvent): (v: FieldValue)
    ensures e.isCheckbox ==> v == Flag(e.checked)
    ensures !e.isCheckbox ==> v == Text(e.value)
  {
    if e.isCheckbox then Flag(e.checked) else Text(e.value)
  }

  /** The handler: the named field takes the event's value, every other field
      keeps its own. */
  function ApplyInput(form: FormData, e: InputEvent): (r: FormData)
    ensures r.Keys == form.Keys + {e.name}
    ensures Get(r, e.name) == StoredValue(e)
    ensures forall k :: k != e.name ==> Get(r, k) == Get(form, k)
  {
    form[e.name := StoredValue(e)]
  }

  /** Replaying the same event is the same as applying it once. */
  lemma ApplyInputIdempotent(form: FormData, e: InputEvent)
    ensures ApplyInput(ApplyInput(form, e), e) == ApplyInput(form, e)
  {
  }
}
