/**
  The request body the page sends when the "Add New Task" form is submitted.
  The form is read field by field; only the priority gets a default, and the
  status is fixed to pending whatever the form holds.
 */
module CreateForm {
  import opened TaskModel

  /** Submitted form fields by name; a field that was not submitted is absent. */
  type Form = map<string, string>

  /** `formData.get(name)`: the field's text, or `null` when it is missing. */
  function FormGet(form: Form, name: string): Option<string> {
    if name in form then Some(form[name]) else None
  }

  /** The JSON body of the create request; `None` serialises as `null`. */
  datatype CreatePayload = CreatePayload(
    title: Option<string>,
    description: Option<string>,
    priority: string,
    dueDate: Option<string>,
    status: string
  )

  /** The priority sent when the form has none. */
  const DefaultPriority: string := PriorityName(MEDIUM)

  /**
    `formData.get('priority') || 'MEDIUM'`: JavaScript's `||` falls back on
    `null` and on the empty string, and keeps any other text as it is.
   */
  function PriorityOrDefault(v: Option<string>): (r: string)
    ensures r != ""
    ensures v.Some? && v.value != "" ==> r == v.value
    ensures v.None? || v.value == "" ==> r == DefaultPriority
  {
    match v
    case Some(text) => if text != "" then text else DefaultPriority
    case None => DefaultPriority
  }

  /** The body `api.createTask` posts for a submitted form. */
  function BuildCreatePayload(form: Form): (p: CreatePayload)
    ensures "title" in form ==> p.title == Some(form["title"])
    ensures "title" !in form ==> p.title.None?
    ensures "description" in form ==> p.description == Some(form["description"])
    ensures "description" !in form ==> p.description.None?
    ensures "dueDate" in form ==> p.dueDate == Some(form["dueDate"])
    ensures "dueDate" !in form ==> p.dueDate.None?
    ensures "priority" in form && form["priority"] != "" ==> p.priority == form["priority"]
    ensures "priority" !in form || form["priority"] == "" ==> p.priority == "MEDIUM"
    ensures p.status == "PENDING"
  {
    CreatePayload(
      FormGet(form, "title"),
      FormGet(form, "description"),
      PriorityOrDefault(FormGet(form, "priority")),
      FormGet(form, "dueDate"),
      StatusName(PENDING)
    )
  }

  /**
    Read back as enumeration values, the payload's status is always pending
    and its priority is the form's priority, or medium when the form has
    none; a priority text that is not a priority name reads as none at all.
   */
  lemma PayloadEnumerations(form: Form, chosen: Priority)
    ensures ParseStatus(BuildCreatePayload(form).status) == Some(PENDING)
    ensures "priority" !in form || form["priority"] == "" ==>
      ParsePriority(BuildCreatePayload(form).priority) == Some(MEDIUM)
    ensures "priority" in form && form["priority"] == PriorityName(chosen) ==>
      ParsePriority(BuildCreatePayload(form).priority) == Some(chosen)
    ensures "priority" in form && form["priority"] != "" && ParsePriority(form["priority"]).None? ==>
      ParsePriority(BuildCreatePayload(form).priority).None?
  {
    StatusNameRoundTrip(PENDING, "PENDING");
    PriorityNameRoundTrip(chosen, PriorityName(chosen));
  }

  /** Form fields other than title, description, priority and due date never reach the payload. */
  lemma PayloadIgnoresOtherFields(form: Form, name: string, value: string)
    requires name !in {"title", "description", "priority", "dueDate"}
    ensures BuildCreatePayload(form[name := value]) == BuildCreatePayload(form)
  {
  }
}
