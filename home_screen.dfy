/**
 * The to-do logic of `src/screens/Home/HomeScreen.js`: a task form and its
 * validation, the form defaults for adding and editing, the guard and body of an
 * update, the status toggle and the two colour lookups.
 */
module HomeScreen {
  import opened JsText
  import opened FormErrors

  /** A task as the server lists it; `priority` may be missing. */
  datatype Task = Task(id: string, title: string, description: string, status: string, priority: Option<string>)

  /** The `taskForm` state object. */
  datatype TaskForm = TaskForm(title: string, description: string, status: string, priority: string)

  datatype Field = Title | Description

  /** The `taskErrors` state object. */
  type Errors = map<Field, string>

  /** The editor state: the form, its errors and the entry being edited, if any. */
  datatype Editor = Editor(form: TaskForm, errors: Errors, selected: Option<Task>)

  const Pending := "pending"
  const Completed := "completed"
  const Low := "low"

  const TitleRequired := "Title is required"
  const TitleTooShort := "Title must be at least 3 characters"
  const DescriptionRequired := "Description is required"

  /** The title chain of `validateTask`. */
  function TitleMessage(title: string): Option<string> {
    if Trim(title) == "" then Some(TitleRequired)
    else if |Trim(title)| < 3 then Some(TitleTooShort)
    else None
  }

  /** A title is refused when it has fewer than three characters once trimmed, and
      reported missing exactly when it is nothing but white space. */
  lemma TitleMessageSpec(title: string)
    ensures TitleMessage(title).Some? <==> |Trim(title)| < 3
    ensures TitleMessage(title) == Some(TitleRequired) <==> AllSpace(title)
  {
    TrimEmptyIffBlank(title);
  }

  /** The description check of `validateTask`. */
  function DescriptionMessage(description: string): Option<string> {
    if Trim(description) == "" then Some(DescriptionRequired) else None
  }

  /** A description is refused exactly when it is nothing but white space. */
  lemma DescriptionMessageSpec(description: string)
    ensures DescriptionMessage(description).Some? <==> AllSpace(description)
  {
    TrimEmptyIffBlank(description);
  }

  /** The message `validateTask` records for field `f`, if any. */
  function MessageFor(form: TaskForm, f: Field): Option<string> {
    match f
    case Title => TitleMessage(form.title)
    case Description => DescriptionMessage(form.description)
  }

  /**
   * `validateTask`: each field gets the message of the first failing check of its
   * chain, or none, and the form is valid exactly when no message was recorded.
   */
  method ValidateTask(form: TaskForm) returns (valid: bool, errors: Errors)
    ensures forall f :: Lookup(errors, f) == MessageFor(form, f)
    ensures valid <==> errors == map[]
  {
    valid := true;
    errors := map[];

    var title := TitleMessage(form.title);
    if title.Some? {
      errors := errors[Title := title.value];
      valid := false;
    }

    var description := DescriptionMessage(form.description);
    if description.Some? {
      errors := errors[Description := description.value];
      valid := false;
    }

    forall f ensures Lookup(errors, f) == MessageFor(form, f) {
      match f
      case Title =>
      case Description =>
    }
    if !valid {
      assert Title in errors || Description in errors;
    }
  }

  /** A task form that passes has a title of at least three characters and a description
      with something other than white space in it, once trimmed. */
  lemma {:induction false} AcceptedTaskIsFilledIn(form: TaskForm)
    requires forall f :: MessageFor(form, f).None?
    ensures |Trim(form.title)| >= 3
    ensures !AllSpace(form.description)
  {
    assert MessageFor(form, Title).None?;
    assert MessageFor(form, Description).None?;
    TitleMessageSpec(form.title);
    DescriptionMessageSpec(form.description);
  }

  /** `resetTaskForm`: an empty pending low-priority form, no errors, nothing selected. */
  function ResetTaskForm(): (r: Editor)
    ensures r.form.title == "" && r.form.description == ""
    ensures r.form.status == Pending && r.form.priority == Low
    ensures r.errors == map[] && r.selected == None
  {
    Editor(TaskForm("", "", Pending, Low), map[], None)
  }

  /** A reset form submitted unchanged is refused, with both fields reported missing. */
  lemma ResetFormIsRefused()
    ensures MessageFor(ResetTaskForm().form, Title) == Some(TitleRequired)
    ensures MessageFor(ResetTaskForm().form, Description) == Some(DescriptionRequired)
  {
  }

  /**
   * `openEditTaskModal(task)`: `task` becomes the selection and the form takes its
   * fields, with a missing or empty priority read as low. The errors are kept.
   */
  function OpenEditTaskModal(editor: Editor, task: Task): (r: Editor)
    ensures r.selected == Some(task) && r.errors == editor.errors
    ensures r.form.title == task.title && r.form.description == task.description
    ensures r.form.status == task.status
    ensures Truthy(task.priority) ==> r.form.priority == task.priority.value
    ensures !Truthy(task.priority) ==> r.form.priority == Low
    ensures r.form.priority != ""
  {
    var priority := if Truthy(task.priority) then task.priority.value else Low;
    Editor(TaskForm(task.title, task.description, task.status, priority), editor.errors, Some(task))
  }

  /** The body `handleUpdateTask` posts: the form's fields and the selected task's id. */
  datatype UpdateBody = UpdateBody(title: string, description: string, status: string, priority: string, taskId: string)

  /**
   * `handleUpdateTask` up to its request: the form is validated first, and nothing is
   * posted when it fails or when no task is selected; otherwise the body carries the
   * form unchanged and the id of the selected task.
   */
  method HandleUpdateTask(editor: Editor) returns (errors: Errors, body: Option<UpdateBody>)
    ensures forall f :: Lookup(errors, f) == MessageFor(editor.form, f)
    ensures body.Some? <==> errors == map[] && editor.selected.Some?
    ensures body.Some? ==> body.value == UpdateBody(editor.form.title, editor.form.description,
                                                    editor.form.status, editor.form.priority,
                                                    editor.selected.value.id)
  {
    var valid;
    valid, errors := ValidateTask(editor.form);
    if !valid || editor.selected.None? {
      return errors, None;
    }
    var form := editor.form;
    body := Some(UpdateBody(form.title, form.description, form.status, form.priority, editor.selected.value.id));
  }

  /**
   * Opening a task for editing and saving it unchanged posts that same task: its
   * fields, its id, and a low priority where it had none.
   */
  method EditAndSave(editor: Editor, task: Task) returns (body: Option<UpdateBody>)
    requires |Trim(task.title)| >= 3 && !AllSpace(task.description)
    ensures body.Some?
    ensures body.value.taskId == task.id
    ensures body.value.title == task.title && body.value.description == task.description
    ensures body.value.status == task.status
    ensures body.value.priority == if Truthy(task.priority) then task.priority.value else Low
  {
    var edited := OpenEditTaskModal(editor, task);
    TitleMessageSpec(task.title);
    DescriptionMessageSpec(task.description);
    assert MessageFor(edited.form, Title) == None && MessageFor(edited.form, Description) == None;
    var errors;
    errors, body := HandleUpdateTask(edited);
    assert Lookup(errors, Title) == None && Lookup(errors, Description) == None;
    assert errors.Keys == {} by {
      forall f | f in errors ensures false {
        match f
        case Title =>
        case Description =>
      }
    }
  }

  /** The status flip of `toggleTaskStatus`: completed goes back to pending, anything
      else becomes completed. */
  function FlipStatus(status: string): (r: string)
    ensures r == Completed <==> status != Completed
    ensures r == Pending <==> status == Completed
  {
    if status == Completed then Pending else Completed
  }

  /** On the two statuses the app sets, flipping twice gives back the status. A task
      with any other status comes back pending. */
  lemma FlipTwice(status: string)
    ensures status == Completed || status == Pending ==> FlipStatus(FlipStatus(status)) == status
    ensures status != Completed && status != Pending ==> FlipStatus(FlipStatus(status)) == Pending
  {
  }

  /** The body `toggleTaskStatus` posts. */
  datatype ToggleBody = ToggleBody(title: string, description: string, priority: Option<string>, status: string, taskId: string)

  /** `toggleTaskStatus(task)` up to its request: the title, description,
      priority and id unchanged, with the status flipped. */
  function ToggleTaskStatus(task: Task): (r: ToggleBody)
    ensures r.title == task.title && r.description == task.description
    ensures r.priority == task.priority && r.taskId == task.id
    ensures r.status == Completed <==> task.status != Completed
    ensures r.status == Pending <==> task.status == Completed
  {
    ToggleBody(task.title, task.description, task.priority, FlipStatus(task.status), task.id)
  }

  /** `getPriorityColor`: red, orange and green for high, medium and low, grey otherwise. */
  function PriorityColor(priority: string): (r: string)
    ensures priority == "high" ==> r == "#f44336"
    ensures priority == "medium" ==> r == "#ff9800"
    ensures priority == Low ==> r == "#4caf50"
    ensures r == "#666" <==> priority != "high" && priority != "medium" && priority != Low
  {
    match priority
    case "high" => "#f44336"
    case "medium" => "#ff9800"
    case "low" => "#4caf50"
    case _ => "#666"
  }

  /** The three priorities show three different colours. */
  lemma PriorityColorsDistinct(p: string, q: string)
    requires p in {"high", "medium", Low} && q in {"high", "medium", Low}
    ensures PriorityColor(p) == PriorityColor(q) <==> p == q
  {
  }

  /** `getStatusColor`: green for a completed task, orange for any other. */
  function StatusColor(status: string): (r: string)
    ensures r == "#4caf50" <==> status == Completed
    ensures r == "#ff9800" <==> status != Completed
  {
    if status == Completed then "#4caf50" else "#ff9800"
  }

  /** Every toggle changes the colour a task is shown in. */
  lemma ToggleChangesStatusColor(task: Task)
    ensures StatusColor(ToggleTaskStatus(task).status) != StatusColor(task.status)
  {
  }
}
