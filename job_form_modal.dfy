/** `JobFormModal.tsx`: the add/edit form with its discard prompt. The state
    is the form, `submitting` and `showConfirmDiscard`; the job being edited
    is a prop and never changes. `onSave` and `onClose` are the parent's:
    a method reports whether it called them, and `onSave`'s promise is a
    parameter saying whether it resolved. The browser's own constraint
    checks (`required` company and role, a `type="url"` link) decide
    whether a submit event is fired at all; `isUrlInput` is the browser's
    URL check. */
module JobFormModal {
  import opened Wrappers
  import opened ClientTypes

  /** The `useState` initializer: the edited job's form, or the blank one. */
  function InitialForm(editing: Option<Job>, toDateInput: string -> string): (f: FormData)
    ensures editing.None? ==> f == DefaultForm
    ensures editing.Some? ==> f == FormFromJob(editing.value, toDateInput)
  {
    match editing
    case None => DefaultForm
    case Some(j) => FormFromJob(j, toDateInput)
  }

  /** A blank form has no content and would not be submitted: company and
      role are required. */
  lemma BlankFormIsEmpty(isUrlInput: string -> bool)
    ensures !HasContent(InitialForm(None, (t: string) => t))
    ensures !BrowserSubmits(InitialForm(None, (t: string) => t), isUrlInput)
  {
  }

  /** `formData.company || formData.role`. */
  predicate HasContent(f: FormData) {
    f.company != "" || f.role != ""
  }

  /** The browser fires the submit event only when the required inputs are
      filled and a non-empty link is a URL. */
  predicate BrowserSubmits(f: FormData, isUrlInput: string -> bool) {
    f.company != "" && f.role != "" && (f.jobLink != "" ==> isUrlInput(f.jobLink))
  }

  /** `handleClose` asks for confirmation exactly for a new form with a
      company or a role typed in. */
  predicate ClosePrompts(editing: Option<Job>, f: FormData) {
    HasContent(f) && editing.None?
  }

  /** An edit form never asks. */
  lemma EditFormClosesAtOnce(editing: Option<Job>, f: FormData)
    requires editing.Some?
    ensures !ClosePrompts(editing, f)
  {
  }

  /** Typing into the company or role of a new form makes closing ask;
      typing only notes, a date or a link does not. */
  lemma WhatMakesClosingAsk(f: FormData, field: Field, v: string)
    requires !HasContent(f)
    ensures ClosePrompts(None, WithField(f, field, v)) <==>
      (field == CompanyField || field == RoleField) && v != ""
  {
  }

  /** The component's state as a value. */
  datatype ModalState = ModalState(form: FormData, submitting: bool, confirmDiscard: bool)

  class FormModal {
    const editing: Option<Job>
    var formData: FormData
    var submitting: bool
    var showConfirmDiscard: bool

    function State(): ModalState
      reads this
    {
      ModalState(formData, submitting, showConfirmDiscard)
    }

    constructor(editingJob: Option<Job>, toDateInput: string -> string)
      ensures editing == editingJob
      ensures State() == ModalState(InitialForm(editingJob, toDateInput), false, false)
    {
      editing := editingJob;
      formData := InitialForm(editingJob, toDateInput);
      submitting := false;
      showConfirmDiscard := false;
    }

    /** An input's `onChange`. */
    method Edit(field: Field, v: string)
      modifies this
      ensures State() == old(State()).(form := WithField(old(formData), field, v))
    {
      formData := WithField(formData, field, v);
    }

    /** `handleSubmit`: the form is hidden while the prompt is shown and the
        button is disabled while submitting, so only then is `onSave`
        called, with the form. `submitting` goes back to false only when
        the promise resolves; a rejection leaves it true. */
    method Submit(isUrlInput: string -> bool, saveResolves: bool) returns (saved: Option<FormData>)
      modifies this
      ensures saved.Some? <==>
        !old(submitting) && !old(showConfirmDiscard) && BrowserSubmits(old(formData), isUrlInput)
      ensures saved.Some? ==> saved.value == formData && State() == old(State()).(submitting := !saveResolves)
      ensures saved.None? ==> State() == old(State())
    {
      if submitting || showConfirmDiscard || !BrowserSubmits(formData, isUrlInput) {
        return None;
      }
      submitting := true;
      saved := Some(formData);
      if saveResolves {
        submitting := false;
      }
    }

    /** `handleClose`: opens the prompt or calls `onClose`. */
    method Close() returns (closeCalled: bool)
      modifies this
      ensures closeCalled <==> !ClosePrompts(editing, old(formData))
      ensures State() == old(State()).(confirmDiscard := old(showConfirmDiscard) || !closeCalled)
    {
      var hasContent := formData.company != "" || formData.role != "";
      if hasContent && editing.None? {
        showConfirmDiscard := true;
        closeCalled := false;
      } else {
        closeCalled := true;
      }
    }

    /** "Keep Editing": hides the prompt and keeps the form. */
    method KeepEditing()
      modifies this
      ensures State() == old(State()).(confirmDiscard := false)
    {
      showConfirmDiscard := false;
    }

    /** "Discard": calls `onClose` and changes nothing itself. The button
        exists only while the prompt is shown. */
    method Discard() returns (closeCalled: bool)
      ensures closeCalled == showConfirmDiscard
    {
      closeCalled := showConfirmDiscard;
    }
  }
}
