/**
 * The signup wizard's state: the step cursor, the form and the picked
 * documents, changed in place by the page's event handlers.
 */
module Wizard {
  import opened Wrappers
  import opened Email
  import opened Roles
  import opened Steps
  import opened Form

  class SignupWizard {
    var step: int
    var form: FormData
    var uploads: Uploads

    /** The cursor always names one of the role's steps. */
    ghost predicate Valid()
      reads this
    {
      1 <= step <= TotalSteps(form.role)
    }

    /** The page as first rendered: step 1, empty form, no documents. */
    constructor ()
      ensures Valid()
      ensures step == 1 && form == InitialForm() && uploads == NoUploads
    {
      step := 1;
      form := InitialForm();
      uploads := NoUploads;
    }

    /**
     * "Next Step": run the current step's gate; on success move to the next
     * step, on failure report why and change nothing. The button exists only
     * below the final step.
     */
    method Next() returns (outcome: Outcome<StepError>)
      requires Valid() && NextOffered(step, form.role)
      modifies this
      ensures Valid()
      ensures outcome == Gate(old(step), old(form))
      ensures step == if outcome.Pass? then old(step) + 1 else old(step)
      ensures form == old(form) && uploads == old(uploads)
    {
      FinalStepIsLast(step, form.role);
      outcome := Gate(step, form);
      if outcome.Pass? {
        step := step + 1;
      }
    }

    /** "Previous": one step back; the button exists only after step 1. */
    method Previous()
      requires Valid() && step > 1
      modifies this
      ensures Valid()
      ensures step == old(step) - 1
      ensures form == old(form) && uploads == old(uploads)
    {
      step := step - 1;
    }

    /** Clicking a role button, which exists only on step 1. */
    method SetRole(r: Role)
      requires Valid() && step == 1
      modifies this
      ensures Valid()
      ensures form == old(form).(role := r)
      ensures step == old(step) && uploads == old(uploads)
    {
      form := form.(role := r);
    }

    /** Typing into (or choosing in) a named input: that field alone changes. */
    method SetField(name: Field, value: string)
      requires Valid()
      modifies this
      ensures Valid()
      ensures form == WithField(old(form), name, value)
      ensures step == old(step) && uploads == old(uploads)
    {
      form := WithField(form, name, value);
    }

    /** Choosing files for an upload slot: the first one chosen, or none, goes into that slot. */
    method SelectFile(slot: UploadSlot, files: Option<seq<FileRef>>)
      requires Valid()
      modifies this
      ensures Valid()
      ensures uploads == WithUpload(old(uploads), slot, PickedFile(files))
      ensures step == old(step) && form == old(form)
    {
      uploads := WithUpload(uploads, slot, PickedFile(files));
    }
  }

  /**
   * A teacher fills in the account step, skips the optional details and
   * reaches the final screen after three steps; the redirect then goes to
   * the teacher dashboard.
   */
  method TeacherWalkthrough(first: string, last: string, email: string, password: string)
    requires first != "" && last != "" && MatchesPattern(email)
    requires |password| >= MinPasswordLength
  {
    var w := new SignupWizard();
    w.SetRole(Teacher);
    var o := w.Next();
    assert o == Pass && w.step == 2;
    w.SetField(FirstName, first);
    w.SetField(LastName, last);
    w.SetField(EmailAddress, email);
    w.SetField(Password, password);
    w.SetField(ConfirmPassword, password);
    AccountGate(w.form);
    o := w.Next();
    assert o == Pass && w.step == 3;
    o := w.Next();
    assert o == Pass && w.step == 4;
    assert SubmitOffered(w.step, w.form.role) && !NextOffered(w.step, w.form.role);
    assert DashboardRoute(w.form.role) == "/dashboard/teacher";
  }

  /**
   * Going back to step 1 and switching from learner to teacher keeps the
   * account data and shortens the wizard to four steps.
   */
  method SwitchRoleKeepsAccountData(first: string) {
    var w := new SignupWizard();
    var o := w.Next();
    assert w.step == 2;
    w.SetField(FirstName, first);
    assert TotalSteps(w.form.role) == 5;
    w.Previous();
    w.SetRole(Teacher);
    assert w.form.firstName == first;
    assert TotalSteps(w.form.role) == 4 && |StepLabels(w.form.role)| == 4;
  }
}
