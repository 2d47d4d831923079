/**
 * How the wizard's role decides its sequence of steps: how many there are,
 * their labels in the progress bar, which panel each step shows, which one is
 * final, and which navigation buttons each step offers.
 */
module Steps {
  import opened Roles

  /** Learners have a payment step; every other role has four steps. */
  function TotalSteps(r: Role): (n: nat)
    ensures n == 4 || n == 5
    ensures n == 5 <==> r == Learner
  {
    if r == Learner then 5 else 4
  }

  /** The labels of the progress bar, one per step. */
  function StepLabels(r: Role): (labels: seq<string>)
    ensures |labels| == TotalSteps(r)
    ensures labels[..3] == ["Role", "Account", "Details"]
    ensures labels[|labels| - 1] == "Complete"
    ensures "Payment" in labels <==> r == Learner
  {
    if r == Learner
    then ["Role", "Account", "Details", "Payment", "Complete"]
    else ["Role", "Account", "Details", "Complete"]
  }

  /** The condition under which the summary and Submit replace the navigation bar. */
  predicate IsFinalStep(step: int, r: Role) {
    (step == 4 && r != Learner) || (step == 5 && r == Learner)
  }

  /** The final-step condition singles out the last step of the role's sequence. */
  lemma FinalStepIsLast(step: int, r: Role)
    ensures IsFinalStep(step, r) <==> step == TotalSteps(r)
    ensures IsFinalStep(step, r) ==> StepLabels(r)[step - 1] == "Complete"
  {
  }

  /** "Next Step" is rendered whenever the navigation bar is. */
  predicate NextOffered(step: int, r: Role) {
    !IsFinalStep(step, r)
  }

  /** "Previous" is rendered inside the navigation bar, and only after step 1. */
  predicate PreviousOffered(step: int, r: Role) {
    !IsFinalStep(step, r) && step > 1
  }

  /** "Complete Registration" is rendered on the final screen only. */
  predicate SubmitOffered(step: int, r: Role) {
    IsFinalStep(step, r)
  }

  /** Inside the step range, moving forward with Next or back with Previous stays inside it. */
  lemma NavigationStaysInRange(step: int, r: Role)
    requires 1 <= step <= TotalSteps(r)
    ensures NextOffered(step, r) ==> 1 <= step + 1 <= TotalSteps(r)
    ensures PreviousOffered(step, r) ==> 1 <= step - 1 <= TotalSteps(r)
    ensures NextOffered(step, r) != SubmitOffered(step, r)
  {
    FinalStepIsLast(step, r);
  }

  /** The content panels of the form. */
  datatype Panel = RolePanel | AccountPanel | DetailsPanel | PaymentPanel | CompletePanel

  /** The progress-bar label that names each panel. */
  function PanelLabel(p: Panel): string {
    match p
    case RolePanel => "Role"
    case AccountPanel => "Account"
    case DetailsPanel => "Details"
    case PaymentPanel => "Payment"
    case CompletePanel => "Complete"
  }

  /** The panels whose render conditions hold at a step. */
  function PanelsShown(step: int, r: Role): set<Panel> {
    (if step == 1 then {RolePanel} else {}) +
    (if step == 2 then {AccountPanel} else {}) +
    (if step == 3 then {DetailsPanel} else {}) +
    (if step == 4 && r == Learner then {PaymentPanel} else {}) +
    (if IsFinalStep(step, r) then {CompletePanel} else {})
  }

  /**
   * The render conditions and the label table never disagree: inside the
   * step range exactly one panel is shown and it is the one the progress bar
   * names; outside it nothing is shown.
   */
  lemma PanelsMatchLabels(step: int, r: Role)
    ensures 1 <= step <= TotalSteps(r) ==>
              exists p :: PanelsShown(step, r) == {p} && PanelLabel(p) == StepLabels(r)[step - 1]
    ensures !(1 <= step <= TotalSteps(r)) ==> PanelsShown(step, r) == {}
  {
    if 1 <= step <= TotalSteps(r) {
      var p :=
        if step == 1 then RolePanel
        else if step == 2 then AccountPanel
        else if step == 3 then DetailsPanel
        else if step == 4 && r == Learner then PaymentPanel
        else CompletePanel;
      assert PanelsShown(step, r) == {p};
    }
  }
}
