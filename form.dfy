/**
 * The signup form's data, its single-field edit, the validation gate that
 * decides whether "Next Step" may leave a step, the document upload slots and
 * the payment reference shown to learners.
 */
module Form {
  import opened Wrappers
  import opened Email
  import opened Roles

  /** Everything the form collects. */
  datatype FormData = FormData(
    firstName: string,
    lastName: string,
    email: string,
    phone: string,
    password: string,
    confirmPassword: string,
    role: Role,
    idNumber: string,
    address: string,
    grade: string,
    parentName: string,
    parentPhone: string,
    parentEmail: string)

  /** The form as the page first shows it: every text empty, role learner. */
  function InitialForm(): (f: FormData)
    ensures f.role == Learner
    ensures forall n :: Get(f, n) == ""
  {
    FormData("", "", "", "", "", "", Learner, "", "", "", "", "", "")
  }

  /** The text inputs, named as the inputs' `name` attributes name them. */
  datatype Field =
    | FirstName | LastName | EmailAddress | Phone | Password | ConfirmPassword
    | IdNumber | Address | Grade | ParentName | ParentPhone | ParentEmail

  /** The text held in a field. */
  function Get(f: FormData, name: Field): string {
    match name
    case FirstName => f.firstName
    case LastName => f.lastName
    case EmailAddress => f.email
    case Phone => f.phone
    case Password => f.password
    case ConfirmPassword => f.confirmPassword
    case IdNumber => f.idNumber
    case Address => f.address
    case Grade => f.grade
    case ParentName => f.parentName
    case ParentPhone => f.parentPhone
    case ParentEmail => f.parentEmail
  }

  /** `{ ...formData, [name]: value }`: the named field replaced, nothing else. */
  function WithField(f: FormData, name: Field, value: string): (g: FormData)
    ensures Get(g, name) == value
    ensures forall other :: other != name ==> Get(g, other) == Get(f, other)
    ensures g.role == f.role
  {
    match name
    case FirstName => f.(firstName := value)
    case LastName => f.(lastName := value)
    case EmailAddress => f.(email := value)
    case Phone => f.(phone := value)
    case Password => f.(password := value)
    case ConfirmPassword => f.(confirmPassword := value)
    case IdNumber => f.(idNumber := value)
    case Address => f.(address := value)
    case Grade => f.(grade := value)
    case ParentName => f.(parentName := value)
    case ParentPhone => f.(parentPhone := value)
    case ParentEmail => f.(parentEmail := value)
  }

  /** A form is determined by its role and the texts of its fields. */
  lemma FormExtensionality(f: FormData, g: FormData)
    requires f.role == g.role
    requires forall n :: Get(f, n) == Get(g, n)
    ensures f == g
  {
    assert Get(f, FirstName) == Get(g, FirstName);
    assert Get(f, LastName) == Get(g, LastName);
    assert Get(f, EmailAddress) == Get(g, EmailAddress);
    assert Get(f, Phone) == Get(g, Phone);
    assert Get(f, Password) == Get(g, Password);
    assert Get(f, ConfirmPassword) == Get(g, ConfirmPassword);
    assert Get(f, IdNumber) == Get(g, IdNumber);
    assert Get(f, Address) == Get(g, Address);
    assert Get(f, Grade) == Get(g, Grade);
    assert Get(f, ParentName) == Get(g, ParentName);
    assert Get(f, ParentPhone) == Get(g, ParentPhone);
    assert Get(f, ParentEmail) == Get(g, ParentEmail);
  }

  /** Writing a field's own value back changes nothing. */
  lemma WithFieldUnchanged(f: FormData, name: Field)
    ensures WithField(f, name, Get(f, name)) == f
  {
    FormExtensionality(WithField(f, name, Get(f, name)), f);
  }

  /** A second edit of the same field overrides the first. */
  lemma WithFieldOverrides(f: FormData, name: Field, a: string, b: string)
    ensures WithField(WithField(f, name, a), name, b) == WithField(f, name, b)
  {
    FormExtensionality(WithField(WithField(f, name, a), name, b), WithField(f, name, b));
  }

  /** Edits of different fields commute. */
  lemma WithFieldCommutes(f: FormData, n: Field, m: Field, a: string, b: string)
    requires n != m
    ensures WithField(WithField(f, n, a), m, b) == WithField(WithField(f, m, b), n, a)
  {
    FormExtensionality(WithField(WithField(f, n, a), m, b), WithField(WithField(f, m, b), n, a));
  }

  /** The grades a learner can pick from. */
  const Grades: seq<string> := ["Grade 8", "Grade 9", "Grade 10", "Grade 11", "Grade 12"]

  /** The shortest password the account step accepts, in characters. */
  const MinPasswordLength: nat := 6

  /** Why "Next Step" refused to move on (the title of the error shown). */
  datatype StepError =
    | RequiredFields    // "Required Fields"
    | InvalidEmail      // "Invalid Email"
    | WeakPassword      // "Weak Password"
    | PasswordMismatch  // "Passwords Don't Match"
    | SelectGrade       // "Select Grade"

  /**
   * The checks "Next Step" runs before leaving `step`, in the order the page
   * runs them; the first that fails decides the error. The role check of step
   * 1 is absent: a `Role` is always one of the five roles, so it cannot fail.
   */
  function Gate(step: int, f: FormData): Outcome<StepError> {
    if step == 2 && (f.firstName == "" || f.lastName == "" || f.email == "" || f.password == "") then
      Fail(RequiredFields)
    else if step == 2 && !ValidEmail(f.email) then
      Fail(InvalidEmail)
    else if step == 2 && |f.password| < MinPasswordLength then
      Fail(WeakPassword)
    else if step == 2 && f.password != f.confirmPassword then
      Fail(PasswordMismatch)
    else if step == 3 && f.role == Learner && f.grade == "" then
      Fail(SelectGrade)
    else
      Pass
  }

  /** The account rules as the form states them, with the email rule as the regular expression. */
  ghost predicate AccountComplete(f: FormData) {
    && f.firstName != "" && f.lastName != ""
    && MatchesPattern(f.email)
    && |f.password| >= MinPasswordLength
    && f.password == f.confirmPassword
  }

  /**
   * The account step lets the wizard advance exactly when its rules hold, and
   * each refusal names the first rule, in the page's order, that is broken.
   */
  lemma AccountGate(f: FormData)
    ensures Gate(2, f) == Pass <==> AccountComplete(f)
    ensures Gate(2, f) == Fail(RequiredFields) <==>
              f.firstName == "" || f.lastName == "" || f.email == "" || f.password == ""
    ensures Gate(2, f) == Fail(InvalidEmail) <==>
              f.firstName != "" && f.lastName != "" && f.email != "" && f.password != "" &&
              !MatchesPattern(f.email)
    ensures Gate(2, f) == Fail(WeakPassword) <==>
              f.firstName != "" && f.lastName != "" && MatchesPattern(f.email) &&
              0 < |f.password| < MinPasswordLength
    ensures Gate(2, f) == Fail(PasswordMismatch) <==>
              f.firstName != "" && f.lastName != "" && MatchesPattern(f.email) &&
              |f.password| >= MinPasswordLength && f.password != f.confirmPassword
  {
    ValidEmailIsPattern(f.email);
    if MatchesPattern(f.email) {
      assert f.email != "";
    }
  }

  /** The details step only asks learners for a grade, and any non-empty grade will do. */
  lemma DetailsGate(f: FormData)
    ensures Gate(3, f) == Pass <==> f.role != Learner || f.grade != ""
    ensures Gate(3, f) != Pass ==> Gate(3, f) == Fail(SelectGrade)
  {
  }

  /** Every grade the picker lists satisfies the details step. */
  lemma GradeOptionsPass(f: FormData, i: nat)
    requires i < |Grades|
    ensures Gate(3, f.(grade := Grades[i])) == Pass
  {
    assert |Grades[i]| > 0;
  }

  /** Steps other than the account and details steps never refuse to advance. */
  lemma OtherStepsUngated(step: int, f: FormData)
    requires step != 2 && step != 3
    ensures Gate(step, f) == Pass
  {
  }

  /** The phone number is optional: it never influences the gate. */
  lemma PhoneNotRequired(step: int, f: FormData, phone: string)
    ensures Gate(step, f.(phone := phone)) == Gate(step, f)
  {
  }

  /** A five-character password is too weak; six matching characters pass. */
  lemma PasswordLengthBoundary(f: FormData)
    requires f.firstName != "" && f.lastName != "" && f.email == "foo@bar.com"
    ensures Gate(2, f.(password := "abc12", confirmPassword := "abc12")) == Fail(WeakPassword)
    ensures Gate(2, f.(password := "abc123", confirmPassword := "abc123")) == Pass
  {
    AcceptsDottedDomain();
    AccountGate(f.(password := "abc12", confirmPassword := "abc12"));
    AccountGate(f.(password := "abc123", confirmPassword := "abc123"));
  }

  /** An uploaded document, known to the page only by its handle and name. */
  datatype FileRef = FileRef(name: string)

  /** The three document upload slots. */
  datatype UploadSlot = IdDocument | ProofOfAddress | ProofOfPayment

  /** The document picked for each slot, if any. */
  datatype Uploads = Uploads(
    idDocument: Option<FileRef>,
    proofOfAddress: Option<FileRef>,
    proofOfPayment: Option<FileRef>)

  /** No document picked yet. */
  const NoUploads: Uploads := Uploads(None, None, None)

  /** The document held in a slot. */
  function UploadIn(u: Uploads, slot: UploadSlot): Option<FileRef> {
    match slot
    case IdDocument => u.idDocument
    case ProofOfAddress => u.proofOfAddress
    case ProofOfPayment => u.proofOfPayment
  }

  /** `e.target.files?.[0] || null`: the first picked file, or nothing. */
  function PickedFile(files: Option<seq<FileRef>>): (picked: Option<FileRef>)
    ensures picked.Some? <==> files.Some? && |files.value| > 0
    ensures picked.Some? ==> picked.value == files.value[0]
  {
    match files
    case None => None
    case Some(list) => if |list| == 0 then None else Some(list[0])
  }

  /** `{ ...uploadedFiles, [slot]: file }`: one slot replaced, the others kept. */
  function WithUpload(u: Uploads, slot: UploadSlot, file: Option<FileRef>): (v: Uploads)
    ensures UploadIn(v, slot) == file
    ensures forall other :: other != slot ==> UploadIn(v, other) == UploadIn(u, other)
  {
    match slot
    case IdDocument => u.(idDocument := file)
    case ProofOfAddress => u.(proofOfAddress := file)
    case ProofOfPayment => u.(proofOfPayment := file)
  }

  /** The placeholder shown while no ID number has been entered. */
  const ReferencePlaceholder: string := "[YOUR ID]"

  /** The bank reference a learner is told to pay with. */
  function PaymentReference(idNumber: string): (reference: string)
    ensures |reference| > 4 && reference[..4] == "REG-"
    ensures reference[4..] == if idNumber == "" then ReferencePlaceholder else idNumber
  {
    "REG-" + (if idNumber == "" then ReferencePlaceholder else idNumber)
  }

  /** Different entered ID numbers give different references. */
  lemma PaymentReferenceInjective(a: string, b: string)
    requires a != "" && b != ""
    requires PaymentReference(a) == PaymentReference(b)
    ensures a == b
  {
    assert PaymentReference(a)[4..] == PaymentReference(b)[4..];
  }

  /** The placeholder is indistinguishable from an ID number typed as "[YOUR ID]". */
  lemma PaymentReferencePlaceholderCollides()
    ensures PaymentReference("") == PaymentReference(ReferencePlaceholder)
  {
  }
}
