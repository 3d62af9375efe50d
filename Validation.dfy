/** The grievance draft and the validation that runs on submit. */
module Validation {
  import opened Wrappers
  import opened Text
  import opened Attachments

  /** The form's `GrievanceData`: the organization type chosen in the select
      box, the organization's name or ID, the description, the attached
      proof files and, after a successful submit, the reference ID. */
  datatype GrievanceData = GrievanceData(
    organization: string,
    organizationName: string,
    issueDescription: string,
    files: seq<FileInfo>,
    referenceId: Option<string>)

  /** The draft the form starts from and resets to. */
  const EmptyDraft := GrievanceData("", "", "", [], None)

  const OrganizationKey := "organization"
  const OrganizationNameKey := "organizationName"
  const IssueDescriptionKey := "issueDescription"

  const OrganizationMessage := "Please select an organization type"
  const OrganizationNameMessage := "Please enter organization name/ID"
  const IssueDescriptionMessage := "Please describe your grievance"

  /** The three error keys are different strings. */
  lemma KeysDistinct()
    ensures OrganizationKey != OrganizationNameKey && OrganizationKey != IssueDescriptionKey
    ensures OrganizationNameKey != IssueDescriptionKey
  {
    assert |OrganizationKey| == 12 && |OrganizationNameKey| == 16 && |IssueDescriptionKey| == 16;
    assert OrganizationNameKey[0] == 'o' && IssueDescriptionKey[0] == 'i';
  }

  /** The error map `validateForm` builds: one entry for each required field
      that is missing, with that field's fixed message, and nothing else. The
      organization type is only tested for being empty; the two text fields
      count as missing when they are blank, which is when `trim()` leaves
      nothing of them (Text.TrimEmptyIffBlank). */
  function FormErrors(d: GrievanceData): (errors: map<string, string>)
    ensures OrganizationKey in errors <==> d.organization == ""
    ensures OrganizationNameKey in errors <==> IsBlank(d.organizationName)
    ensures IssueDescriptionKey in errors <==> IsBlank(d.issueDescription)
    ensures OrganizationKey in errors ==> errors[OrganizationKey] == OrganizationMessage
    ensures OrganizationNameKey in errors ==> errors[OrganizationNameKey] == OrganizationNameMessage
    ensures IssueDescriptionKey in errors ==> errors[IssueDescriptionKey] == IssueDescriptionMessage
    ensures errors.Keys <= {OrganizationKey, OrganizationNameKey, IssueDescriptionKey}
  {
    KeysDistinct();
    var e0: map<string, string> := map[];
    var e1 := if d.organization == "" then e0[OrganizationKey := OrganizationMessage] else e0;
    var e2 := if IsBlank(d.organizationName) then e1[OrganizationNameKey := OrganizationNameMessage] else e1;
    if IsBlank(d.issueDescription) then e2[IssueDescriptionKey := IssueDescriptionMessage] else e2
  }

  /** The three required fields are filled in. */
  predicate IsComplete(d: GrievanceData) {
    d.organization != "" && !IsBlank(d.organizationName) && !IsBlank(d.issueDescription)
  }

  /** `validateForm` returns true exactly when the error map it built is
      empty, which is exactly when the draft is complete. */
  lemma ValidIffNoErrors(d: GrievanceData)
    ensures |FormErrors(d)| == 0 <==> IsComplete(d)
  {
    var errors := FormErrors(d);
    if !IsComplete(d) {
      if d.organization == "" { assert OrganizationKey in errors; }
      else if IsBlank(d.organizationName) { assert OrganizationNameKey in errors; }
      else { assert IssueDescriptionKey in errors; }
    }
  }

  /** Validation reads only the three text fields: the files and the
      reference ID never affect it. */
  lemma ErrorsIgnoreFilesAndReference(d: GrievanceData, files: seq<FileInfo>, referenceId: Option<string>)
    ensures FormErrors(d.(files := files, referenceId := referenceId)) == FormErrors(d)
  {
  }

  /** The empty draft fails on all three fields. */
  lemma EmptyDraftErrors()
    ensures FormErrors(EmptyDraft) == map[
      OrganizationKey := OrganizationMessage,
      OrganizationNameKey := OrganizationNameMessage,
      IssueDescriptionKey := IssueDescriptionMessage]
  {
    var errors := FormErrors(EmptyDraft);
    assert errors.Keys == {OrganizationKey, OrganizationNameKey, IssueDescriptionKey};
  }

  /** A description of nothing but spaces and line breaks is rejected, while
      organization `NGO` and name `Helping Hands` pass. */
  lemma WhitespaceDescriptionRejected()
    ensures var d := GrievanceData("NGO", "Helping Hands", " \n\t ", [], None);
      FormErrors(d) == map[IssueDescriptionKey := IssueDescriptionMessage]
  {
    var d := GrievanceData("NGO", "Helping Hands", " \n\t ", [], None);
    assert !IsWhitespace(d.organizationName[0]);
    var errors := FormErrors(d);
    assert errors.Keys == {IssueDescriptionKey};
  }
}
