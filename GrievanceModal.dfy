/** The grievance intake form: the component's state and its event handlers,
    each handler one atomic update of that state. */
module GrievanceModal {
  import opened Wrappers
  import opened Text
  import opened Attachments
  import opened Validation
  import opened Submission

  class GrievanceForm {
    /** The draft being edited. */
    var formData: GrievanceData
    /** A dictation capture is in progress. */
    var isListening: bool
    /** The acknowledgement with the reference ID is shown. */
    var isSubmitted: bool
    /** Field name to message, from the last submit attempt. */
    var errors: map<string, string>
    /** The host offers speech recognition. */
    var speechSupported: bool
    /** A recognizer object was constructed. */
    var hasRecognizer: bool
    /** The browser's `localStorage`, key to stored record. */
    var store: map<string, SubmittedRecord>

    /** What every handler keeps: the speech flag agrees with the recognizer,
        listening needs a recognizer, a reference ID is present exactly in the
        acknowledged state and its record is in the store, and no attachment
        has a rejected type. */
    ghost predicate Valid()
      reads this
    {
      && speechSupported == hasRecognizer
      && (isListening ==> hasRecognizer)
      && (formData.referenceId.Some? <==> isSubmitted)
      && (isSubmitted ==>
            var key := StoreKey(formData.referenceId.value);
            key in store && store[key].referenceId == formData.referenceId.value)
      && AllAccepted(formData.files)
    }

    /** The state `resetForm` leaves behind. */
    ghost predicate IsCleared()
      reads this
    {
      formData == EmptyDraft && !isSubmitted && errors == map[]
    }

    /** The initial state together with the mount effect: the recognizer is
        constructed, and `speechSupported` set, exactly when the host offers
        speech recognition. `savedStore` is what `localStorage` already holds. */
    constructor (speechAvailable: bool, savedStore: map<string, SubmittedRecord>)
      ensures Valid() && IsCleared()
      ensures !isListening
      ensures speechSupported == speechAvailable && hasRecognizer == speechAvailable
      ensures store == savedStore
    {
      formData := EmptyDraft;
      isListening := false;
      isSubmitted := false;
      errors := map[];
      speechSupported := speechAvailable;
      hasRecognizer := speechAvailable;
      store := savedStore;
    }

    /** The organization type select box. */
    method SetOrganization(value: string)
      requires Valid()
      modifies this`formData
      ensures Valid()
      ensures formData == old(formData).(organization := value)
    {
      formData := formData.(organization := value);
    }

    /** The organization name/ID input. */
    method SetOrganizationName(value: string)
      requires Valid()
      modifies this`formData
      ensures Valid()
      ensures formData == old(formData).(organizationName := value)
    {
      formData := formData.(organizationName := value);
    }

    /** The description text area. */
    method SetIssueDescription(value: string)
      requires Valid()
      modifies this`formData
      ensures Valid()
      ensures formData == old(formData).(issueDescription := value)
    {
      formData := formData.(issueDescription := value);
    }

    /** `validateForm`: builds a fresh error map field by field, replaces the
        old one with it wholesale, and reports whether it is empty. */
    method ValidateForm() returns (valid: bool)
      modifies this`errors
      ensures errors == FormErrors(formData)
      ensures valid <==> IsComplete(formData)
    {
      KeysDistinct();
      TrimEmptyIffBlank(formData.organizationName);
      TrimEmptyIffBlank(formData.issueDescription);
      var newErrors: map<string, string> := map[];
      if formData.organization == "" {
        newErrors := newErrors[OrganizationKey := OrganizationMessage];
      }
      if Trim(formData.organizationName) == "" {
        newErrors := newErrors[OrganizationNameKey := OrganizationNameMessage];
      }
      if Trim(formData.issueDescription) == "" {
        newErrors := newErrors[IssueDescriptionKey := IssueDescriptionMessage];
      }
      errors := newErrors;
      valid := |newErrors| == 0;
      ValidIffNoErrors(formData);
    }

    /** `handleSubmit` with the uuid drawn and the time stamp taken. A failed
        validation changes only the error map. A passing one records the
        reference ID in the draft, switches to the acknowledged state and
        writes the record under `grievance_` + reference ID. */
    method Submit(uuid: string, submittedAt: string)
      requires Valid()
      modifies this`formData, this`isSubmitted, this`errors, this`store
      ensures Valid()
      ensures errors == FormErrors(old(formData))
      ensures !IsComplete(old(formData)) ==>
        formData == old(formData) && isSubmitted == old(isSubmitted) && store == old(store)
      ensures IsComplete(old(formData)) ==>
        var id := ReferenceId(uuid);
        && formData == old(formData).(referenceId := Some(id))
        && isSubmitted
        && store == old(store)[StoreKey(id) := RecordOf(old(formData), id, submittedAt)]
    {
      var valid := ValidateForm();
      if !valid {
        return;
      }
      var referenceId := ReferenceId(uuid);
      var submittedData := RecordOf(formData, referenceId, submittedAt);
      formData := formData.(referenceId := Some(referenceId));
      isSubmitted := true;
      store := store[StoreKey(referenceId) := submittedData];
    }

    /** `handleFileUpload`: the accepted files of the selection are appended
        after the current ones. */
    method UploadFiles(selected: seq<FileInfo>)
      requires Valid()
      modifies this`formData
      ensures Valid()
      ensures formData == old(formData).(files := old(formData.files) + KeepAccepted(selected))
    {
      KeepAcceptedAllAccepted(selected);
      formData := formData.(files := formData.files + KeepAccepted(selected));
    }

    /** `removeFile`: drops the file at a valid position and keeps the rest
        in order; any other index leaves the list as it was. */
    method RemoveFile(index: int)
      requires Valid()
      modifies this`formData
      ensures Valid()
      ensures formData == old(formData).(files := formData.files)
      ensures formData.files ==
        if 0 <= index < |old(formData.files)|
        then old(formData.files)[..index] + old(formData.files)[index + 1..]
        else old(formData.files)
    {
      RemoveAtAllAccepted(formData.files, index);
      formData := formData.(files := RemoveAt(formData.files, index));
    }

    /** `startVoiceRecording`: starts listening only when a recognizer exists
        and speech is supported; it does not look at `isListening`. */
    method StartVoiceRecording()
      requires Valid()
      modifies this`isListening
      ensures Valid()
      ensures isListening == ((hasRecognizer && speechSupported) || old(isListening))
    {
      if hasRecognizer && speechSupported {
        isListening := true;
      }
    }

    /** `stopVoiceRecording`: stops listening whenever a recognizer exists. */
    method StopVoiceRecording()
      requires Valid()
      modifies this`isListening
      ensures Valid()
      ensures isListening == (!hasRecognizer && old(isListening))
    {
      if hasRecognizer {
        isListening := false;
      }
    }

    /** The microphone button: stop while listening, start otherwise. */
    method ToggleVoiceRecording()
      requires Valid()
      modifies this`isListening
      ensures Valid()
      ensures isListening == (!old(isListening) && hasRecognizer)
    {
      if isListening {
        StopVoiceRecording();
      } else {
        StartVoiceRecording();
      }
    }

    /** The recognizer's `onresult`: the transcript is appended to the
        description after one space, even when the description is empty. */
    method OnRecognitionResult(transcript: string)
      requires Valid()
      modifies this`formData, this`isListening
      ensures Valid()
      ensures formData == old(formData).(issueDescription := old(formData.issueDescription) + " " + transcript)
      ensures !isListening
    {
      formData := formData.(issueDescription := formData.issueDescription + " " + transcript);
      isListening := false;
    }

    /** The recognizer's `onerror`: listening ends, the text stays. */
    method OnRecognitionError()
      requires Valid()
      modifies this`isListening
      ensures Valid()
      ensures !isListening
    {
      isListening := false;
    }

    /** The recognizer's `onend`: listening ends, the text stays. */
    method OnRecognitionEnd()
      requires Valid()
      modifies this`isListening
      ensures Valid()
      ensures !isListening
    {
      isListening := false;
    }

    /** `resetForm`: an empty draft without reference ID, the form state and
        no errors; the listening flag, the recognizer and the store are kept.
        Resetting a cleared form changes nothing. */
    method ResetForm()
      requires Valid()
      modifies this`formData, this`isSubmitted, this`errors
      ensures Valid() && IsCleared()
      ensures old(IsCleared()) ==> unchanged(this)
    {
      formData := EmptyDraft;
      isSubmitted := false;
      errors := map[];
    }

    /** `handleClose`: resets the form; the host's `onClose` then hides it. */
    method HandleClose()
      requires Valid()
      modifies this`formData, this`isSubmitted, this`errors
      ensures Valid() && IsCleared()
      ensures old(IsCleared()) ==> unchanged(this)
    {
      ResetForm();
    }
  }

  /** A complete grievance is submitted, acknowledged with an eight-digit
      reference ID, stored under it, and the form is closed again. */
  method SubmissionScenario(uuid: string, submittedAt: string)
    requires IsV4Uuid(uuid)
  {
    var form := new GrievanceForm(false, map[]);
    form.SetOrganization("NGO");
    form.SetOrganizationName("Helping Hands");
    form.SetIssueDescription("Unsafe working conditions");
    assert !IsWhitespace(form.formData.organizationName[0]);
    assert !IsWhitespace(form.formData.issueDescription[0]);
    form.Submit(uuid, submittedAt);
    assert form.isSubmitted && form.errors == map[];
    var id := form.formData.referenceId.value;
    ReferenceIdOfV4Uuid(uuid);
    assert |id| == 8 && IsUpperHexDigit(id[0]);
    var stored := form.store[StoreKey(id)];
    assert stored.organization == "NGO" && stored.organizationName == "Helping Hands";
    assert stored.issueDescription == "Unsafe working conditions" && stored.submittedAt == submittedAt;
    form.HandleClose();
    assert form.formData == EmptyDraft && !form.isSubmitted;
    assert form.store[StoreKey(id)] == stored;
  }

  /** A blank description blocks the submit and keeps the typed data. */
  method FailedSubmissionScenario(uuid: string, submittedAt: string) {
    var form := new GrievanceForm(true, map[]);
    form.SetOrganization("Labor Officer");
    form.SetIssueDescription("   ");
    form.Submit(uuid, submittedAt);
    assert OrganizationNameKey in form.errors && IssueDescriptionKey in form.errors;
    assert OrganizationKey !in form.errors;
    assert !form.isSubmitted && form.store == map[];
    assert form.formData.organization == "Labor Officer";
  }

  /** Dictation appends to typed text with one separating space. */
  method DictationScenario() {
    var form := new GrievanceForm(true, map[]);
    form.SetIssueDescription("leak in roof");
    form.ToggleVoiceRecording();
    assert form.isListening;
    form.OnRecognitionResult("also broken window");
    assert form.formData.issueDescription == "leak in roof also broken window";
    form.OnRecognitionEnd();
    assert !form.isListening && form.formData.issueDescription == "leak in roof also broken window";
  }
}
