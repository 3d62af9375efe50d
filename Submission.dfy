/** What a successful submit derives and stores: the short reference ID,
    the storage key and the stored record. */
module Submission {
  import opened Text
  import opened Attachments
  import opened Validation

  /** `uuid.substring(0, 8).toUpperCase()`. */
  function ReferenceId(uuid: string): (id: string)
    ensures |id| == if |uuid| < 8 then |uuid| else 8
    ensures forall i :: 0 <= i < |id| ==> id[i] == UpperChar(uuid[i])
  {
    ToUpper(Prefix(uuid, 8))
  }

  predicate IsLowerHexDigit(c: char) {
    '0' <= c <= '9' || 'a' <= c <= 'f'
  }

  predicate IsUpperHexDigit(c: char) {
    '0' <= c <= '9' || 'A' <= c <= 'F'
  }

  /** The text of a version-4 uuid as the uuid library writes it: 36
      characters in groups 8-4-4-4-12 of lower-case hex digits separated by
      dashes, with version digit `4` and a variant digit among `8`, `9`, `a`,
      `b`. */
  predicate IsV4Uuid(u: string) {
    && |u| == 36
    && (forall i :: 0 <= i < 36 ==>
          if i == 8 || i == 13 || i == 18 || i == 23 then u[i] == '-' else IsLowerHexDigit(u[i]))
    && u[14] == '4'
    && (u[19] == '8' || u[19] == '9' || u[19] == 'a' || u[19] == 'b')
  }

  /** For a v4 uuid the reference ID is eight upper-case hex digits. */
  lemma ReferenceIdOfV4Uuid(uuid: string)
    requires IsV4Uuid(uuid)
    ensures |ReferenceId(uuid)| == 8
    ensures forall i :: 0 <= i < 8 ==> IsUpperHexDigit(ReferenceId(uuid)[i])
  {
    var id := ReferenceId(uuid);
    forall i | 0 <= i < 8 ensures IsUpperHexDigit(id[i]) {
      assert IsLowerHexDigit(uuid[i]);
    }
  }

  /** The reference ID of any input holds no lower-case ASCII letter. */
  lemma ReferenceIdHasNoLowerCase(uuid: string)
    ensures forall i :: 0 <= i < |ReferenceId(uuid)| ==> !('a' <= ReferenceId(uuid)[i] <= 'z')
  {
    var id := ReferenceId(uuid);
    forall i | 0 <= i < |id| ensures !('a' <= id[i] <= 'z') {
      assert id[i] == UpperChar(uuid[i]);
    }
  }


  const StorePrefix := "grievance_"

  /** The `localStorage` key the record is written under. */
  function StoreKey(referenceId: string): (key: string)
    ensures |key| == |StorePrefix| + |referenceId|
    ensures StartsWith(key, StorePrefix) && key[|StorePrefix|..] == referenceId
  {
    StorePrefix + referenceId
  }

  /** Different reference IDs are stored under different keys. */
  lemma StoreKeyInjective(a: string, b: string)
    requires StoreKey(a) == StoreKey(b)
    ensures a == b
  {
    assert a == StoreKey(a)[|StorePrefix|..];
  }

  /** The `submittedData` object: the draft's fields, the new reference ID
      and the submission time stamp. */
  datatype SubmittedRecord = SubmittedRecord(
    organization: string,
    organizationName: string,
    issueDescription: string,
    files: seq<FileInfo>,
    referenceId: string,
    submittedAt: string)

  /** `{ ...formData, referenceId, submittedAt }`: the draft's own fields are
      copied, an earlier reference ID of the draft is overridden. */
  function RecordOf(d: GrievanceData, referenceId: string, submittedAt: string): (r: SubmittedRecord)
    ensures r.organization == d.organization && r.organizationName == d.organizationName
    ensures r.issueDescription == d.issueDescription && r.files == d.files
    ensures r.referenceId == referenceId && r.submittedAt == submittedAt
  {
    SubmittedRecord(d.organization, d.organizationName, d.issueDescription, d.files, referenceId, submittedAt)
  }
}
