/** Names of training Jobs: the name that an apply renders from an approval id and the name that
reconciliation looks up. Ids are ASCII strings. */
module JobNames {
  import opened Wrappers

  const PREFIX := "credit-training-"

  predicate IsUpper(c: char) { 'A' <= c <= 'Z' }

  predicate IsAlnum(c: char) { 'a' <= c <= 'z' || '0' <= c <= '9' }

  predicate IsLabelChar(c: char) { IsAlnum(c) || c == '-' }

  /** The ASCII characters that `str.strip` removes. */
  predicate IsSpace(c: char) {
    c == ' ' || '\t' <= c <= '\r' || 28 as char <= c <= 31 as char
  }

  function Lower(c: char): char {
    if IsUpper(c) then (c as int + 32) as char else c
  }

  function LowerAll(s: string): (r: string)
    ensures |r| == |s|
    ensures forall i :: 0 <= i < |s| ==> r[i] == Lower(s[i])
  {
    seq(|s|, i requires 0 <= i < |s| => Lower(s[i]))
  }

  function StripLeft(s: string): string {
    if s != [] && IsSpace(s[0]) then StripLeft(s[1..]) else s
  }

  function StripRight(s: string): string {
    if s != [] && IsSpace(s[|s| - 1]) then StripRight(s[..|s| - 1]) else s
  }

  /** `JOB_ID_RE`: an alphanumeric, then optionally up to 38 label characters and an alphanumeric. */
  predicate MatchesId(s: string) {
    && |s| >= 1
    && IsAlnum(s[0])
    && (|s| == 1
        || (|s| <= 40 && IsAlnum(s[|s| - 1]) && forall i :: 1 <= i < |s| - 1 ==> IsLabelChar(s[i])))
  }

  /** `JOB_NAME_RE`. */
  predicate MatchesName(s: string) {
    |s| >= |PREFIX| && s[..|PREFIX|] == PREFIX && MatchesId(s[|PREFIX|..])
  }

  datatype NameError = BadExecutionId

  function Canonical(executionId: string): string {
    StripRight(StripLeft(LowerAll(executionId)))
  }

  /** The name that `apply_training_job` gives the Job. */
  function JobName(executionId: string): Result<string, NameError> {
    var safeId := Canonical(executionId);
    if MatchesId(safeId) then Ok(PREFIX + safeId) else Err(BadExecutionId)
  }

  /** The name that reconciliation builds from the id as it stands. */
  function LookupName(approvalId: string): string {
    PREFIX + approvalId
  }

  lemma IdCharacters(s: string)
    requires MatchesId(s)
    ensures forall i :: 0 <= i < |s| ==> IsLabelChar(s[i]) && !IsSpace(s[i]) && !IsUpper(s[i])
  {
  }

  lemma CanonicalFixesIds(id: string)
    requires MatchesId(id)
    ensures Canonical(id) == id
  {
    IdCharacters(id);
    assert LowerAll(id) == id;
  }

  lemma LookupAcceptsIds(id: string)
    ensures MatchesName(LookupName(id)) <==> MatchesId(id)
  {
    assert LookupName(id)[|PREFIX|..] == id;
    assert LookupName(id)[..|PREFIX|] == PREFIX;
  }

  lemma LookupsDiffer(x: string, y: string)
    ensures LookupName(x) == LookupName(y) <==> x == y
  {
    assert LookupName(x)[|PREFIX|..] == x;
    assert LookupName(y)[|PREFIX|..] == y;
  }

  /** Apply and reconciliation use one name for an id exactly when the id is already a valid one; and
      the lookup validator accepts no other id, so a lookup never concerns another Job than the apply's. */
  lemma NamesCohere(id: string)
    ensures JobName(id) == Ok(LookupName(id)) <==> MatchesId(id)
    ensures MatchesName(LookupName(id)) <==> MatchesId(id)
    ensures MatchesName(LookupName(id)) ==> JobName(id) == Ok(LookupName(id))
  {
    LookupAcceptsIds(id);
    LookupsDiffer(id, Canonical(id));
    if MatchesId(id) { CanonicalFixesIds(id); }
  }

  /** Two ids share a Job exactly when lowering and trimming makes them the same; valid ids never do. */
  lemma NamesInjective(x: string, y: string)
    requires JobName(x).Ok? && JobName(y).Ok?
    ensures JobName(x) == JobName(y) <==> Canonical(x) == Canonical(y)
    ensures MatchesId(x) && MatchesId(y) ==> (JobName(x) == JobName(y) <==> x == y)
  {
    LookupsDiffer(Canonical(x), Canonical(y));
    if MatchesId(x) { CanonicalFixesIds(x); }
    if MatchesId(y) { CanonicalFixesIds(y); }
  }

  /** A host label by section 2.1 of RFC 1123, within the 63 octets of section 2.3.4 of RFC 1035. */
  predicate HostLabel(s: string) {
    && 1 <= |s| <= 63
    && IsAlnum(s[0]) && IsAlnum(s[|s| - 1])
    && forall i :: 0 <= i < |s| ==> IsLabelChar(s[i])
  }

  lemma NamesAreHostLabels(id: string)
    requires JobName(id).Ok?
    ensures HostLabel(JobName(id).value) && MatchesName(JobName(id).value)
  {
    var safeId := Canonical(id);
    var name := PREFIX + safeId;
    IdCharacters(safeId);
    LookupAcceptsIds(safeId);
    forall i | 0 <= i < |name| ensures IsLabelChar(name[i]) {
      if i < |PREFIX| { PrefixCharacter(i); } else { assert name[i] == safeId[i - |PREFIX|]; }
    }
    PrefixCharacter(0);
  }

  lemma PrefixCharacter(i: nat)
    requires i < |PREFIX|
    ensures |PREFIX| == 16 && IsLabelChar(PREFIX[i]) && (i == 0 ==> IsAlnum(PREFIX[i]))
  {
  }

  /** What `str(uuid4())` looks like: 36 characters, lower-case hexadecimal digits and four hyphens. */
  predicate UuidShape(s: string) {
    && |s| == 36
    && forall i :: 0 <= i < 36 ==>
         if i in {8, 13, 18, 23} then s[i] == '-' else ('0' <= s[i] <= '9' || 'a' <= s[i] <= 'f')
  }

  /** The ids that the API draws are valid. */
  lemma UuidsAreIds(s: string)
    requires UuidShape(s)
    ensures MatchesId(s)
  {
    assert IsAlnum(s[0]) && IsAlnum(s[35]);
  }
}
