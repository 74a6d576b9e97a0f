/**
 * The request body of the prediction endpoint: eleven fields, six numeric ones
 * with closed ranges and five categorical ones restricted to fixed literals.
 * A `StudentRequest` is the body as it arrives; `Validate` turns it into a
 * `StudentInput`, whose categorical fields are closed datatypes.
 */
module Inputs {
  import opened Wrappers
  import opened Selection

  /** The literals 'Low', 'Medium', 'High'. */
  datatype Level = Low | Medium | High

  /** The literals 'High School', 'College', 'Postgraduate'. */
  datatype EducationLevel = HighSchool | College | Postgraduate

  /** The literals 'Yes', 'No'. */
  datatype InternetAccess = Yes | No

  datatype StudentInput = StudentInput(
    hoursStudied: real,
    attendance: real,
    parentalInvolvement: Level,
    accessToResources: Level,
    sleepHours: real,
    previousScores: real,
    tutoringSessions: real,
    familyIncome: Level,
    parentalEducationLevel: EducationLevel,
    internetAccess: InternetAccess,
    physicalActivity: real)

  /** The body as received: numbers, and strings not yet checked. */
  datatype StudentRequest = StudentRequest(
    hoursStudied: real,
    attendance: real,
    parentalInvolvement: string,
    accessToResources: string,
    sleepHours: real,
    previousScores: real,
    tutoringSessions: real,
    familyIncome: string,
    parentalEducationLevel: string,
    internetAccess: string,
    physicalActivity: real)

  predicate InRange(lo: real, x: real, hi: real) {
    lo <= x <= hi
  }

  /** The `ge`/`le` bounds declared on the six numeric fields. */
  predicate ValidInput(s: StudentInput) {
    InRange(0.0, s.hoursStudied, 20.0)
    && InRange(0.0, s.attendance, 100.0)
    && InRange(3.0, s.sleepHours, 12.0)
    && InRange(0.0, s.previousScores, 100.0)
    && InRange(0.0, s.tutoringSessions, 10.0)
    && InRange(0.0, s.physicalActivity, 15.0)
  }

  function LevelText(l: Level): string {
    match l
    case Low => "Low"
    case Medium => "Medium"
    case High => "High"
  }

  function EducationText(e: EducationLevel): string {
    match e
    case HighSchool => "High School"
    case College => "College"
    case Postgraduate => "Postgraduate"
  }

  function InternetText(i: InternetAccess): string {
    match i
    case Yes => "Yes"
    case No => "No"
  }

  /** The validator of the three Low/Medium/High fields. */
  function ParseLevel(t: string): (r: Option<Level>)
    ensures r.Some? <==> t in ["Low", "Medium", "High"]
    ensures r.Some? ==> LevelText(r.value) == t
  {
    if t == "Low" then Some(Low)
    else if t == "Medium" then Some(Medium)
    else if t == "High" then Some(High)
    else None
  }

  /** The validator of `parental_education_level`. */
  function ParseEducation(t: string): (r: Option<EducationLevel>)
    ensures r.Some? <==> t in ["High School", "College", "Postgraduate"]
    ensures r.Some? ==> EducationText(r.value) == t
  {
    if t == "High School" then Some(HighSchool)
    else if t == "College" then Some(College)
    else if t == "Postgraduate" then Some(Postgraduate)
    else None
  }

  /** The validator of `internet_access`. */
  function ParseInternet(t: string): (r: Option<InternetAccess>)
    ensures r.Some? <==> t in ["Yes", "No"]
    ensures r.Some? ==> InternetText(r.value) == t
  {
    if t == "Yes" then Some(Yes)
    else if t == "No" then Some(No)
    else None
  }

  /** Field names of the request body, in declaration order. */
  const FieldNames: seq<string> := [
    "hours_studied", "attendance", "parental_involvement", "access_to_resources",
    "sleep_hours", "previous_scores", "tutoring_sessions", "family_income",
    "parental_education_level", "internet_access", "physical_activity"]

  /** For each field, in declaration order, whether it breaks its constraint. */
  function Violations(req: StudentRequest): (r: seq<bool>)
    ensures |r| == |FieldNames|
  {
    [ !InRange(0.0, req.hoursStudied, 20.0),
      !InRange(0.0, req.attendance, 100.0),
      ParseLevel(req.parentalInvolvement).None?,
      ParseLevel(req.accessToResources).None?,
      !InRange(3.0, req.sleepHours, 12.0),
      !InRange(0.0, req.previousScores, 100.0),
      !InRange(0.0, req.tutoringSessions, 10.0),
      ParseLevel(req.familyIncome).None?,
      ParseEducation(req.parentalEducationLevel).None?,
      ParseInternet(req.internetAccess).None?,
      !InRange(0.0, req.physicalActivity, 15.0) ]
  }

  /**
   * Request validation: either every field meets its constraint and the typed
   * input is built, or the request is refused with the names of all the
   * fields that break theirs, in declaration order.
   */
  function Validate(req: StudentRequest): (r: Result<StudentInput, seq<string>>)
  {
    var bad := Violations(req);
    var errors := Select(bad, FieldNames);
    SelectLength(bad, FieldNames, |bad|);
    CountBounds(bad, |bad|);
    if errors != [] then
      Failure(errors)
    else
      assert !bad[2] && !bad[3] && !bad[7] && !bad[8] && !bad[9];
      Success(StudentInput(
        req.hoursStudied, req.attendance,
        ParseLevel(req.parentalInvolvement).value, ParseLevel(req.accessToResources).value,
        req.sleepHours, req.previousScores, req.tutoringSessions,
        ParseLevel(req.familyIncome).value,
        ParseEducation(req.parentalEducationLevel).value,
        ParseInternet(req.internetAccess).value,
        req.physicalActivity))
  }

  /** The request body a client sends for a given input. */
  function Render(s: StudentInput): StudentRequest {
    StudentRequest(
      s.hoursStudied, s.attendance,
      LevelText(s.parentalInvolvement), LevelText(s.accessToResources),
      s.sleepHours, s.previousScores, s.tutoringSessions,
      LevelText(s.familyIncome), EducationText(s.parentalEducationLevel),
      InternetText(s.internetAccess), s.physicalActivity)
  }

  /** An accepted request yields an input within every bound, carrying the request's values. */
  lemma {:induction false} ValidateSound(req: StudentRequest)
    requires Validate(req).Success?
    ensures ValidInput(Validate(req).value)
    ensures Render(Validate(req).value) == req
  {
    var bad := Violations(req);
    SelectLength(bad, FieldNames, |bad|);
    CountBounds(bad, |bad|);
    assert !bad[0] && !bad[1] && !bad[4] && !bad[5] && !bad[6] && !bad[10];
    assert !bad[2] && !bad[3] && !bad[7] && !bad[8] && !bad[9];
  }

  /** A refused request names exactly the fields that break their constraints, and at least one. */
  lemma {:induction false} ValidateReportsViolations(req: StudentRequest, field: nat)
    requires Validate(req).Failure?
    requires field < |FieldNames|
    ensures Validate(req).error != []
    ensures FieldNames[field] in Validate(req).error <==> Violations(req)[field]
  {
    var bad := Violations(req);
    CountBounds(bad, |bad|);
    SelectLength(bad, FieldNames, |bad|);
    SelectMember(bad, FieldNames, |bad|, FieldNames[field]);
    assert forall i, j :: 0 <= i < j < |FieldNames| ==> FieldNames[i] != FieldNames[j];
  }

  /** Every valid input, sent as the client would send it, is accepted unchanged. */
  lemma {:induction false} ValidateRender(s: StudentInput)
    requires ValidInput(s)
    ensures Validate(Render(s)) == Success(s)
  {
    var bad := Violations(Render(s));
    CountBounds(bad, |bad|);
    SelectLength(bad, FieldNames, |bad|);
    assert forall i :: 0 <= i < |bad| ==> !bad[i];
  }
}
