/**
 * The Student model of the JISC 1.2.7 plugin: its schema table, and the
 * save and remove hooks that keep its relations consistent.
 *
 * On save the hook fans out foreign-side updates (write the student's id
 * into, or remove it from, back-references on assessment, course, membership
 * and module instances, on institutions and on the tutor's staff record) and
 * local-side updates (recompute the student's own relation arrays and
 * `tutor`). Whether the foreign side adds or removes is the `deleted` flag;
 * on remove it always removes, and the local side is not run.
 */
module StudentModel {
  import opened Base
  import opened Scopes
  import opened Schemas
  import opened Store

  // ---------------------------------------------------------------------
  // Schema table
  // ---------------------------------------------------------------------

  const IdentifierAccess: seq<Scope> := [ALL, UDD_READ, STUDENT_APP, TRIBAL_INSIGHT, LAP, SSP, OPENDASH]
  const RecordAccess: seq<Scope> := [ALL, UDD_READ, TRIBAL_INSIGHT, LAP, SSP]
  const AppAccess: seq<Scope> := [ALL, UDD_READ, STUDENT_APP, TRIBAL_INSIGHT, SSP, OPENDASH]
  const ContactAccess: seq<Scope> := [ALL, UDD_READ, SSP]
  const BaseScopes: seq<Scope> := [ALL, STUDENT_APP, TRIBAL_INSIGHT, LAP, SSP, OPENDASH]

  /**
   * The Student table. The ethnicity and domicile code lists are not part of
   * this model, so they are parameters; both enums also admit null.
   */
  function StudentSchema(ethnicityCodes: set<string>, domiciles: set<string>): Schema {
    ScopedSchema(map[
      "STUDENT_ID" := RequiredString(IdentifierAccess),
      "ULN" := Scoped(StringType, RecordAccess),
      "DOB" := Scoped(DateType, RecordAccess),
      "ETHNICITY" := NullableCode(ethnicityCodes, RecordAccess),
      "SEXID" := BoundedNumber(1, 4, RecordAccess),
      "LEARN_DIF" := BoundedNumber(1, 99, RecordAccess),
      "DISABILITY1" := BoundedNumber(0, 99, RecordAccess),
      "DISABILITY2" := BoundedNumber(0, 99, RecordAccess),
      "DOMICILE" := NullableCode(domiciles, RecordAccess),
      "TERMTIME_ACCOM" := BoundedNumber(1, 9, RecordAccess),
      "PARENTS_ED" := BoundedNumber(1, 9, RecordAccess),
      "SOCIO_EC" := BoundedNumber(1, 9, RecordAccess),
      "OVERSEAS" := Scoped(NumberType, RecordAccess),
      "APPSHIB_ID" := Scoped(StringType, IdentifierAccess),
      "VLE_ID" := Scoped(StringType, IdentifierAccess),
      "HUS_ID" := Scoped(StringType, RecordAccess),
      "USERNAME" := Scoped(StringType, AppAccess),
      "LAST_NAME" := Scoped(StringType, AppAccess),
      "FIRST_NAME" := Scoped(StringType, AppAccess),
      "ADDRESS_LINE_1" := Scoped(StringType, ContactAccess),
      "ADDRESS_LINE_2" := Scoped(StringType, ContactAccess),
      "ADDRESS_LINE_3" := Scoped(StringType, ContactAccess),
      "ADDRESS_LINE_4" := Scoped(StringType, ContactAccess),
      "POSTCODE" := Scoped(StringType, ContactAccess),
      "PRIMARY_EMAIL_ADDRESS" := Scoped(StringType, [ALL, UDD_READ, TRIBAL_INSIGHT, SSP]),
      "HOME_PHONE" := Scoped(StringType, ContactAccess),
      "MOBILE_PHONE" := Scoped(StringType, ContactAccess),
      "PHOTO_URL" := Scoped(StringType, [ALL, UDD_READ, SSP, OPENDASH]),
      "TUTOR_STAFF_ID" := Scoped(StringType, [ALL, UDD_READ, TRIBAL_INSIGHT, SSP, OPENDASH]),
      "ENTRY_POSTCODE" := Unscoped(StringType),
      "studentAssessmentInstances" := Scoped(ObjectIdArrayType, AppAccess),
      "studentCourseInstances" := Scoped(ObjectIdArrayType, AppAccess),
      "studentCourseMemberships" := Scoped(ObjectIdArrayType, AppAccess),
      "studentModuleInstances" := Scoped(ObjectIdArrayType, AppAccess),
      "tutor" := Scoped(ObjectIdType, AppAccess),
      "organisation" := Unscoped(ObjectIdType)
    ], BaseScopes, Some({"organisation", "STUDENT_ID"}))
  }

  /** The base list writes; UDD_READ only reads. */
  lemma StudentScopes(ethnicityCodes: set<string>, domiciles: set<string>)
    ensures var s := StudentSchema(ethnicityCodes, domiciles);
      && Within(s.writeScopes, s.readScopes)
      && (forall x :: x in s.readScopes && x !in s.writeScopes <==> x == UDD_READ)
      && !CanWrite(s, {UDD_READ}) && Grants({UDD_READ}, s.readScopes)
  {
    var s := StudentSchema(ethnicityCodes, domiciles);
    ReadOnlyScope(s.fields, BaseScopes, s.keep);
  }

  /** LAP may write students and read their records, but not their names or relations. */
  lemma LapWritesButCannotReadRelations(ethnicityCodes: set<string>, domiciles: set<string>)
    ensures var s := StudentSchema(ethnicityCodes, domiciles);
      && CanWrite(s, {LAP}) && CanRead(s, "SEXID", {LAP})
      && !CanRead(s, "tutor", {LAP}) && !CanRead(s, "studentCourseInstances", {LAP})
  {
    var s := StudentSchema(ethnicityCodes, domiciles);
    assert s.writeScopes[3] == LAP;
    assert s.fields["SEXID"].readAccess.value[3] == LAP;
  }

  /**
   * The universal scope reads every declared field and UDD_READ every field
   * with a readAccess list; the organisation is visible to every caller,
   * while ENTRY_POSTCODE, which has no list, is read only with the universal
   * scope.
   */
  lemma StudentFieldAccess(ethnicityCodes: set<string>, domiciles: set<string>, name: string, granted: set<Scope>)
    requires name in StudentSchema(ethnicityCodes, domiciles).fields
    ensures var s := StudentSchema(ethnicityCodes, domiciles);
      && CanRead(s, name, {ALL})
      && (s.fields[name].readAccess.Some? ==> CanRead(s, name, {UDD_READ}))
      && CanRead(s, "organisation", granted)
      && (CanRead(s, "ENTRY_POSTCODE", granted) <==> ALL in granted)
  {
    var s := StudentSchema(ethnicityCodes, domiciles);
    if s.fields[name].readAccess.Some? {
      var l := s.fields[name].readAccess.value;
      assert l[1] == UDD_READ;
    }
  }

  /** A valid student document has a STUDENT_ID that is, once cast, a non-empty string. */
  lemma StudentIdPresent(ethnicityCodes: set<string>, domiciles: set<string>, doc: Document)
    requires IsValid(StudentSchema(ethnicityCodes, domiciles), doc)
    ensures "STUDENT_ID" in doc
    ensures var r := CastDocument(StudentSchema(ethnicityCodes, domiciles), doc);
      r["STUDENT_ID"].Text? && |r["STUDENT_ID"].s| > 0
  {
    ValidRequiredString(StudentSchema(ethnicityCodes, domiciles), doc, "STUDENT_ID");
  }

  /** SEXID and LEARN_DIF of a valid student document are, once cast, within their code ranges. */
  lemma StudentProfileBounds(ethnicityCodes: set<string>, domiciles: set<string>, doc: Document)
    requires IsValid(StudentSchema(ethnicityCodes, domiciles), doc)
    ensures var r := CastDocument(StudentSchema(ethnicityCodes, domiciles), doc);
      InRange(r, "SEXID", 1, 4) && InRange(r, "LEARN_DIF", 1, 99)
  {
    var s := StudentSchema(ethnicityCodes, domiciles);
    ValidBounded(s, doc, "SEXID");
    ValidBounded(s, doc, "LEARN_DIF");
  }

  /** DISABILITY1 and DISABILITY2 of a valid student document are, once cast, within [0, 99]. */
  lemma StudentDisabilityBounds(ethnicityCodes: set<string>, domiciles: set<string>, doc: Document)
    requires IsValid(StudentSchema(ethnicityCodes, domiciles), doc)
    ensures var r := CastDocument(StudentSchema(ethnicityCodes, domiciles), doc);
      InRange(r, "DISABILITY1", 0, 99) && InRange(r, "DISABILITY2", 0, 99)
  {
    var s := StudentSchema(ethnicityCodes, domiciles);
    ValidBounded(s, doc, "DISABILITY1");
    ValidBounded(s, doc, "DISABILITY2");
  }

  /** TERMTIME_ACCOM, PARENTS_ED and SOCIO_EC of a valid student document are, once cast, within [1, 9]. */
  lemma StudentBackgroundBounds(ethnicityCodes: set<string>, domiciles: set<string>, doc: Document)
    requires IsValid(StudentSchema(ethnicityCodes, domiciles), doc)
    ensures var r := CastDocument(StudentSchema(ethnicityCodes, domiciles), doc);
      InRange(r, "TERMTIME_ACCOM", 1, 9) && InRange(r, "PARENTS_ED", 1, 9) && InRange(r, "SOCIO_EC", 1, 9)
  {
    var s := StudentSchema(ethnicityCodes, domiciles);
    ValidBounded(s, doc, "TERMTIME_ACCOM");
    ValidBounded(s, doc, "PARENTS_ED");
    ValidBounded(s, doc, "SOCIO_EC");
  }

  /** ETHNICITY and DOMICILE accept null, and otherwise exactly the listed codes; a number is cast to its numeral first. */
  lemma StudentCodes(ethnicityCodes: set<string>, domiciles: set<string>, code: string, n: int)
    ensures var s := StudentSchema(ethnicityCodes, domiciles);
      && Passes(s.fields["ETHNICITY"], Some(Null)) && Passes(s.fields["DOMICILE"], Some(Null))
      && (Passes(s.fields["ETHNICITY"], Some(Text(code))) <==> code in ethnicityCodes)
      && (Passes(s.fields["DOMICILE"], Some(Text(code))) <==> code in domiciles)
      && (Passes(s.fields["ETHNICITY"], Some(Number(n))) <==> Decimal(n) in ethnicityCodes)
  {
  }

  /** Flushing a soft-deleted student keeps its organisation and STUDENT_ID, empties its other strings and drops its codes. */
  lemma StudentFlushKeepsKey(ethnicityCodes: set<string>, domiciles: set<string>, doc: Document)
    ensures var s := StudentSchema(ethnicityCodes, domiciles);
      var r := Flush(s, s.keep.value, doc);
      && (forall name :: name in doc && (name == "STUDENT_ID" || name in AlwaysVisible) ==> name in r && r[name] == doc[name])
      && ("FIRST_NAME" in doc ==> "FIRST_NAME" in r && r["FIRST_NAME"] == Text(""))
      && "SEXID" !in r
  {
    var s := StudentSchema(ethnicityCodes, domiciles);
    assert IsStringPath(s, "FIRST_NAME");
    assert !IsStringPath(s, "SEXID");
  }

  /** Flushing a soft-deleted student removes its dates and its relations. */
  lemma StudentFlushDropsRelations(ethnicityCodes: set<string>, domiciles: set<string>, doc: Document)
    ensures var s := StudentSchema(ethnicityCodes, domiciles);
      var r := Flush(s, s.keep.value, doc);
      && "DOB" !in r && "tutor" !in r && "studentCourseMemberships" !in r && "studentCourseInstances" !in r
  {
    var s := StudentSchema(ethnicityCodes, domiciles);
    assert !IsStringPath(s, "DOB") && !IsStringPath(s, "tutor");
    assert !IsStringPath(s, "studentCourseMemberships") && !IsStringPath(s, "studentCourseInstances");
  }

  /** STUDENT_ID is the only required field. */
  lemma StudentRequiredFields(ethnicityCodes: set<string>, domiciles: set<string>)
    ensures RequiredFields(StudentSchema(ethnicityCodes, domiciles)) == {"STUDENT_ID"}
  {
    var s := StudentSchema(ethnicityCodes, domiciles);
    assert s.fields["STUDENT_ID"].required;
  }

  /** The unique index on (organisation, STUDENT_ID). */
  const StudentKeyIndex := UniqueIndex(Store.Student, "STUDENT_ID")

  // ---------------------------------------------------------------------
  // Relation queries
  // ---------------------------------------------------------------------

  /** Documents of the student: same organisation and STUDENT_ID. */
  function StudentQuery(organisation: ObjectId, studentId: string): Query {
    Query(organisation, map["STUDENT_ID" := Some(studentId)])
  }

  /** The tutor: the staff record whose STAFF_ID is the student's TUTOR_STAFF_ID. */
  function TutorQuery(organisation: ObjectId, tutorStaffId: Option<string>): Query {
    Query(organisation, map["STAFF_ID" := tutorStaffId])
  }

  /** Every document of the organisation. */
  function OrganisationQuery(organisation: ObjectId): Query {
    Query(organisation, map[])
  }

  /** The collections whose `student` field points back at a student. */
  const BackReferencing: set<Collection> :=
    {StudentAssessmentInstance, Store.StudentCourseInstance, StudentCourseMembership, StudentModuleInstance}

  /**
   * The seven foreign-side updates of one save or remove, in the order the
   * source lists them. The StudentCourseInstance update appears twice there,
   * and twice here.
   */
  function ForeignEffect(cols: Collections, id: ObjectId, organisation: ObjectId, studentId: string,
                         tutorStaffId: Option<string>, remove: bool): (r: Collections)
    requires forall c: Collection :: c in cols
    ensures r.Keys == cols.Keys
  {
    var q := StudentQuery(organisation, studentId);
    var v := if remove then None else Some(id);
    var c1 := SetSingularIn(cols, StudentAssessmentInstance, q, "student", v);
    var c2 := SetSingularIn(c1, Store.StudentCourseInstance, q, "student", v);
    var c3 := SetSingularIn(c2, StudentCourseMembership, q, "student", v);
    var c4 := SetSingularIn(c3, Store.StudentCourseInstance, q, "student", v);
    var c5 := SetSingularIn(c4, StudentModuleInstance, q, "student", v);
    var c6 := UpdateMultipleIn(c5, Institution, OrganisationQuery(organisation), "students", id, remove);
    UpdateMultipleIn(c6, Staff, TutorQuery(organisation, tutorStaffId), "mentees", id, remove)
  }

  /**
   * The foreign side never adds, drops or re-keys a document: the store holds
   * the same entities afterwards, so a removed student's counterparts still exist.
   */
  lemma ForeignEffectKeepsDocuments(cols: Collections, id: ObjectId, organisation: ObjectId, studentId: string,
                                    tutorStaffId: Option<string>, remove: bool)
    requires forall c: Collection :: c in cols
    ensures SameEntities(cols, ForeignEffect(cols, id, organisation, studentId, tutorStaffId, remove))
  {
    var q := StudentQuery(organisation, studentId);
    var v := if remove then None else Some(id);
    var c1 := SetSingularIn(cols, StudentAssessmentInstance, q, "student", v);
    SetSingularInSameEntities(cols, StudentAssessmentInstance, q, "student", v);
    var c2 := SetSingularIn(c1, Store.StudentCourseInstance, q, "student", v);
    SetSingularInSameEntities(c1, Store.StudentCourseInstance, q, "student", v);
    SameEntitiesTrans(cols, c1, c2);
    var c3 := SetSingularIn(c2, StudentCourseMembership, q, "student", v);
    SetSingularInSameEntities(c2, StudentCourseMembership, q, "student", v);
    SameEntitiesTrans(cols, c2, c3);
    var c4 := SetSingularIn(c3, Store.StudentCourseInstance, q, "student", v);
    SetSingularInSameEntities(c3, Store.StudentCourseInstance, q, "student", v);
    SameEntitiesTrans(cols, c3, c4);
    var c5 := SetSingularIn(c4, StudentModuleInstance, q, "student", v);
    SetSingularInSameEntities(c4, StudentModuleInstance, q, "student", v);
    SameEntitiesTrans(cols, c4, c5);
    var c6 := UpdateMultipleIn(c5, Institution, OrganisationQuery(organisation), "students", id, remove);
    UpdateMultipleInSameEntities(c5, Institution, OrganisationQuery(organisation), "students", id, remove);
    SameEntitiesTrans(cols, c5, c6);
    var r := UpdateMultipleIn(c6, Staff, TutorQuery(organisation, tutorStaffId), "mentees", id, remove);
    UpdateMultipleInSameEntities(c6, Staff, TutorQuery(organisation, tutorStaffId), "mentees", id, remove);
    SameEntitiesTrans(cols, c6, r);
  }

  /**
   * Saving a student that is not deleted points `student` of every matching
   * assessment, course, membership and module instance at it; with `remove`
   * the same documents are cleared instead.
   */
  lemma {:induction false} ForeignEffectLinksBack(cols: Collections, id: ObjectId, organisation: ObjectId, studentId: string,
                                                  tutorStaffId: Option<string>, remove: bool)
    requires forall c: Collection :: c in cols
    ensures var r := ForeignEffect(cols, id, organisation, studentId, tutorStaffId, remove);
      forall c :: c in BackReferencing ==>
        PointsAt(r[c], StudentQuery(organisation, studentId), "student", if remove then None else Some(id))
  {
    var q := StudentQuery(organisation, studentId);
    var v := if remove then None else Some(id);
    var c1 := SetSingularIn(cols, StudentAssessmentInstance, q, "student", v);
    SetSingularInPointsAt(cols, StudentAssessmentInstance, q, "student", v);
    var c2 := SetSingularIn(c1, Store.StudentCourseInstance, q, "student", v);
    var c3 := SetSingularIn(c2, StudentCourseMembership, q, "student", v);
    SetSingularInPointsAt(c2, StudentCourseMembership, q, "student", v);
    var c4 := SetSingularIn(c3, Store.StudentCourseInstance, q, "student", v);
    SetSingularInPointsAt(c3, Store.StudentCourseInstance, q, "student", v);
    var c5 := SetSingularIn(c4, StudentModuleInstance, q, "student", v);
    SetSingularInPointsAt(c4, StudentModuleInstance, q, "student", v);
    var c6 := UpdateMultipleIn(c5, Institution, OrganisationQuery(organisation), "students", id, remove);
    var r := UpdateMultipleIn(c6, Staff, TutorQuery(organisation, tutorStaffId), "mentees", id, remove);
    assert r[StudentAssessmentInstance] == c1[StudentAssessmentInstance];
    assert r[StudentCourseMembership] == c3[StudentCourseMembership];
    assert r[Store.StudentCourseInstance] == c4[Store.StudentCourseInstance];
    assert r[StudentModuleInstance] == c5[StudentModuleInstance];
  }

  /**
   * Saving a student that is not deleted adds it to the matched tutor's
   * `mentees` and to `students` of every institution of the organisation;
   * with `remove` it is pulled from both instead.
   */
  lemma {:induction false} ForeignEffectLinksArrays(cols: Collections, id: ObjectId, organisation: ObjectId, studentId: string,
                                                    tutorStaffId: Option<string>, remove: bool)
    requires forall c: Collection :: c in cols
    ensures var r := ForeignEffect(cols, id, organisation, studentId, tutorStaffId, remove);
      && HoldsRef(r[Staff], TutorQuery(organisation, tutorStaffId), "mentees", id, !remove)
      && HoldsRef(r[Institution], OrganisationQuery(organisation), "students", id, !remove)
  {
    var q := StudentQuery(organisation, studentId);
    var v := if remove then None else Some(id);
    var c1 := SetSingularIn(cols, StudentAssessmentInstance, q, "student", v);
    var c2 := SetSingularIn(c1, Store.StudentCourseInstance, q, "student", v);
    var c3 := SetSingularIn(c2, StudentCourseMembership, q, "student", v);
    var c4 := SetSingularIn(c3, Store.StudentCourseInstance, q, "student", v);
    var c5 := SetSingularIn(c4, StudentModuleInstance, q, "student", v);
    var c6 := UpdateMultipleIn(c5, Institution, OrganisationQuery(organisation), "students", id, remove);
    UpdateMultipleInHoldsRef(c5, Institution, OrganisationQuery(organisation), "students", id, remove);
    var r := UpdateMultipleIn(c6, Staff, TutorQuery(organisation, tutorStaffId), "mentees", id, remove);
    UpdateMultipleInHoldsRef(c6, Staff, TutorQuery(organisation, tutorStaffId), "mentees", id, remove);
    assert r[Institution] == c6[Institution];
  }

  /**
   * The StudentCourseInstance collection is updated twice by one save; the
   * two updates together have exactly the effect of one.
   */
  lemma DuplicateUpdateIsIdempotent(cols: Collections, id: ObjectId, organisation: ObjectId, studentId: string,
                                    tutorStaffId: Option<string>, remove: bool)
    requires forall c: Collection :: c in cols
    ensures ForeignEffect(cols, id, organisation, studentId, tutorStaffId, remove)[Store.StudentCourseInstance]
         == SetSingularWhere(cols[Store.StudentCourseInstance], StudentQuery(organisation, studentId), "student",
                             if remove then None else Some(id))
  {
    SetSingularWhereIdempotent(cols[Store.StudentCourseInstance], StudentQuery(organisation, studentId), "student",
                               if remove then None else Some(id));
  }

  /**
   * Running the foreign side a second time, for the same save or the same
   * remove, changes nothing: every counterpart already points at the
   * student (or at null), and every array already holds (or lacks) its id.
   */
  lemma ForeignEffectIdempotent(cols: Collections, id: ObjectId, organisation: ObjectId, studentId: string,
                                tutorStaffId: Option<string>, remove: bool)
    requires forall c: Collection :: c in cols
    ensures var once := ForeignEffect(cols, id, organisation, studentId, tutorStaffId, remove);
      ForeignEffect(once, id, organisation, studentId, tutorStaffId, remove) == once
  {
    var q := StudentQuery(organisation, studentId);
    var v := if remove then None else Some(id);
    var oq := OrganisationQuery(organisation);
    var tq := TutorQuery(organisation, tutorStaffId);
    var once := ForeignEffect(cols, id, organisation, studentId, tutorStaffId, remove);
    DuplicateUpdateIsIdempotent(cols, id, organisation, studentId, tutorStaffId, remove);
    assert once[StudentAssessmentInstance] == SetSingularWhere(cols[StudentAssessmentInstance], q, "student", v);
    assert once[StudentCourseMembership] == SetSingularWhere(cols[StudentCourseMembership], q, "student", v);
    assert once[StudentModuleInstance] == SetSingularWhere(cols[StudentModuleInstance], q, "student", v);
    assert once[Institution] == UpdateMultipleWhere(cols[Institution], oq, "students", id, remove);
    assert once[Staff] == UpdateMultipleWhere(cols[Staff], tq, "mentees", id, remove);
    SetSingularInAgain(once, StudentAssessmentInstance, q, "student", v, cols[StudentAssessmentInstance]);
    SetSingularInAgain(once, Store.StudentCourseInstance, q, "student", v, cols[Store.StudentCourseInstance]);
    SetSingularInAgain(once, StudentCourseMembership, q, "student", v, cols[StudentCourseMembership]);
    SetSingularInAgain(once, StudentModuleInstance, q, "student", v, cols[StudentModuleInstance]);
    UpdateMultipleInAgain(once, Institution, oq, "students", id, remove, cols[Institution]);
    UpdateMultipleInAgain(once, Staff, tq, "mentees", id, remove, cols[Staff]);
  }

  /** A student save or remove under one organisation leaves every document of another as it was. */
  lemma ForeignEffectIsolated(cols: Collections, id: ObjectId, organisation: ObjectId, studentId: string,
                              tutorStaffId: Option<string>, remove: bool)
    requires forall c: Collection :: c in cols
    ensures OtherOrganisationsUntouched(cols, ForeignEffect(cols, id, organisation, studentId, tutorStaffId, remove), organisation)
  {
    var q := StudentQuery(organisation, studentId);
    var v := if remove then None else Some(id);
    var c1 := SetSingularIn(cols, StudentAssessmentInstance, q, "student", v);
    SetSingularInIsolated(cols, StudentAssessmentInstance, q, "student", v);
    var c2 := SetSingularIn(c1, Store.StudentCourseInstance, q, "student", v);
    SetSingularInIsolated(c1, Store.StudentCourseInstance, q, "student", v);
    OtherOrganisationsUntouchedTrans(cols, c1, c2, organisation);
    var c3 := SetSingularIn(c2, StudentCourseMembership, q, "student", v);
    SetSingularInIsolated(c2, StudentCourseMembership, q, "student", v);
    OtherOrganisationsUntouchedTrans(cols, c2, c3, organisation);
    var c4 := SetSingularIn(c3, Store.StudentCourseInstance, q, "student", v);
    SetSingularInIsolated(c3, Store.StudentCourseInstance, q, "student", v);
    OtherOrganisationsUntouchedTrans(cols, c3, c4, organisation);
    var c5 := SetSingularIn(c4, StudentModuleInstance, q, "student", v);
    SetSingularInIsolated(c4, StudentModuleInstance, q, "student", v);
    OtherOrganisationsUntouchedTrans(cols, c4, c5, organisation);
    var c6 := UpdateMultipleIn(c5, Institution, OrganisationQuery(organisation), "students", id, remove);
    UpdateMultipleInIsolated(c5, Institution, OrganisationQuery(organisation), "students", id, remove);
    OtherOrganisationsUntouchedTrans(cols, c5, c6, organisation);
    var r := UpdateMultipleIn(c6, Staff, TutorQuery(organisation, tutorStaffId), "mentees", id, remove);
    UpdateMultipleInIsolated(c6, Staff, TutorQuery(organisation, tutorStaffId), "mentees", id, remove);
    OtherOrganisationsUntouchedTrans(cols, c6, r, organisation);
  }

  /** Student saves and removes leave every other collection as it was. */
  lemma ForeignEffectLeavesOthers(cols: Collections, id: ObjectId, organisation: ObjectId, studentId: string,
                                  tutorStaffId: Option<string>, remove: bool)
    requires forall c: Collection :: c in cols
    ensures var r := ForeignEffect(cols, id, organisation, studentId, tutorStaffId, remove);
      forall c :: c in cols && c !in BackReferencing && c != Staff && c != Institution ==> r[c] == cols[c]
  {
  }

  /**
   * When the store has no duplicate references before a save, the student's
   * tutor holds the student exactly once in `mentees` afterwards, and every
   * Institution of the organisation holds it exactly once in `students`.
   */
  lemma MenteeAddedOnce(cols: Collections, id: ObjectId, organisation: ObjectId, studentId: string,
                        tutorStaffId: Option<string>, i: nat, k: nat)
    requires forall c: Collection :: c in cols
    requires NoDupRefs(cols)
    requires i < |cols[Staff]| && Matches(cols[Staff][i], TutorQuery(organisation, tutorStaffId))
    ensures var r := ForeignEffect(cols, id, organisation, studentId, tutorStaffId, false);
      && i < |r[Staff]| && multiset(MultipleRefs(r[Staff][i], "mentees"))[id] == 1
      && (k < |cols[Institution]| && Matches(cols[Institution][k], OrganisationQuery(organisation)) ==>
            k < |r[Institution]| && multiset(MultipleRefs(r[Institution][k], "students"))[id] == 1)
  {
    var r := ForeignEffect(cols, id, organisation, studentId, tutorStaffId, false);
    ForeignEffectKeepsNoDup(cols, id, organisation, studentId, tutorStaffId, false);
    ForeignEffectKeepsDocuments(cols, id, organisation, studentId, tutorStaffId, false);
    ForeignEffectLinksArrays(cols, id, organisation, studentId, tutorStaffId, false);
    assert SameIdentity(cols[Staff][i], r[Staff][i]);
    SameIdentityKeepsMatch(cols[Staff][i], r[Staff][i], TutorQuery(organisation, tutorStaffId));
    NoDupRefsAt(r, Staff, i, "mentees");
    NoDupOccursOnce(MultipleRefs(r[Staff][i], "mentees"), id);
    if k < |cols[Institution]| && Matches(cols[Institution][k], OrganisationQuery(organisation)) {
      assert SameIdentity(cols[Institution][k], r[Institution][k]);
      SameIdentityKeepsMatch(cols[Institution][k], r[Institution][k], OrganisationQuery(organisation));
      NoDupRefsAt(r, Institution, k, "students");
      NoDupOccursOnce(MultipleRefs(r[Institution][k], "students"), id);
    }
  }

  /** Back-reference arrays stay free of duplicates. */
  lemma ForeignEffectKeepsNoDup(cols: Collections, id: ObjectId, organisation: ObjectId, studentId: string,
                                tutorStaffId: Option<string>, remove: bool)
    requires forall c: Collection :: c in cols
    requires NoDupRefs(cols)
    ensures NoDupRefs(ForeignEffect(cols, id, organisation, studentId, tutorStaffId, remove))
  {
    var q := StudentQuery(organisation, studentId);
    var v := if remove then None else Some(id);
    var c1 := SetSingularIn(cols, StudentAssessmentInstance, q, "student", v);
    SetSingularKeepsNoDup(cols, StudentAssessmentInstance, q, "student", v);
    var c2 := SetSingularIn(c1, Store.StudentCourseInstance, q, "student", v);
    SetSingularKeepsNoDup(c1, Store.StudentCourseInstance, q, "student", v);
    var c3 := SetSingularIn(c2, StudentCourseMembership, q, "student", v);
    SetSingularKeepsNoDup(c2, StudentCourseMembership, q, "student", v);
    var c4 := SetSingularIn(c3, Store.StudentCourseInstance, q, "student", v);
    SetSingularKeepsNoDup(c3, Store.StudentCourseInstance, q, "student", v);
    var c5 := SetSingularIn(c4, StudentModuleInstance, q, "student", v);
    SetSingularKeepsNoDup(c4, StudentModuleInstance, q, "student", v);
    var c6 := UpdateMultipleIn(c5, Institution, OrganisationQuery(organisation), "students", id, remove);
    UpdateMultipleKeepsNoDup(c5, Institution, OrganisationQuery(organisation), "students", id, remove);
    UpdateMultipleKeepsNoDup(c6, Staff, TutorQuery(organisation, tutorStaffId), "mentees", id, remove);
  }

  /** With the unique index in place, a student's key finds at most one stored student. */
  lemma StudentKeyFindsAtMostOne(cols: Collections, indexes: set<UniqueIndex>, organisation: ObjectId, studentId: string)
    requires ValidCollections(cols, indexes) && StudentKeyIndex in indexes
    ensures |MatchingIds(cols[Store.Student], StudentQuery(organisation, studentId))| <= 1
  {
    UniqueKeyMatchesAtMostOne(cols[Store.Student], "STUDENT_ID", StudentQuery(organisation, studentId));
  }

  // ---------------------------------------------------------------------
  // The model being saved
  // ---------------------------------------------------------------------

  class Student {
    const id: ObjectId
    const organisation: ObjectId
    var studentId: string                       // STUDENT_ID
    var tutorStaffId: Option<string>            // TUTOR_STAFF_ID
    var deleted: bool                           // the soft-delete marker
    var studentAssessmentInstances: seq<ObjectId>
    var studentModuleInstances: seq<ObjectId>
    var studentCourseInstances: seq<ObjectId>
    var studentCourseMemberships: seq<ObjectId>
    var tutor: Option<ObjectId>

    constructor (id: ObjectId, organisation: ObjectId, studentId: string, tutorStaffId: Option<string>)
      ensures this.id == id && this.organisation == organisation
      ensures this.studentId == studentId && this.tutorStaffId == tutorStaffId && !deleted
      ensures studentAssessmentInstances == studentModuleInstances == studentCourseInstances == studentCourseMemberships == []
      ensures tutor == None
    {
      this.id := id;
      this.organisation := organisation;
      this.studentId := studentId;
      this.tutorStaffId := tutorStaffId;
      deleted := false;
      studentAssessmentInstances, studentModuleInstances := [], [];
      studentCourseInstances, studentCourseMemberships := [], [];
      tutor := None;
    }

    /**
     * The local relations agree with the store: each array holds the ids of
     * the documents with the student's organisation and STUDENT_ID, and
     * `tutor` is the first staff record matched by TUTOR_STAFF_ID, or null.
     */
    ghost predicate LocalRelationsHold(cols: Collections)
      reads this
      requires forall c: Collection :: c in cols
    {
      var q := StudentQuery(organisation, studentId);
      && studentAssessmentInstances == MatchingIds(cols[StudentAssessmentInstance], q)
      && studentModuleInstances == MatchingIds(cols[StudentModuleInstance], q)
      && studentCourseInstances == MatchingIds(cols[Store.StudentCourseInstance], q)
      && studentCourseMemberships == MatchingIds(cols[StudentCourseMembership], q)
      && tutor == FirstMatch(cols[Staff], TutorQuery(organisation, tutorStaffId))
    }

    method UpdateForeignRelations(store: DocumentStore, removeRelations: bool)
      requires store.Valid()
      modifies store
      ensures store.Valid()
      ensures store.collections
           == ForeignEffect(old(store.collections), id, organisation, studentId, tutorStaffId, removeRelations)
    {
      var q := StudentQuery(organisation, studentId);
      store.UpdateForeignSingular(StudentAssessmentInstance, id, removeRelations, q, "student");
      store.UpdateForeignSingular(Store.StudentCourseInstance, id, removeRelations, q, "student");
      store.UpdateForeignSingular(StudentCourseMembership, id, removeRelations, q, "student");
      store.UpdateForeignSingular(Store.StudentCourseInstance, id, removeRelations, q, "student");
      store.UpdateForeignSingular(StudentModuleInstance, id, removeRelations, q, "student");
      store.UpdateForeignMultiple(Institution, id, removeRelations, OrganisationQuery(organisation), "students");
      store.UpdateForeignMultiple(Staff, id, removeRelations, TutorQuery(organisation, tutorStaffId), "mentees");
    }

    method UpdateLocalRelations(store: DocumentStore)
      requires store.Valid()
      modifies this`studentAssessmentInstances, this`studentModuleInstances, this`studentCourseInstances,
               this`studentCourseMemberships, this`tutor
      ensures LocalRelationsHold(store.collections)
      ensures NoDup(studentAssessmentInstances) && NoDup(studentModuleInstances)
      ensures NoDup(studentCourseInstances) && NoDup(studentCourseMemberships)
    {
      var q := StudentQuery(organisation, studentId);
      studentAssessmentInstances := store.FindMatchingIds(StudentAssessmentInstance, q);
      studentModuleInstances := store.FindMatchingIds(StudentModuleInstance, q);
      studentCourseInstances := store.FindMatchingIds(Store.StudentCourseInstance, q);
      studentCourseMemberships := store.FindMatchingIds(StudentCourseMembership, q);
      tutor := store.FindFirstId(Staff, TutorQuery(organisation, tutorStaffId));
    }

    /**
     * pre('save'): foreign-side updates with remove = `deleted`, and the
     * local-side updates. The two groups do not interfere: the local side
     * finds the same documents before and after the foreign side ran.
     */
    method PreSave(store: DocumentStore)
      requires store.Valid()
      modifies store, this`studentAssessmentInstances, this`studentModuleInstances, this`studentCourseInstances,
               this`studentCourseMemberships, this`tutor
      ensures store.Valid()
      ensures store.collections
           == ForeignEffect(old(store.collections), id, organisation, studentId, tutorStaffId, deleted)
      ensures LocalRelationsHold(store.collections) && LocalRelationsHold(old(store.collections))
    {
      var removeForeignRelations := deleted;
      UpdateForeignRelations(store, removeForeignRelations);
      UpdateLocalRelations(store);
      ForeignEffectKeepsDocuments(old(store.collections), id, organisation, studentId, tutorStaffId, deleted);
      var q := StudentQuery(organisation, studentId);
      SameIdentitiesSameMatches(old(store.collections)[StudentAssessmentInstance], store.collections[StudentAssessmentInstance], q);
      SameIdentitiesSameMatches(old(store.collections)[StudentModuleInstance], store.collections[StudentModuleInstance], q);
      SameIdentitiesSameMatches(old(store.collections)[Store.StudentCourseInstance], store.collections[Store.StudentCourseInstance], q);
      SameIdentitiesSameMatches(old(store.collections)[StudentCourseMembership], store.collections[StudentCourseMembership], q);
      SameIdentitiesSameMatches(old(store.collections)[Staff], store.collections[Staff], TutorQuery(organisation, tutorStaffId));
    }

    /** pre('remove'): foreign-side removal only; the student's own fields are not touched. */
    method PreDelete(store: DocumentStore)
      requires store.Valid()
      modifies store
      ensures store.Valid()
      ensures store.collections
           == ForeignEffect(old(store.collections), id, organisation, studentId, tutorStaffId, true)
    {
      var removeForeignRelations := true;
      UpdateForeignRelations(store, removeForeignRelations);
    }
  }
}
