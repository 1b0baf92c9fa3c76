/**
 * The StudentCourseInstance model of the JISC 1.2.3 plugin: its schema
 * table, and the save hook that links a course instance to its student and
 * to its course membership, both ways.
 *
 * The 1.2.3 foreign-side helper only adds: the hook has no remove path, and
 * no remove hook is registered.
 */
module StudentCourseInstanceModel {
  import opened Base
  import opened Scopes
  import opened Schemas
  import opened Store

  // ---------------------------------------------------------------------
  // Schema table
  // ---------------------------------------------------------------------

  const RecordAccess: seq<Scope> := [ALL, UDD_READ, TRIBAL_INSIGHT, LAP, SSP]
  const BaseScopes: seq<Scope> := [ALL, TRIBAL_INSIGHT, LAP, SSP]

  /** MODE: a required code in [1, 99] that defaults to 98. */
  const ModeField := Field(NumberType, true, Some(1), Some(99), Some(98), None, Some(RecordAccess))

  function SciSchema(): Schema {
    ScopedSchema(map[
      "STUDENT_ID" := RequiredString(RecordAccess),
      "STUDENT_COURSE_MEMBERSHIP_ID" := RequiredString(RecordAccess),
      "STUDENT_COURSE_MEMBERSHIP_SEQ" := RequiredString(RecordAccess),
      "MODE" := ModeField,
      "YEAR_COM" := Scoped(NumberType, RecordAccess),
      "YEAR_PRG" := Scoped(NumberType, RecordAccess),
      "YEAR_STU" := Scoped(NumberType, RecordAccess),
      "COURSE_LOCATION" := Scoped(StringType, RecordAccess),
      "X_COURSE_AVERAGE_MARK" := BoundedNumber(0, 1, RecordAccess),
      "X_YEAR_AVERAGE_MARK" := BoundedNumber(0, 1, RecordAccess),
      "student" := Unscoped(ObjectIdType),
      "studentCourseMembership" := Scoped(ObjectIdType, RecordAccess),
      "organisation" := Unscoped(ObjectIdType)
    ], BaseScopes, None)
  }

  /** The four business keys are required; nothing else is. */
  lemma SciRequiredFields()
    ensures RequiredFields(SciSchema())
         == {"STUDENT_ID", "STUDENT_COURSE_MEMBERSHIP_ID", "STUDENT_COURSE_MEMBERSHIP_SEQ", "MODE"}
  {
    var s := SciSchema();
    assert s.fields["STUDENT_ID"].required && s.fields["MODE"].required;
    assert s.fields["STUDENT_COURSE_MEMBERSHIP_ID"].required && s.fields["STUDENT_COURSE_MEMBERSHIP_SEQ"].required;
  }

  /** MODE of a valid document is present and, once cast, a number in [1, 99]. */
  lemma SciModeBounded(doc: Document)
    requires IsValid(SciSchema(), doc)
    ensures "MODE" in doc
    ensures var r := CastDocument(SciSchema(), doc); r["MODE"].Number? && 1 <= r["MODE"].n <= 99
  {
    assert FieldError(SciSchema().fields["MODE"], Lookup(doc, "MODE")).None?;
  }

  /**
   * MODE accepts a code written as a numeral exactly when the code is in
   * [1, 99]; an empty string is cast to null and fails as missing.
   */
  lemma SciModeNumeral(n: int)
    ensures Passes(ModeField, Some(Text(Decimal(n)))) <==> 1 <= n <= 99
    ensures FieldError(ModeField, Some(Text(""))) == Some(Required)
  {
    CastNumberRoundTrip(n);
  }

  /** A document without MODE gets 98, which passes MODE's own validators. */
  lemma SciModeDefault(doc: Document)
    requires "MODE" !in doc
    ensures var r := ApplyDefaults(SciSchema(), doc);
      "MODE" in r && r["MODE"] == Number(98) && FieldError(SciSchema().fields["MODE"], Lookup(r, "MODE")).None?
  {
    var s := SciSchema();
    assert DefaultsPass(s) by {
      forall name | name in s.fields && s.fields[name].default.Some?
        ensures FieldError(s.fields[name], Some(Number(s.fields[name].default.value))).None?
      {
        assert name == "MODE";
      }
    }
    DefaultedFieldValid(s, doc, "MODE");
  }

  /**
   * The scopes: the base list writes, UDD_READ only reads; `student`
   * declares no readAccess, so only the universal scope reads it, while the
   * `studentCourseMembership` relation is readable by the record scopes.
   */
  lemma SciScopes(granted: set<Scope>)
    ensures var s := SciSchema();
      && Within(s.writeScopes, s.readScopes)
      && (forall x :: x in s.readScopes && x !in s.writeScopes <==> x == UDD_READ)
      && !CanWrite(s, {UDD_READ})
      && (CanRead(s, "student", granted) <==> ALL in granted)
      && CanRead(s, "organisation", granted)
      && (CanRead(s, "studentCourseMembership", granted) <==> Grants(granted, RecordAccess))
  {
    var s := SciSchema();
    ReadOnlyScope(s.fields, BaseScopes, s.keep);
  }

  // ---------------------------------------------------------------------
  // Relations
  // ---------------------------------------------------------------------

  function StudentQuery(organisation: ObjectId, studentId: string): Query {
    Query(organisation, map["STUDENT_ID" := Some(studentId)])
  }

  /** Memberships are matched by their id alone; STUDENT_COURSE_MEMBERSHIP_SEQ is not part of the query. */
  function MembershipQuery(organisation: ObjectId, membershipId: string): Query {
    Query(organisation, map["STUDENT_COURSE_MEMBERSHIP_ID" := Some(membershipId)])
  }

  /** The two foreign-side additions of one save. */
  function ForeignEffect(cols: Collections, id: ObjectId, organisation: ObjectId, studentId: string,
                         membershipId: string): (r: Collections)
    requires forall c: Collection :: c in cols
    ensures r.Keys == cols.Keys
  {
    var c1 := UpdateMultipleIn(cols, Student, StudentQuery(organisation, studentId), "studentCourseInstances", id, false);
    UpdateMultipleIn(c1, StudentCourseMembership, MembershipQuery(organisation, membershipId), "studentCourseInstances", id, false)
  }

  /**
   * After a save, every student and every membership the instance names
   * lists it in `studentCourseInstances`; nothing else changes, and nothing
   * is ever taken away.
   */
  lemma SciForeignEffect(cols: Collections, id: ObjectId, organisation: ObjectId, studentId: string, membershipId: string)
    requires forall c: Collection :: c in cols
    ensures var r := ForeignEffect(cols, id, organisation, studentId, membershipId);
      && HoldsRef(r[Student], StudentQuery(organisation, studentId), "studentCourseInstances", id, true)
      && HoldsRef(r[StudentCourseMembership], MembershipQuery(organisation, membershipId), "studentCourseInstances", id, true)
      && (forall c :: c in cols && c != Student && c != StudentCourseMembership ==> r[c] == cols[c])
      && Additive(cols, r)
  {
    var c1 := UpdateMultipleIn(cols, Student, StudentQuery(organisation, studentId), "studentCourseInstances", id, false);
    UpdateMultipleInHoldsRef(cols, Student, StudentQuery(organisation, studentId), "studentCourseInstances", id, false);
    AddIsAdditive(cols, Student, StudentQuery(organisation, studentId), "studentCourseInstances", id);
    var r := UpdateMultipleIn(c1, StudentCourseMembership, MembershipQuery(organisation, membershipId), "studentCourseInstances", id, false);
    UpdateMultipleInHoldsRef(c1, StudentCourseMembership, MembershipQuery(organisation, membershipId), "studentCourseInstances", id, false);
    AddIsAdditive(c1, StudentCourseMembership, MembershipQuery(organisation, membershipId), "studentCourseInstances", id);
    AdditiveTrans(cols, c1, r);
    assert r[Student] == c1[Student];
  }

  /** Whether a membership document matches does not depend on its SEQ. */
  lemma MembershipMatchIgnoresSeq(d: Doc, organisation: ObjectId, membershipId: string, seqValue: string)
    ensures var q := MembershipQuery(organisation, membershipId);
      Matches(d, q) <==> Matches(d.(keys := d.keys["STUDENT_COURSE_MEMBERSHIP_SEQ" := seqValue]), q)
  {
    var q := MembershipQuery(organisation, membershipId);
    var e := d.(keys := d.keys["STUDENT_COURSE_MEMBERSHIP_SEQ" := seqValue]);
    assert "STUDENT_COURSE_MEMBERSHIP_ID" != "STUDENT_COURSE_MEMBERSHIP_SEQ" by {
      assert "STUDENT_COURSE_MEMBERSHIP_ID"[26] != "STUDENT_COURSE_MEMBERSHIP_SEQ"[26];
    }
    assert KeyValue(e, "STUDENT_COURSE_MEMBERSHIP_ID") == KeyValue(d, "STUDENT_COURSE_MEMBERSHIP_ID");
  }

  /** Saving the same instance twice has the effect of saving it once. */
  lemma SciSaveIdempotent(cols: Collections, id: ObjectId, organisation: ObjectId, studentId: string, membershipId: string)
    requires forall c: Collection :: c in cols
    ensures var once := ForeignEffect(cols, id, organisation, studentId, membershipId);
      ForeignEffect(once, id, organisation, studentId, membershipId) == once
  {
    var q1 := StudentQuery(organisation, studentId);
    var q2 := MembershipQuery(organisation, membershipId);
    var once := ForeignEffect(cols, id, organisation, studentId, membershipId);
    assert once[Student] == UpdateMultipleWhere(cols[Student], q1, "studentCourseInstances", id, false);
    UpdateMultipleInAgain(once, Student, q1, "studentCourseInstances", id, false, cols[Student]);
    UpdateMultipleInAgain(once, StudentCourseMembership, q2, "studentCourseInstances", id, false,
                          UpdateMultipleIn(cols, Student, q1, "studentCourseInstances", id, false)[StudentCourseMembership]);
  }

  /** A save keeps every array reference of a duplicate-free store duplicate-free. */
  lemma SciKeepsNoDup(cols: Collections, id: ObjectId, organisation: ObjectId, studentId: string, membershipId: string)
    requires forall c: Collection :: c in cols
    requires NoDupRefs(cols)
    ensures NoDupRefs(ForeignEffect(cols, id, organisation, studentId, membershipId))
  {
    var q1 := StudentQuery(organisation, studentId);
    var c1 := UpdateMultipleIn(cols, Student, q1, "studentCourseInstances", id, false);
    UpdateMultipleKeepsNoDup(cols, Student, q1, "studentCourseInstances", id, false);
    UpdateMultipleKeepsNoDup(c1, StudentCourseMembership, MembershipQuery(organisation, membershipId), "studentCourseInstances", id, false);
  }

  /**
   * In a duplicate-free store, every student and every membership matched by the saved instance
   * holds its id exactly once afterwards.
   */
  lemma SciHeldOnce(cols: Collections, id: ObjectId, organisation: ObjectId, studentId: string, membershipId: string, i: nat, j: nat)
    requires forall c: Collection :: c in cols
    requires NoDupRefs(cols)
    ensures var r := ForeignEffect(cols, id, organisation, studentId, membershipId);
      && (i < |cols[Student]| && Matches(cols[Student][i], StudentQuery(organisation, studentId)) ==>
            i < |r[Student]| && multiset(MultipleRefs(r[Student][i], "studentCourseInstances"))[id] == 1)
      && (j < |cols[StudentCourseMembership]| && Matches(cols[StudentCourseMembership][j], MembershipQuery(organisation, membershipId)) ==>
            j < |r[StudentCourseMembership]| && multiset(MultipleRefs(r[StudentCourseMembership][j], "studentCourseInstances"))[id] == 1)
  {
    var r := ForeignEffect(cols, id, organisation, studentId, membershipId);
    SciKeepsNoDup(cols, id, organisation, studentId, membershipId);
    SciForeignEffect(cols, id, organisation, studentId, membershipId);
    if i < |cols[Student]| && Matches(cols[Student][i], StudentQuery(organisation, studentId)) {
      assert SameIdentity(cols[Student][i], r[Student][i]);
      SameIdentityKeepsMatch(cols[Student][i], r[Student][i], StudentQuery(organisation, studentId));
      NoDupRefsAt(r, Student, i, "studentCourseInstances");
      NoDupOccursOnce(MultipleRefs(r[Student][i], "studentCourseInstances"), id);
    }
    if j < |cols[StudentCourseMembership]| && Matches(cols[StudentCourseMembership][j], MembershipQuery(organisation, membershipId)) {
      assert SameIdentity(cols[StudentCourseMembership][j], r[StudentCourseMembership][j]);
      SameIdentityKeepsMatch(cols[StudentCourseMembership][j], r[StudentCourseMembership][j], MembershipQuery(organisation, membershipId));
      NoDupRefsAt(r, StudentCourseMembership, j, "studentCourseInstances");
      NoDupOccursOnce(MultipleRefs(r[StudentCourseMembership][j], "studentCourseInstances"), id);
    }
  }

  /** A save under one organisation leaves every document of another as it was. */
  lemma SciIsolated(cols: Collections, id: ObjectId, organisation: ObjectId, studentId: string, membershipId: string)
    requires forall c: Collection :: c in cols
    ensures OtherOrganisationsUntouched(cols, ForeignEffect(cols, id, organisation, studentId, membershipId), organisation)
  {
    var c1 := UpdateMultipleIn(cols, Student, StudentQuery(organisation, studentId), "studentCourseInstances", id, false);
    UpdateMultipleInIsolated(cols, Student, StudentQuery(organisation, studentId), "studentCourseInstances", id, false);
    UpdateMultipleInIsolated(c1, StudentCourseMembership, MembershipQuery(organisation, membershipId), "studentCourseInstances", id, false);
    OtherOrganisationsUntouchedTrans(cols, c1, ForeignEffect(cols, id, organisation, studentId, membershipId), organisation);
  }

  // ---------------------------------------------------------------------
  // The model being saved
  // ---------------------------------------------------------------------

  class StudentCourseInstance {
    const id: ObjectId
    const organisation: ObjectId
    var studentId: string                     // STUDENT_ID
    var membershipId: string                  // STUDENT_COURSE_MEMBERSHIP_ID
    var membershipSeq: string                 // STUDENT_COURSE_MEMBERSHIP_SEQ
    var student: Option<ObjectId>
    var studentCourseMembership: Option<ObjectId>

    constructor (id: ObjectId, organisation: ObjectId, studentId: string, membershipId: string, membershipSeq: string)
      ensures this.id == id && this.organisation == organisation
      ensures this.studentId == studentId && this.membershipId == membershipId && this.membershipSeq == membershipSeq
      ensures student == None && studentCourseMembership == None
    {
      this.id := id;
      this.organisation := organisation;
      this.studentId := studentId;
      this.membershipId := membershipId;
      this.membershipSeq := membershipSeq;
      student := None;
      studentCourseMembership := None;
    }

    /** `student` and `studentCourseMembership` are the first documents matched by the business keys, or null. */
    ghost predicate LocalRelationsHold(cols: Collections)
      reads this
      requires forall c: Collection :: c in cols
    {
      && student == FirstMatch(cols[Student], StudentQuery(organisation, studentId))
      && studentCourseMembership == FirstMatch(cols[StudentCourseMembership], MembershipQuery(organisation, membershipId))
    }

    method UpdateForeignRelations(store: DocumentStore)
      requires store.Valid()
      modifies store
      ensures store.Valid()
      ensures store.collections == ForeignEffect(old(store.collections), id, organisation, studentId, membershipId)
    {
      store.UpdateForeignMultiple(Student, id, false, StudentQuery(organisation, studentId), "studentCourseInstances");
      store.UpdateForeignMultiple(StudentCourseMembership, id, false, MembershipQuery(organisation, membershipId), "studentCourseInstances");
    }

    method UpdateLocalRelations(store: DocumentStore)
      requires store.Valid()
      modifies this`student, this`studentCourseMembership
      ensures LocalRelationsHold(store.collections)
    {
      student := store.FindFirstId(Student, StudentQuery(organisation, studentId));
      studentCourseMembership := store.FindFirstId(StudentCourseMembership, MembershipQuery(organisation, membershipId));
    }

    /** pre('save'): both sides; the local side finds the same documents before and after the foreign side. */
    method PreSave(store: DocumentStore)
      requires store.Valid()
      modifies store, this`student, this`studentCourseMembership
      ensures store.Valid()
      ensures store.collections == ForeignEffect(old(store.collections), id, organisation, studentId, membershipId)
      ensures LocalRelationsHold(store.collections) && LocalRelationsHold(old(store.collections))
    {
      UpdateForeignRelations(store);
      UpdateLocalRelations(store);
      SciForeignEffect(old(store.collections), id, organisation, studentId, membershipId);
      SameIdentitiesSameMatches(old(store.collections)[Student], store.collections[Student],
                                StudentQuery(organisation, studentId));
      SameIdentitiesSameMatches(old(store.collections)[StudentCourseMembership], store.collections[StudentCourseMembership],
                                MembershipQuery(organisation, membershipId));
    }
  }
}
