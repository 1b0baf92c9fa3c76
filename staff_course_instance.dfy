/**
 * The StaffCourseInstance model of the JISC 1.2.3 plugin: its schema table,
 * and the save hook that links a staff member to a course instance through
 * it. As with every 1.2.3 model, the foreign side only adds.
 */
module StaffCourseInstanceModel {
  import opened Base
  import opened Scopes
  import opened Schemas
  import opened Store

  // ---------------------------------------------------------------------
  // Schema table
  // ---------------------------------------------------------------------

  const FieldAccess: seq<Scope> := [ALL, UDD_READ, TRIBAL_INSIGHT, SSP]
  const BaseScopes: seq<Scope> := [ALL, TRIBAL_INSIGHT, SSP]

  function StaffCiSchema(): Schema {
    ScopedSchema(map[
      "STAFF_ID" := RequiredString(FieldAccess),
      "COURSE_INSTANCE_ID" := RequiredString(FieldAccess),
      "staff" := Scoped(ObjectIdType, FieldAccess),
      "courseInstance" := Scoped(ObjectIdType, FieldAccess),
      "organisation" := Unscoped(ObjectIdType)
    ], BaseScopes, None)
  }

  lemma StaffCiRequiredFields()
    ensures RequiredFields(StaffCiSchema()) == {"STAFF_ID", "COURSE_INSTANCE_ID"}
  {
    var s := StaffCiSchema();
    assert s.fields["STAFF_ID"].required && s.fields["COURSE_INSTANCE_ID"].required;
  }

  /**
   * Every field with a readAccess list names exactly the read scopes, so a
   * client that may read the entity may read each of those fields; the
   * organisation is visible to every caller. UDD_READ only reads.
   */
  lemma StaffCiScopes(name: string, granted: set<Scope>)
    requires name in StaffCiSchema().fields
    ensures var s := StaffCiSchema();
      && (s.fields[name].readAccess.Some? ==> forall x :: x in s.fields[name].readAccess.value <==> x in s.readScopes)
      && (s.fields[name].readAccess.Some? ==> (CanRead(s, name, granted) <==> Grants(granted, s.readScopes)))
      && CanRead(s, "organisation", granted)
      && Within(s.writeScopes, s.readScopes)
      && (forall x :: x in s.readScopes && x !in s.writeScopes <==> x == UDD_READ)
  {
    var s := StaffCiSchema();
    ReadOnlyScope(s.fields, BaseScopes, s.keep);
    assert forall x :: x in FieldAccess <==> x in s.readScopes;
  }

  // ---------------------------------------------------------------------
  // Relations
  // ---------------------------------------------------------------------

  function StaffQuery(organisation: ObjectId, staffId: string): Query {
    Query(organisation, map["STAFF_ID" := Some(staffId)])
  }

  function CourseQuery(organisation: ObjectId, courseInstanceId: string): Query {
    Query(organisation, map["COURSE_INSTANCE_ID" := Some(courseInstanceId)])
  }

  /** The two foreign-side additions of one save. */
  function ForeignEffect(cols: Collections, id: ObjectId, organisation: ObjectId, staffId: string,
                         courseInstanceId: string): (r: Collections)
    requires forall c: Collection :: c in cols
    ensures r.Keys == cols.Keys
  {
    var c1 := UpdateMultipleIn(cols, Staff, StaffQuery(organisation, staffId), "staffCourseInstances", id, false);
    UpdateMultipleIn(c1, CourseInstance, CourseQuery(organisation, courseInstanceId), "staffCourseInstances", id, false)
  }

  /**
   * After a save the matched staff and course instances list the instance
   * in `staffCourseInstances`; nothing is taken away, and other
   * collections are not touched.
   */
  lemma StaffCiForeignEffect(cols: Collections, id: ObjectId, organisation: ObjectId, staffId: string,
                             courseInstanceId: string)
    requires forall c: Collection :: c in cols
    ensures var r := ForeignEffect(cols, id, organisation, staffId, courseInstanceId);
      && HoldsRef(r[Staff], StaffQuery(organisation, staffId), "staffCourseInstances", id, true)
      && HoldsRef(r[CourseInstance], CourseQuery(organisation, courseInstanceId), "staffCourseInstances", id, true)
      && (forall c :: c in cols && c != Staff && c != CourseInstance ==> r[c] == cols[c])
      && Additive(cols, r)
  {
    var q1 := StaffQuery(organisation, staffId);
    var q2 := CourseQuery(organisation, courseInstanceId);
    var c1 := UpdateMultipleIn(cols, Staff, q1, "staffCourseInstances", id, false);
    UpdateMultipleInHoldsRef(cols, Staff, q1, "staffCourseInstances", id, false);
    AddIsAdditive(cols, Staff, q1, "staffCourseInstances", id);
    var r := UpdateMultipleIn(c1, CourseInstance, q2, "staffCourseInstances", id, false);
    UpdateMultipleInHoldsRef(c1, CourseInstance, q2, "staffCourseInstances", id, false);
    AddIsAdditive(c1, CourseInstance, q2, "staffCourseInstances", id);
    AdditiveTrans(cols, c1, r);
    assert r[Staff] == c1[Staff];
  }

  /** Saving the same instance twice has the effect of saving it once. */
  lemma StaffCiSaveIdempotent(cols: Collections, id: ObjectId, organisation: ObjectId, staffId: string,
                              courseInstanceId: string)
    requires forall c: Collection :: c in cols
    ensures var once := ForeignEffect(cols, id, organisation, staffId, courseInstanceId);
      ForeignEffect(once, id, organisation, staffId, courseInstanceId) == once
  {
    var once := ForeignEffect(cols, id, organisation, staffId, courseInstanceId);
    StaffCiForeignEffect(cols, id, organisation, staffId, courseInstanceId);
    AddAgainChangesNothing(once, Staff, StaffQuery(organisation, staffId), "staffCourseInstances", id);
    AddAgainChangesNothing(once, CourseInstance, CourseQuery(organisation, courseInstanceId), "staffCourseInstances", id);
  }

  /** A save keeps every array reference of a duplicate-free store duplicate-free. */
  lemma StaffCiKeepsNoDup(cols: Collections, id: ObjectId, organisation: ObjectId, staffId: string, courseInstanceId: string)
    requires forall c: Collection :: c in cols
    requires NoDupRefs(cols)
    ensures NoDupRefs(ForeignEffect(cols, id, organisation, staffId, courseInstanceId))
  {
    var q1 := StaffQuery(organisation, staffId);
    var c1 := UpdateMultipleIn(cols, Staff, q1, "staffCourseInstances", id, false);
    UpdateMultipleKeepsNoDup(cols, Staff, q1, "staffCourseInstances", id, false);
    UpdateMultipleKeepsNoDup(c1, CourseInstance, CourseQuery(organisation, courseInstanceId), "staffCourseInstances", id, false);
  }

  /**
   * In a duplicate-free store, every staff member and every course instance matched by the saved instance
   * holds its id exactly once afterwards.
   */
  lemma StaffCiHeldOnce(cols: Collections, id: ObjectId, organisation: ObjectId, staffId: string, courseInstanceId: string, i: nat, j: nat)
    requires forall c: Collection :: c in cols
    requires NoDupRefs(cols)
    ensures var r := ForeignEffect(cols, id, organisation, staffId, courseInstanceId);
      && (i < |cols[Staff]| && Matches(cols[Staff][i], StaffQuery(organisation, staffId)) ==>
            i < |r[Staff]| && multiset(MultipleRefs(r[Staff][i], "staffCourseInstances"))[id] == 1)
      && (j < |cols[CourseInstance]| && Matches(cols[CourseInstance][j], CourseQuery(organisation, courseInstanceId)) ==>
            j < |r[CourseInstance]| && multiset(MultipleRefs(r[CourseInstance][j], "staffCourseInstances"))[id] == 1)
  {
    var r := ForeignEffect(cols, id, organisation, staffId, courseInstanceId);
    StaffCiKeepsNoDup(cols, id, organisation, staffId, courseInstanceId);
    StaffCiForeignEffect(cols, id, organisation, staffId, courseInstanceId);
    if i < |cols[Staff]| && Matches(cols[Staff][i], StaffQuery(organisation, staffId)) {
      assert SameIdentity(cols[Staff][i], r[Staff][i]);
      SameIdentityKeepsMatch(cols[Staff][i], r[Staff][i], StaffQuery(organisation, staffId));
      NoDupRefsAt(r, Staff, i, "staffCourseInstances");
      NoDupOccursOnce(MultipleRefs(r[Staff][i], "staffCourseInstances"), id);
    }
    if j < |cols[CourseInstance]| && Matches(cols[CourseInstance][j], CourseQuery(organisation, courseInstanceId)) {
      assert SameIdentity(cols[CourseInstance][j], r[CourseInstance][j]);
      SameIdentityKeepsMatch(cols[CourseInstance][j], r[CourseInstance][j], CourseQuery(organisation, courseInstanceId));
      NoDupRefsAt(r, CourseInstance, j, "staffCourseInstances");
      NoDupOccursOnce(MultipleRefs(r[CourseInstance][j], "staffCourseInstances"), id);
    }
  }

  /** A save under one organisation leaves every document of another as it was. */
  lemma StaffCiIsolated(cols: Collections, id: ObjectId, organisation: ObjectId, staffId: string, courseInstanceId: string)
    requires forall c: Collection :: c in cols
    ensures OtherOrganisationsUntouched(cols, ForeignEffect(cols, id, organisation, staffId, courseInstanceId), organisation)
  {
    var c1 := UpdateMultipleIn(cols, Staff, StaffQuery(organisation, staffId), "staffCourseInstances", id, false);
    UpdateMultipleInIsolated(cols, Staff, StaffQuery(organisation, staffId), "staffCourseInstances", id, false);
    UpdateMultipleInIsolated(c1, CourseInstance, CourseQuery(organisation, courseInstanceId), "staffCourseInstances", id, false);
    OtherOrganisationsUntouchedTrans(cols, c1, ForeignEffect(cols, id, organisation, staffId, courseInstanceId), organisation);
  }

  // ---------------------------------------------------------------------
  // The model being saved
  // ---------------------------------------------------------------------

  class StaffCourseInstance {
    const id: ObjectId
    const organisation: ObjectId
    var staffId: string                 // STAFF_ID
    var courseInstanceId: string        // COURSE_INSTANCE_ID
    var staff: Option<ObjectId>
    var courseInstance: Option<ObjectId>

    constructor (id: ObjectId, organisation: ObjectId, staffId: string, courseInstanceId: string)
      ensures this.id == id && this.organisation == organisation
      ensures this.staffId == staffId && this.courseInstanceId == courseInstanceId
      ensures staff == None && courseInstance == None
    {
      this.id := id;
      this.organisation := organisation;
      this.staffId := staffId;
      this.courseInstanceId := courseInstanceId;
      staff := None;
      courseInstance := None;
    }

    /** `staff` and `courseInstance` are the first documents matched by the business keys, or null. */
    ghost predicate LocalRelationsHold(cols: Collections)
      reads this
      requires forall c: Collection :: c in cols
    {
      && staff == FirstMatch(cols[Staff], StaffQuery(organisation, staffId))
      && courseInstance == FirstMatch(cols[CourseInstance], CourseQuery(organisation, courseInstanceId))
    }

    method UpdateForeignRelations(store: DocumentStore)
      requires store.Valid()
      modifies store
      ensures store.Valid()
      ensures store.collections == ForeignEffect(old(store.collections), id, organisation, staffId, courseInstanceId)
    {
      store.UpdateForeignMultiple(Staff, id, false, StaffQuery(organisation, staffId), "staffCourseInstances");
      store.UpdateForeignMultiple(CourseInstance, id, false, CourseQuery(organisation, courseInstanceId), "staffCourseInstances");
    }

    method UpdateLocalRelations(store: DocumentStore)
      requires store.Valid()
      modifies this`staff, this`courseInstance
      ensures LocalRelationsHold(store.collections)
    {
      staff := store.FindFirstId(Staff, StaffQuery(organisation, staffId));
      courseInstance := store.FindFirstId(CourseInstance, CourseQuery(organisation, courseInstanceId));
    }

    /** pre('save'): both sides; the local side finds the same documents before and after the foreign side. */
    method PreSave(store: DocumentStore)
      requires store.Valid()
      modifies store, this`staff, this`courseInstance
      ensures store.Valid()
      ensures store.collections == ForeignEffect(old(store.collections), id, organisation, staffId, courseInstanceId)
      ensures LocalRelationsHold(store.collections) && LocalRelationsHold(old(store.collections))
    {
      UpdateForeignRelations(store);
      UpdateLocalRelations(store);
      StaffCiForeignEffect(old(store.collections), id, organisation, staffId, courseInstanceId);
      SameIdentitiesSameMatches(old(store.collections)[Staff], store.collections[Staff],
                                StaffQuery(organisation, staffId));
      SameIdentitiesSameMatches(old(store.collections)[CourseInstance], store.collections[CourseInstance],
                                CourseQuery(organisation, courseInstanceId));
    }
  }
}
