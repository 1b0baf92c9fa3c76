/**
 * The StaffModuleInstance model of the JISC 1.2.6 plugin: its schema table,
 * and the save and remove hooks that link a staff member to a module
 * instance through it.
 *
 * On save the hook adds the instance's id to `staffModuleInstances` of the
 * matched staff and module instance (or pulls it, when the instance is
 * soft-deleted) and recomputes `staff` and `moduleInstance`; on remove it
 * only pulls.
 */
module StaffModuleInstanceModel {
  import opened Base
  import opened Scopes
  import opened Schemas
  import opened Store

  // ---------------------------------------------------------------------
  // Schema table
  // ---------------------------------------------------------------------

  const StaffAccess: seq<Scope> := [ALL, UDD_READ, TRIBAL_INSIGHT, SSP, OPENDASH]
  const ModuleAccess: seq<Scope> := [ALL, UDD_READ, TRIBAL_INSIGHT, OPENDASH]
  const BaseScopes: seq<Scope> := [ALL, TRIBAL_INSIGHT, SSP, OPENDASH]

  /** Paths kept by the soft-delete flush besides `_id`. */
  const Keep: set<string> := {"organisation"}

  function SmiSchema(): Schema {
    ScopedSchema(map[
      "STAFF_ID" := RequiredString(StaffAccess),
      "MOD_INSTANCE_ID" := RequiredString(ModuleAccess),
      "staff" := Scoped(ObjectIdType, StaffAccess),
      "moduleInstance" := Scoped(ObjectIdType, ModuleAccess),
      "organisation" := Unscoped(ObjectIdType)
    ], BaseScopes, Some(Keep))
  }

  lemma SmiRequiredFields()
    ensures RequiredFields(SmiSchema()) == {"STAFF_ID", "MOD_INSTANCE_ID"}
  {
    var s := SmiSchema();
    assert s.fields["STAFF_ID"].required && s.fields["MOD_INSTANCE_ID"].required;
  }

  /**
   * UDD_READ only reads. SSP may write a staff module instance and read its
   * staff side, yet can read neither MOD_INSTANCE_ID nor `moduleInstance`.
   */
  lemma SmiScopes()
    ensures var s := SmiSchema();
      && Within(s.writeScopes, s.readScopes)
      && (forall x :: x in s.readScopes && x !in s.writeScopes <==> x == UDD_READ)
      && !CanWrite(s, {UDD_READ})
      && CanWrite(s, {SSP}) && CanRead(s, "STAFF_ID", {SSP}) && CanRead(s, "staff", {SSP})
      && !CanRead(s, "MOD_INSTANCE_ID", {SSP}) && !CanRead(s, "moduleInstance", {SSP})
  {
    var s := SmiSchema();
    ReadOnlyScope(s.fields, BaseScopes, s.keep);
    assert s.writeScopes[2] == SSP;
    assert StaffAccess[3] == SSP;
  }

  /**
   * Flushing a soft-deleted instance keeps its identity and organisation,
   * empties both business keys and removes both relations.
   */
  lemma SmiFlushEmptiesKeys(doc: Document)
    ensures var r := Flush(SmiSchema(), Keep, doc);
      && r.Keys <= {"_id", "organisation", "STAFF_ID", "MOD_INSTANCE_ID"}
      && (forall name :: name in doc && name in AlwaysVisible ==> name in r && r[name] == doc[name])
      && ("STAFF_ID" in doc ==> "STAFF_ID" in r && r["STAFF_ID"] == Text(""))
      && ("MOD_INSTANCE_ID" in doc ==> "MOD_INSTANCE_ID" in r && r["MOD_INSTANCE_ID"] == Text(""))
      && "staff" !in r && "moduleInstance" !in r
  {
    var s := SmiSchema();
    assert IsStringPath(s, "STAFF_ID") && IsStringPath(s, "MOD_INSTANCE_ID");
  }

  // ---------------------------------------------------------------------
  // Relations
  // ---------------------------------------------------------------------

  function StaffQuery(organisation: ObjectId, staffId: string): Query {
    Query(organisation, map["STAFF_ID" := Some(staffId)])
  }

  function ModuleQuery(organisation: ObjectId, moduleInstanceId: string): Query {
    Query(organisation, map["MOD_INSTANCE_ID" := Some(moduleInstanceId)])
  }

  /** The two foreign-side updates of one save or remove. */
  function ForeignEffect(cols: Collections, id: ObjectId, organisation: ObjectId, staffId: string,
                         moduleInstanceId: string, remove: bool): (r: Collections)
    requires forall c: Collection :: c in cols
    ensures r.Keys == cols.Keys
  {
    var c1 := UpdateMultipleIn(cols, Staff, StaffQuery(organisation, staffId), "staffModuleInstances", id, remove);
    UpdateMultipleIn(c1, ModuleInstance, ModuleQuery(organisation, moduleInstanceId), "staffModuleInstances", id, remove)
  }

  /**
   * The matched staff and module instances hold the id in
   * `staffModuleInstances` after a save, and no longer hold it after a
   * remove; the documents themselves stay, and other collections are not
   * touched. A save that adds takes nothing away.
   */
  lemma SmiForeignEffect(cols: Collections, id: ObjectId, organisation: ObjectId, staffId: string,
                         moduleInstanceId: string, remove: bool)
    requires forall c: Collection :: c in cols
    ensures var r := ForeignEffect(cols, id, organisation, staffId, moduleInstanceId, remove);
      && HoldsRef(r[Staff], StaffQuery(organisation, staffId), "staffModuleInstances", id, !remove)
      && HoldsRef(r[ModuleInstance], ModuleQuery(organisation, moduleInstanceId), "staffModuleInstances", id, !remove)
      && SameEntities(cols, r)
      && (forall c :: c in cols && c != Staff && c != ModuleInstance ==> r[c] == cols[c])
      && (!remove ==> Additive(cols, r))
  {
    var q1 := StaffQuery(organisation, staffId);
    var q2 := ModuleQuery(organisation, moduleInstanceId);
    var c1 := UpdateMultipleIn(cols, Staff, q1, "staffModuleInstances", id, remove);
    UpdateMultipleInHoldsRef(cols, Staff, q1, "staffModuleInstances", id, remove);
    UpdateMultipleInSameEntities(cols, Staff, q1, "staffModuleInstances", id, remove);
    var r := UpdateMultipleIn(c1, ModuleInstance, q2, "staffModuleInstances", id, remove);
    UpdateMultipleInHoldsRef(c1, ModuleInstance, q2, "staffModuleInstances", id, remove);
    UpdateMultipleInSameEntities(c1, ModuleInstance, q2, "staffModuleInstances", id, remove);
    SameEntitiesTrans(cols, c1, r);
    assert r[Staff] == c1[Staff];
    if !remove {
      AddIsAdditive(cols, Staff, q1, "staffModuleInstances", id);
      AddIsAdditive(c1, ModuleInstance, q2, "staffModuleInstances", id);
      AdditiveTrans(cols, c1, r);
    }
  }

  /**
   * In a store without duplicate references, every matched staff member and
   * every matched module instance holds the instance exactly once after a
   * save and not at all after a remove.
   */
  lemma SmiHeldOnce(cols: Collections, id: ObjectId, organisation: ObjectId, staffId: string,
                    moduleInstanceId: string, remove: bool, i: nat, j: nat)
    requires forall c: Collection :: c in cols
    requires NoDupRefs(cols)
    ensures var r := ForeignEffect(cols, id, organisation, staffId, moduleInstanceId, remove);
      && NoDupRefs(r)
      && (i < |cols[Staff]| && Matches(cols[Staff][i], StaffQuery(organisation, staffId)) ==>
            i < |r[Staff]| && multiset(MultipleRefs(r[Staff][i], "staffModuleInstances"))[id] == if remove then 0 else 1)
      && (j < |cols[ModuleInstance]| && Matches(cols[ModuleInstance][j], ModuleQuery(organisation, moduleInstanceId)) ==>
            j < |r[ModuleInstance]| && multiset(MultipleRefs(r[ModuleInstance][j], "staffModuleInstances"))[id] == if remove then 0 else 1)
  {
    var q1 := StaffQuery(organisation, staffId);
    var q2 := ModuleQuery(organisation, moduleInstanceId);
    var c1 := UpdateMultipleIn(cols, Staff, q1, "staffModuleInstances", id, remove);
    UpdateMultipleKeepsNoDup(cols, Staff, q1, "staffModuleInstances", id, remove);
    var r := ForeignEffect(cols, id, organisation, staffId, moduleInstanceId, remove);
    UpdateMultipleKeepsNoDup(c1, ModuleInstance, q2, "staffModuleInstances", id, remove);
    SmiForeignEffect(cols, id, organisation, staffId, moduleInstanceId, remove);
    if i < |cols[Staff]| && Matches(cols[Staff][i], q1) {
      assert SameIdentity(cols[Staff][i], r[Staff][i]);
      SameIdentityKeepsMatch(cols[Staff][i], r[Staff][i], q1);
      NoDupRefsAt(r, Staff, i, "staffModuleInstances");
      NoDupOccursOnce(MultipleRefs(r[Staff][i], "staffModuleInstances"), id);
    }
    if j < |cols[ModuleInstance]| && Matches(cols[ModuleInstance][j], q2) {
      assert SameIdentity(cols[ModuleInstance][j], r[ModuleInstance][j]);
      SameIdentityKeepsMatch(cols[ModuleInstance][j], r[ModuleInstance][j], q2);
      NoDupRefsAt(r, ModuleInstance, j, "staffModuleInstances");
      NoDupOccursOnce(MultipleRefs(r[ModuleInstance][j], "staffModuleInstances"), id);
    }
  }

  /** Repeating a save, or a remove, of the same instance changes nothing more. */
  lemma SmiForeignEffectIdempotent(cols: Collections, id: ObjectId, organisation: ObjectId, staffId: string,
                                   moduleInstanceId: string, remove: bool)
    requires forall c: Collection :: c in cols
    ensures var once := ForeignEffect(cols, id, organisation, staffId, moduleInstanceId, remove);
      ForeignEffect(once, id, organisation, staffId, moduleInstanceId, remove) == once
  {
    var q1 := StaffQuery(organisation, staffId);
    var q2 := ModuleQuery(organisation, moduleInstanceId);
    var once := ForeignEffect(cols, id, organisation, staffId, moduleInstanceId, remove);
    assert once[Staff] == UpdateMultipleWhere(cols[Staff], q1, "staffModuleInstances", id, remove);
    UpdateMultipleInAgain(once, Staff, q1, "staffModuleInstances", id, remove, cols[Staff]);
    UpdateMultipleInAgain(once, ModuleInstance, q2, "staffModuleInstances", id, remove, cols[ModuleInstance]);
  }

  /** A save or remove under one organisation leaves every document of another as it was. */
  lemma SmiIsolated(cols: Collections, id: ObjectId, organisation: ObjectId, staffId: string, moduleInstanceId: string, remove: bool)
    requires forall c: Collection :: c in cols
    ensures OtherOrganisationsUntouched(cols, ForeignEffect(cols, id, organisation, staffId, moduleInstanceId, remove), organisation)
  {
    var c1 := UpdateMultipleIn(cols, Staff, StaffQuery(organisation, staffId), "staffModuleInstances", id, remove);
    UpdateMultipleInIsolated(cols, Staff, StaffQuery(organisation, staffId), "staffModuleInstances", id, remove);
    UpdateMultipleInIsolated(c1, ModuleInstance, ModuleQuery(organisation, moduleInstanceId), "staffModuleInstances", id, remove);
    OtherOrganisationsUntouchedTrans(cols, c1, ForeignEffect(cols, id, organisation, staffId, moduleInstanceId, remove), organisation);
  }

  /**
   * The business keys a soft-deleted instance is saved with once the flush
   * has emptied them. STAFF_ID and MOD_INSTANCE_ID are required strings on
   * the staff and module-instance side too, so no stored counterpart has an
   * empty key. The removal then pulls the instance from nobody, and both
   * local relations come out null.
   */
  lemma FlushedKeysPullNothing(cols: Collections, id: ObjectId, organisation: ObjectId)
    requires forall c: Collection :: c in cols
    requires forall i :: 0 <= i < |cols[Staff]| ==> KeyValue(cols[Staff][i], "STAFF_ID") != Some("")
    requires forall j :: 0 <= j < |cols[ModuleInstance]| ==> KeyValue(cols[ModuleInstance][j], "MOD_INSTANCE_ID") != Some("")
    ensures ForeignEffect(cols, id, organisation, "", "", true) == cols
    ensures FirstMatch(cols[Staff], StaffQuery(organisation, "")) == None
    ensures FirstMatch(cols[ModuleInstance], ModuleQuery(organisation, "")) == None
  {
    var q1 := StaffQuery(organisation, "");
    var q2 := ModuleQuery(organisation, "");
    assert forall i :: 0 <= i < |cols[Staff]| ==> !Matches(cols[Staff][i], q1) by {
      forall i | 0 <= i < |cols[Staff]| ensures !Matches(cols[Staff][i], q1) {
        assert "STAFF_ID" in q1.keys;
      }
    }
    assert forall j :: 0 <= j < |cols[ModuleInstance]| ==> !Matches(cols[ModuleInstance][j], q2) by {
      forall j | 0 <= j < |cols[ModuleInstance]| ensures !Matches(cols[ModuleInstance][j], q2) {
        assert "MOD_INSTANCE_ID" in q2.keys;
      }
    }
    UpdateMultipleInNoMatch(cols, Staff, q1, "staffModuleInstances", id, true);
    UpdateMultipleInNoMatch(cols, ModuleInstance, q2, "staffModuleInstances", id, true);
  }

  /**
   * The discrepancy between the two orders: a staff member that holds the
   * instance and matches its key before the flush still holds it after a
   * soft delete that saves the emptied keys, and no longer holds it after a
   * removal that uses the keys the instance had.
   */
  lemma SoftDeleteLeavesStaleReference(cols: Collections, id: ObjectId, organisation: ObjectId, staffId: string,
                                       moduleInstanceId: string, i: nat)
    requires forall c: Collection :: c in cols
    requires forall i :: 0 <= i < |cols[Staff]| ==> KeyValue(cols[Staff][i], "STAFF_ID") != Some("")
    requires forall j :: 0 <= j < |cols[ModuleInstance]| ==> KeyValue(cols[ModuleInstance][j], "MOD_INSTANCE_ID") != Some("")
    requires i < |cols[Staff]| && Matches(cols[Staff][i], StaffQuery(organisation, staffId))
    requires id in MultipleRefs(cols[Staff][i], "staffModuleInstances")
    ensures var asWritten := ForeignEffect(cols, id, organisation, "", "", true);
      i < |asWritten[Staff]| && id in MultipleRefs(asWritten[Staff][i], "staffModuleInstances")
    ensures var intended := ForeignEffect(cols, id, organisation, staffId, moduleInstanceId, true);
      i < |intended[Staff]| && id !in MultipleRefs(intended[Staff][i], "staffModuleInstances")
  {
    FlushedKeysPullNothing(cols, id, organisation);
    var intended := ForeignEffect(cols, id, organisation, staffId, moduleInstanceId, true);
    SmiForeignEffect(cols, id, organisation, staffId, moduleInstanceId, true);
    assert SameIdentity(cols[Staff][i], intended[Staff][i]);
    SameIdentityKeepsMatch(cols[Staff][i], intended[Staff][i], StaffQuery(organisation, staffId));
  }

  // ---------------------------------------------------------------------
  // The model being saved
  // ---------------------------------------------------------------------

  class StaffModuleInstance {
    const id: ObjectId
    const organisation: ObjectId
    var staffId: string                 // STAFF_ID
    var moduleInstanceId: string        // MOD_INSTANCE_ID
    var deleted: bool                   // the soft-delete marker
    var staff: Option<ObjectId>
    var moduleInstance: Option<ObjectId>

    constructor (id: ObjectId, organisation: ObjectId, staffId: string, moduleInstanceId: string)
      ensures this.id == id && this.organisation == organisation
      ensures this.staffId == staffId && this.moduleInstanceId == moduleInstanceId && !deleted
      ensures staff == None && moduleInstance == None
    {
      this.id := id;
      this.organisation := organisation;
      this.staffId := staffId;
      this.moduleInstanceId := moduleInstanceId;
      deleted := false;
      staff := None;
      moduleInstance := None;
    }

    /** `staff` and `moduleInstance` are the first documents matched by the business keys, or null. */
    ghost predicate LocalRelationsHold(cols: Collections)
      reads this
      requires forall c: Collection :: c in cols
    {
      && staff == FirstMatch(cols[Staff], StaffQuery(organisation, staffId))
      && moduleInstance == FirstMatch(cols[ModuleInstance], ModuleQuery(organisation, moduleInstanceId))
    }

    method UpdateForeignRelations(store: DocumentStore, removeRelations: bool)
      requires store.Valid()
      modifies store
      ensures store.Valid()
      ensures store.collections
           == ForeignEffect(old(store.collections), id, organisation, staffId, moduleInstanceId, removeRelations)
    {
      store.UpdateForeignMultiple(Staff, id, removeRelations, StaffQuery(organisation, staffId), "staffModuleInstances");
      store.UpdateForeignMultiple(ModuleInstance, id, removeRelations, ModuleQuery(organisation, moduleInstanceId), "staffModuleInstances");
    }

    method UpdateLocalRelations(store: DocumentStore)
      requires store.Valid()
      modifies this`staff, this`moduleInstance
      ensures LocalRelationsHold(store.collections)
    {
      staff := store.FindFirstId(Staff, StaffQuery(organisation, staffId));
      moduleInstance := store.FindFirstId(ModuleInstance, ModuleQuery(organisation, moduleInstanceId));
    }

    /** pre('save'): foreign side with remove = `deleted`, and the local side. */
    method PreSave(store: DocumentStore)
      requires store.Valid()
      modifies store, this`staff, this`moduleInstance
      ensures store.Valid()
      ensures store.collections
           == ForeignEffect(old(store.collections), id, organisation, staffId, moduleInstanceId, deleted)
      ensures LocalRelationsHold(store.collections) && LocalRelationsHold(old(store.collections))
    {
      var removeForeignRelations := deleted;
      UpdateForeignRelations(store, removeForeignRelations);
      UpdateLocalRelations(store);
      SmiForeignEffect(old(store.collections), id, organisation, staffId, moduleInstanceId, deleted);
      SameIdentitiesSameMatches(old(store.collections)[Staff], store.collections[Staff],
                                StaffQuery(organisation, staffId));
      SameIdentitiesSameMatches(old(store.collections)[ModuleInstance], store.collections[ModuleInstance],
                                ModuleQuery(organisation, moduleInstanceId));
    }

    /** pre('remove'): foreign-side removal only. */
    method PreDelete(store: DocumentStore)
      requires store.Valid()
      modifies store
      ensures store.Valid()
      ensures store.collections
           == ForeignEffect(old(store.collections), id, organisation, staffId, moduleInstanceId, true)
    {
      var removeForeignRelations := true;
      UpdateForeignRelations(store, removeForeignRelations);
    }

    /**
     * Soft delete as the hooks are registered: the flush empties the business
     * keys and drops both relations, and the save hook then runs on what is
     * left. With `FlushedKeysPullNothing`, the store keeps the instance in
     * every `staffModuleInstances` array that held it.
     */
    method SoftDeleteAsWritten(store: DocumentStore)
      requires store.Valid()
      modifies store, this`staffId, this`moduleInstanceId, this`deleted, this`staff, this`moduleInstance
      ensures store.Valid()
      ensures deleted && staffId == "" && moduleInstanceId == ""
      ensures store.collections == ForeignEffect(old(store.collections), id, organisation, "", "", true)
      ensures LocalRelationsHold(store.collections)
    {
      ghost var before := store.collections;
      deleted := true;
      staffId := "";
      moduleInstanceId := "";
      PreSave(store);
      assert LocalRelationsHold(store.collections);
      assert store.collections == ForeignEffect(before, id, organisation, staffId, moduleInstanceId, true);
    }

    /**
     * Soft delete as intended: the save hook runs on the business keys the
     * instance had, so every matched staff member and module instance drops
     * it, and the flush then empties the keys and drops both relations.
     */
    method SoftDelete(store: DocumentStore)
      requires store.Valid()
      modifies store, this`staffId, this`moduleInstanceId, this`deleted, this`staff, this`moduleInstance
      ensures store.Valid()
      ensures deleted && staffId == "" && moduleInstanceId == "" && staff == None && moduleInstance == None
      ensures store.collections
           == ForeignEffect(old(store.collections), id, organisation, old(staffId), old(moduleInstanceId), true)
      ensures HoldsRef(store.collections[Staff], StaffQuery(organisation, old(staffId)), "staffModuleInstances", id, false)
      ensures HoldsRef(store.collections[ModuleInstance], ModuleQuery(organisation, old(moduleInstanceId)),
                       "staffModuleInstances", id, false)
    {
      ghost var before := store.collections;
      deleted := true;
      PreSave(store);
      assert store.collections == ForeignEffect(before, id, organisation, staffId, moduleInstanceId, true);
      SmiForeignEffect(before, id, organisation, staffId, moduleInstanceId, true);
      staffId := "";
      moduleInstanceId := "";
      staff := None;
      moduleInstance := None;
    }
  }
}
