# JISC relation sync and field tables, in Dafny

This project models the core of the JISC learning-analytics data models of
Learning Locker. Each model is a document schema with three parts:

- a declarative field table: per field a type, the validators (`required`,
  `min`, `max`, `enum`, `default`) and a `readAccess` list of client scopes;
- per entity, read scopes and write scopes, plus the soft-delete keep set
  where the model has one;
- two hooks. `pre('save')` and `pre('remove')` keep the relations between
  documents consistent in both directions.

In a save, the *foreign side* writes the saved document's id into
back-references on related documents, or removes it from them. The *local
side* recomputes the saved document's own relation fields from the related
documents that match its business keys.

Four models are covered:

- `Student` (JISC 1.2.7), in `student.dfy`;
- `StudentCourseInstance` (1.2.3), in `student_course_instance.dfy`;
- `StaffModuleInstance` (1.2.6), in `staff_module_instance.dfy`;
- `StaffCourseInstance` (1.2.3), in `staff_course_instance.dfy`.

`store.dfy` models one database connection as a class `DocumentStore`. It
holds every collection as a field of type `map<Collection, seq<Doc>>`. Its
four methods are the relation helpers:

- `UpdateForeignSingular` sets one reference field on every matching
  document, or sets it to null;
- `UpdateForeignMultiple` adds an id to an array field of every matching
  document as a set, or pulls it;
- `FindMatchingIds` returns the ids of all matching documents;
- `FindFirstId` returns the id of the first matching document.

Each method is proved against a pure function over the collections. `schema.dfy`
holds the scopes and read filtering, the mapper's casts, the validators as a function from a field and a value to
the first error, defaults, and the soft-delete flush.

Each model is a `class` whose fields are the in-memory document being saved.
Its hooks are methods that modify the store, or the relation fields, and
nothing else. Every foreign side is specified by a function (`ForeignEffect`)
that composes the helper updates in source order. The lemmas beside it state
what a save or a remove leaves behind.

## Model

| member | source | states |
|---|---|---|
| Store.AddToSet | lib/plugins/jisc_1_2_7/models/student.js:125-134 | adding an id to an array reference as a set: the id is present afterwards, nothing else is added or lost, an array already holding it is unchanged, a new id goes at the end, and a duplicate-free array stays duplicate-free |
| Store.Pull | lib/plugins/jisc_1_2_7/models/student.js:125-134 | pulling an id: exactly that id is gone, every other id stays, and duplicate-freedom is kept |
| Store.PullCounts | lib/plugins/jisc_1_2_7/models/student.js:125-134 | after a pull the id occurs zero times and every other id as many times as before |
| Store.PullIsFilter | lib/plugins/jisc_1_2_7/models/student.js:125-134 | pull drops a lone copy of the id, keeps any other lone id, and distributes over concatenation, so the remaining ids keep their order |
| Store.SetSingularWhere | lib/plugins/jisc_1_2_7/models/student.js:110-123 | every matching document's reference field becomes the saved id (or null on remove); non-matching documents and every other field are unchanged; no document is added or dropped |
| Store.UpdateMultipleWhere | lib/plugins/jisc_1_2_7/models/student.js:125-134 | every matching document holds the id in the array field after an add and does not hold it after a remove; other ids, other fields and non-matching documents are unchanged |
| Store.MatchingIds | lib/plugins/jisc_1_2_7/models/student.js:151-162 | an id is in the result exactly when a document with that id matches the query; with unique `_id`s the result has no duplicates; no match gives an empty array |
| Store.FirstMatch | lib/plugins/jisc_1_2_7/models/student.js:164-168 | null exactly when no document matches; otherwise the id of a matching document before which no document matches (findOne in stored order) |
| Store.SingleMatch | lib/plugins/jisc_1_2_6/models/tests/student-hydration-test.js:69-85 | when exactly one document matches, the local array is exactly `[its id]` (length one) and the singular relation is that id |
| Store.UniqueKeyMatchesAtMostOne | lib/plugins/jisc_1_2_7/models/student.js:76 | under a unique (organisation, key) index, a query on that key matches at most one document |
| Store.SetSingularWhereIdempotent | lib/plugins/jisc_1_2_7/models/student.js:113-120 | applying the same singular update twice equals applying it once |
| Store.SameIdentitiesSameMatches | lib/plugins/jisc_1_2_7/models/student.js:172-179 | rewriting reference fields never changes which documents a local query finds, so the foreign and local sides of one save may run in either order |
| Store.AddIsAdditive | lib/plugins/jisc_1_2_3/models/studentCourseInstance.js:47-56 | an add-only foreign update keeps every document, every singular reference and every id already present in any array |
| Store.UpdateMultipleWhereIdempotent | lib/plugins/jisc_1_2_7/models/student.js:125-134 | repeating an add, or repeating a pull, of the same id on the same query gives the same collection as doing it once |
| Store.SetSingularInAgain | lib/plugins/jisc_1_2_7/models/student.js:110-123 | a collection a singular update already produced is left unchanged by the same update |
| Store.UpdateMultipleInAgain | lib/plugins/jisc_1_2_7/models/student.js:125-134 | a collection an array update already produced is left unchanged by the same update |
| Store.SetSingularInIsolated | lib/plugins/jisc_1_2_7/models/student.js:110-123 | a singular update issued under one organisation leaves every document of another organisation as it was |
| Store.UpdateMultipleInIsolated | lib/plugins/jisc_1_2_7/models/student.js:125-134 | an array update issued under one organisation leaves every document of another organisation as it was |
| Store.AddAgainChangesNothing | lib/plugins/jisc_1_2_3/models/staffCourseInstance.js:39-51 | adding an id that every matching document already holds leaves the store unchanged |
| Store.UpdateMultipleKeepsNoDup | lib/plugins/jisc_1_2_7/models/student.js:125-134 | adding or pulling keeps every array reference of the store duplicate-free |
| Store.DocumentStore.Insert | lib/plugins/jisc_1_2_7/models/student.js:76 | an insert succeeds exactly when it keeps `_id` and every declared unique index unique, and then appends the document |
| Store.DocumentStore.UpdateForeignSingular | lib/plugins/jisc_1_2_7/models/student.js:111 | the new store is `SetSingularIn` of the old one for that collection, and the store stays valid |
| Store.DocumentStore.UpdateForeignMultiple | lib/plugins/jisc_1_2_7/models/student.js:126-134 | the new store is `UpdateMultipleIn` of the old one, and the store stays valid |
| Store.DocumentStore.FindMatchingIds | lib/plugins/jisc_1_2_7/models/student.js:153 | the loop returns `MatchingIds` of the collection |
| Store.DocumentStore.FindFirstId | lib/plugins/jisc_1_2_7/models/student.js:165-168 | the loop returns `FirstMatch` of the collection |
| Schemas.ReadOnlyScope | lib/plugins/jisc_1_2_7/models/student.js:78-80 | with read scopes = base + UDD_READ and write scopes = base: every write scope can read, UDD_READ is the only read-only scope, and UDD_READ alone cannot write |
| Schemas.FilterRead | lib/plugins/jisc_1_2_7/models/student.js:93 | a caller sees exactly the paths it may read, with their stored values: `_id` and `organisation` always, a declared path with the universal scope or with a scope of its readAccess list |
| Schemas.UniversalScopeReadsAll | lib/plugins/jisc_1_2_7/models/student.js:93 | with the universal scope every declared or always-visible path of a document is returned unchanged |
| Schemas.UnlistedNeedsUniversalScope | lib/plugins/jisc_1_2_7/models/student.js:64 | a declared path without a readAccess list that is not always visible is returned exactly when the caller holds the universal scope |
| Schemas.DecimalRoundTrip | lib/plugins/jisc_1_2_7/models/student.js:18 | reading back the numeral a number is written as gives the number, negative numbers included |
| Schemas.Cast | lib/plugins/jisc_1_2_7/models/student.js:18-32 | null stays null and a value of the path's type is kept; any other successful cast yields a value of the path's type, and only an empty string on a number path becomes null |
| Schemas.CastNumberRoundTrip | lib/plugins/jisc_1_2_7/models/student.js:18-32 | a number cast to a string path gives its numeral, and that numeral cast to a number path gives the number back |
| Schemas.CastDocument | lib/plugins/jisc_1_2_7/models/student.js:17-75 | the cast document has the same paths; undeclared paths keep their values and each declared path holds its value cast to the path's type |
| Schemas.FieldError | lib/plugins/jisc_1_2_7/models/student.js:29-32 | a path has no error exactly when its value casts and all validators pass on the cast value; `CastFailed` exactly when the cast fails; without error the cast value is null or of the path's type; a `Required`, `BelowMin` or `AboveMax` error implies the violated bound on the cast value |
| Schemas.ValidIffNoErrors | lib/plugins/jisc_1_2_7/models/student.js:17-75 | a document is valid exactly when its error map is empty |
| Schemas.ValidBounded | lib/plugins/jisc_1_2_7/models/student.js:29-32 | once cast, a bounded number field of a valid document is undefined, null or within [min, max] |
| Schemas.ValidRequiredString | lib/plugins/jisc_1_2_7/models/student.js:18 | once cast, a required string field of a valid document is a non-empty string |
| Schemas.ApplyDefaults | lib/plugins/jisc_1_2_3/models/studentCourseInstance.js:16 | defaults fill exactly the undefined fields that declare one, and keep every given value |
| Schemas.DefaultedFieldValid | lib/plugins/jisc_1_2_3/models/studentCourseInstance.js:16 | a field filled with a default that passes its validators is valid |
| Schemas.Flush | lib/plugins/jisc_1_2_7/models/student.js:87-91 | a flushed document keeps `_id`, `organisation` and the keep set with their values; every other string path present becomes `""`; every other path is removed |
| Schemas.FlushIdempotent | lib/plugins/jisc_1_2_7/models/student.js:87-91 | flushing an already flushed document changes nothing |
| StudentModel.StudentScopes | lib/plugins/jisc_1_2_7/models/student.js:78-80 | Student write scopes are within its read scopes, and UDD_READ is the one read-only scope |
| StudentModel.LapWritesButCannotReadRelations | lib/plugins/jisc_1_2_7/models/student.js:69-80 | LAP may write a student and read SEXID, but cannot read `tutor` or `studentCourseInstances` |
| StudentModel.StudentFieldAccess | lib/plugins/jisc_1_2_7/models/student.js:17-75 | the universal scope reads every declared field and UDD_READ every field with a readAccess list; `organisation` is visible to every caller; `ENTRY_POSTCODE`, which has no list, is readable exactly with the universal scope |
| StudentModel.StudentIdPresent | lib/plugins/jisc_1_2_7/models/student.js:18 | a valid student has a STUDENT_ID, which once cast is a non-empty string |
| StudentModel.StudentProfileBounds | lib/plugins/jisc_1_2_7/models/student.js:29-30 | once cast, SEXID is in [1,4] and LEARN_DIF in [1,99] when given |
| StudentModel.StudentDisabilityBounds | lib/plugins/jisc_1_2_7/models/student.js:31-32 | once cast, DISABILITY1 and DISABILITY2 are in [0,99] when given |
| StudentModel.StudentBackgroundBounds | lib/plugins/jisc_1_2_7/models/student.js:42-44 | once cast, TERMTIME_ACCOM, PARENTS_ED and SOCIO_EC are in [1,9] when given |
| StudentModel.StudentCodes | lib/plugins/jisc_1_2_7/models/student.js:21-41 | ETHNICITY and DOMICILE accept null, and a string exactly when it is a listed code; ETHNICITY accepts a number exactly when its numeral is a listed code |
| StudentModel.StudentFlushKeepsKey | lib/plugins/jisc_1_2_7/models/student.js:87-91 | a flushed student keeps `_id`, `organisation` and STUDENT_ID with their values, holds `""` for a given FIRST_NAME, and has no SEXID |
| StudentModel.StudentFlushDropsRelations | lib/plugins/jisc_1_2_7/models/student.js:87-91 | a flushed student has no DOB, `tutor`, `studentCourseMemberships` or `studentCourseInstances` |
| StudentModel.StudentRequiredFields | lib/plugins/jisc_1_2_7/models/student.js:17-75 | STUDENT_ID is the only required Student field |
| StudentModel.StudentKeyFindsAtMostOne | lib/plugins/jisc_1_2_7/models/student.js:76 | with the unique (organisation, STUDENT_ID) index, a student's key finds at most one stored student |
| StudentModel.ForeignEffectKeepsDocuments | lib/plugins/jisc_1_2_7/models/student.js:96-137 | a save or a remove adds, drops and re-keys no document, so a removed student's counterparts still exist |
| StudentModel.ForeignEffectLinksBack | lib/plugins/jisc_1_2_7/models/student.js:109-123 | after a save every matching assessment, course, membership and module instance has `student` = the student's id; after a remove it is null |
| StudentModel.ForeignEffectLinksArrays | lib/plugins/jisc_1_2_7/models/student.js:125-134 | after a save the matched tutor's `mentees` and every Institution of the organisation's `students` hold the id; after a remove neither holds it |
| StudentModel.DuplicateUpdateIsIdempotent | lib/plugins/jisc_1_2_7/models/student.js:113-120 | the two StudentCourseInstance updates of one save have exactly the effect of one |
| StudentModel.ForeignEffectIdempotent | lib/plugins/jisc_1_2_7/models/student.js:96-137 | running the foreign side of the same save, or of the same remove, a second time changes nothing |
| StudentModel.ForeignEffectIsolated | lib/plugins/jisc_1_2_7/models/student.js:96-137 | a save or remove under one organisation leaves every document of another organisation as it was |
| StudentModel.ForeignEffectLeavesOthers | lib/plugins/jisc_1_2_7/models/student.js:96-137 | collections other than the six named ones are untouched |
| StudentModel.MenteeAddedOnce | lib/plugins/jisc_1_2_6/models/tests/student-hydration-test.js:87-95 | in a duplicate-free store, the matched tutor holds the student exactly once in `mentees` after a save, and so does every Institution of the organisation in `students` |
| StudentModel.ForeignEffectKeepsNoDup | lib/plugins/jisc_1_2_7/models/student.js:125-134 | a save or remove keeps every array reference of the store duplicate-free |
| StudentModel.Student.UpdateForeignRelations | lib/plugins/jisc_1_2_7/models/student.js:96-137 | the seven helper calls, in source order, leave the store as `ForeignEffect` of the old one |
| StudentModel.Student.UpdateLocalRelations | lib/plugins/jisc_1_2_7/models/student.js:139-170 | the four arrays are the ids of the matching documents, each once, and `tutor` is the first staff member matched by TUTOR_STAFF_ID, or null |
| StudentModel.Student.PreSave | lib/plugins/jisc_1_2_7/models/student.js:172-179 | the foreign side runs with remove = `deleted`; the local relations agree with the store both before and after the foreign side |
| StudentModel.Student.PreDelete | lib/plugins/jisc_1_2_7/models/student.js:181-187 | the foreign side runs with remove = true, and no local relation is touched |
| StudentCourseInstanceModel.SciRequiredFields | lib/plugins/jisc_1_2_3/models/studentCourseInstance.js:12-30 | STUDENT_ID, STUDENT_COURSE_MEMBERSHIP_ID, STUDENT_COURSE_MEMBERSHIP_SEQ and MODE are exactly the required fields |
| StudentCourseInstanceModel.SciModeBounded | lib/plugins/jisc_1_2_3/models/studentCourseInstance.js:16 | MODE of a valid document is present and, once cast, a number in [1,99] |
| StudentCourseInstanceModel.SciModeNumeral | lib/plugins/jisc_1_2_3/models/studentCourseInstance.js:16 | MODE written as a numeral passes exactly when the number is in [1,99]; an empty string is cast to null and fails as `Required` |
| StudentCourseInstanceModel.SciModeDefault | lib/plugins/jisc_1_2_3/models/studentCourseInstance.js:16 | a missing MODE becomes 98, which passes MODE's validators |
| StudentCourseInstanceModel.SciScopes | lib/plugins/jisc_1_2_3/models/studentCourseInstance.js:27-33 | UDD_READ only reads; `student`, which has no readAccess list, is readable exactly with the universal scope; `organisation` is visible to every caller; `studentCourseMembership` is readable by exactly the record scopes |
| StudentCourseInstanceModel.SciForeignEffect | lib/plugins/jisc_1_2_3/models/studentCourseInstance.js:43-57 | after a save, every matching Student and StudentCourseMembership lists the instance; other collections are untouched and nothing is removed |
| StudentCourseInstanceModel.SciSaveIdempotent | lib/plugins/jisc_1_2_3/models/studentCourseInstance.js:43-57 | saving the same instance twice has the foreign effect of saving it once |
| StudentCourseInstanceModel.SciKeepsNoDup | lib/plugins/jisc_1_2_3/models/studentCourseInstance.js:43-57 | a save keeps every array reference of a duplicate-free store duplicate-free |
| StudentCourseInstanceModel.SciHeldOnce | lib/plugins/jisc_1_2_3/models/studentCourseInstance.js:43-57 | in a duplicate-free store, every matched Student and every matched StudentCourseMembership holds the instance's id exactly once after a save |
| StudentCourseInstanceModel.SciIsolated | lib/plugins/jisc_1_2_3/models/studentCourseInstance.js:43-57 | a save under one organisation leaves every document of another organisation as it was |
| StudentCourseInstanceModel.MembershipMatchIgnoresSeq | lib/plugins/jisc_1_2_3/models/studentCourseInstance.js:52-55 | whether a membership matches does not depend on its STUDENT_COURSE_MEMBERSHIP_SEQ |
| StudentCourseInstanceModel.StudentCourseInstance.UpdateForeignRelations | lib/plugins/jisc_1_2_3/models/studentCourseInstance.js:43-57 | the two add-only helper calls leave the store as `ForeignEffect` of the old one |
| StudentCourseInstanceModel.StudentCourseInstance.UpdateLocalRelations | lib/plugins/jisc_1_2_3/models/studentCourseInstance.js:59-73 | `student` and `studentCourseMembership` are the first matches of the business keys, or null |
| StudentCourseInstanceModel.StudentCourseInstance.PreSave | lib/plugins/jisc_1_2_3/models/studentCourseInstance.js:75-81 | both sides run; the local relations agree with the store before and after the foreign side |
| StaffModuleInstanceModel.SmiRequiredFields | lib/plugins/jisc_1_2_6/models/staffModuleInstance.js:13-23 | STAFF_ID and MOD_INSTANCE_ID are exactly the required fields |
| StaffModuleInstanceModel.SmiScopes | lib/plugins/jisc_1_2_6/models/staffModuleInstance.js:14-26 | UDD_READ only reads; SSP may write and read STAFF_ID and `staff`, but cannot read MOD_INSTANCE_ID or `moduleInstance` |
| StaffModuleInstanceModel.SmiFlushEmptiesKeys | lib/plugins/jisc_1_2_6/models/staffModuleInstance.js:33-37 | a flushed instance keeps `_id` and `organisation` with their values, holds `""` for STAFF_ID and MOD_INSTANCE_ID, and has no `staff` or `moduleInstance` |
| StaffModuleInstanceModel.SmiIsolated | lib/plugins/jisc_1_2_6/models/staffModuleInstance.js:44-61 | a save or remove under one organisation leaves every document of another organisation as it was |
| StaffModuleInstanceModel.SmiForeignEffect | lib/plugins/jisc_1_2_6/models/staffModuleInstance.js:44-61 | the matched Staff and ModuleInstance documents hold the id after a save and not after a remove; documents stay; other collections are untouched; a save takes nothing away |
| StaffModuleInstanceModel.SmiForeignEffectIdempotent | lib/plugins/jisc_1_2_6/models/staffModuleInstance.js:44-61 | repeating the foreign side of the same save, or of the same remove, changes nothing |
| StaffModuleInstanceModel.SmiHeldOnce | lib/plugins/jisc_1_2_6/models/staffModuleInstance.js:44-61 | in a duplicate-free store, every matched staff member and every matched module instance holds the id exactly once after a save and not at all after a remove, and the store stays duplicate-free |
| StaffModuleInstanceModel.FlushedKeysPullNothing | lib/plugins/jisc_1_2_6/models/staffModuleInstance.js:33-89 | when no stored staff member or module instance has an empty key, a removal with the emptied keys changes nothing, and both local relations come out null |
| StaffModuleInstanceModel.StaffModuleInstance.UpdateForeignRelations | lib/plugins/jisc_1_2_6/models/staffModuleInstance.js:44-61 | the two helper calls leave the store as `ForeignEffect` of the old one |
| StaffModuleInstanceModel.StaffModuleInstance.UpdateLocalRelations | lib/plugins/jisc_1_2_6/models/staffModuleInstance.js:63-80 | `staff` and `moduleInstance` are the first matches of the business keys, or null |
| StaffModuleInstanceModel.StaffModuleInstance.PreSave | lib/plugins/jisc_1_2_6/models/staffModuleInstance.js:82-89 | the foreign side runs with remove = `deleted`; the local relations agree with the store before and after it |
| StaffModuleInstanceModel.SoftDeleteLeavesStaleReference | lib/plugins/jisc_1_2_6/models/staffModuleInstance.js:33-89 | a staff member that matches the instance's key and holds its id still holds it after a removal with the emptied keys, and no longer holds it after a removal with the keys the instance had |
| StaffModuleInstanceModel.StaffModuleInstance.SoftDeleteAsWritten | lib/plugins/jisc_1_2_6/models/staffModuleInstance.js:33-89 | soft delete with the flush registered before the save hook: the keys are emptied first, and the store becomes the removal of the emptied keys |
| StaffModuleInstanceModel.StaffModuleInstance.SoftDelete | lib/plugins/jisc_1_2_6/models/staffModuleInstance.js:33-89 | soft delete with the relations synced on the keys the instance had: no matched staff member or module instance holds the id afterwards, and the keys are then emptied and both relations dropped |
| StaffModuleInstanceModel.StaffModuleInstance.PreDelete | lib/plugins/jisc_1_2_6/models/staffModuleInstance.js:91-97 | the foreign side runs with remove = true only |
| StaffCourseInstanceModel.StaffCiRequiredFields | lib/plugins/jisc_1_2_3/models/staffCourseInstance.js:12-22 | STAFF_ID and COURSE_INSTANCE_ID are exactly the required fields |
| StaffCourseInstanceModel.StaffCiScopes | lib/plugins/jisc_1_2_3/models/staffCourseInstance.js:12-25 | every readAccess list equals the read scopes as a set, so reading a field is exactly being granted a read scope; `organisation` is visible to every caller; UDD_READ only reads |
| StaffCourseInstanceModel.StaffCiForeignEffect | lib/plugins/jisc_1_2_3/models/staffCourseInstance.js:35-52 | after a save the matched Staff and CourseInstance documents list the instance; nothing is removed and other collections are untouched |
| StaffCourseInstanceModel.StaffCiKeepsNoDup | lib/plugins/jisc_1_2_3/models/staffCourseInstance.js:35-52 | a save keeps every array reference of a duplicate-free store duplicate-free |
| StaffCourseInstanceModel.StaffCiHeldOnce | lib/plugins/jisc_1_2_3/models/staffCourseInstance.js:35-52 | in a duplicate-free store, every matched Staff and every matched CourseInstance holds the instance's id exactly once after a save |
| StaffCourseInstanceModel.StaffCiIsolated | lib/plugins/jisc_1_2_3/models/staffCourseInstance.js:35-52 | a save under one organisation leaves every document of another organisation as it was |
| StaffCourseInstanceModel.StaffCiSaveIdempotent | lib/plugins/jisc_1_2_3/models/staffCourseInstance.js:35-52 | saving the same instance twice has the foreign effect of saving it once |
| StaffCourseInstanceModel.StaffCourseInstance.UpdateForeignRelations | lib/plugins/jisc_1_2_3/models/staffCourseInstance.js:35-52 | the two add-only helper calls leave the store as `ForeignEffect` of the old one |
| StaffCourseInstanceModel.StaffCourseInstance.UpdateLocalRelations | lib/plugins/jisc_1_2_3/models/staffCourseInstance.js:54-71 | `staff` and `courseInstance` are the first matches of the business keys, or null |
| StaffCourseInstanceModel.StaffCourseInstance.PreSave | lib/plugins/jisc_1_2_3/models/staffCourseInstance.js:73-79 | both sides run; the local relations agree with the store before and after the foreign side |

## Left out

- The relation helpers of `lib/plugins/jisc_1_2_*/utils/relations` are not part of this model. Their behaviour is taken from how the models call them and from the hydration test:
  - a singular update writes every matching document;
  - an array update is a set-add or a pull on every matching document;
  - a local array is the ids of every match, in stored order;
  - a local singular is the first match, or null.
- The 1.2.3 array helper takes no remove flag. It is modelled as an add.
- A query key whose value is null or undefined matches documents that lack the key, as a database equality on null does. For example, a student with no TUTOR_STAFF_ID matches staff without a STAFF_ID.
- `async.parallel` concurrency and error propagation are not modelled. The store never fails, and the helper calls run in source order. `Store.SameIdentitiesSameMatches` and the two-state ensures of each `PreSave` show that this order does not change the local result.
- The hooks of the counterpart models (Staff, StudentCourseMembership, StudentModuleInstance and the others) are not part of this model. So the reverse deletions of the hydration test (student-hydration-test.js:159-201) are not modelled.
- `Store.SingleMatch` and `StudentModel.MenteeAddedOnce` state what the Student hooks themselves produce. In the hydration test, the staff member, the assessment instance and the module instance are inserted after the student (student-hydration-test.js:46-49). So the test's `tutor`, `mentees`, assessment-instance and module-instance assertions (69-95) also depend on the counterpart hooks, which are not part of this model.
- A soft-deleted counterpart is not marked in `Store.Doc`. So `MatchingIds` and `FirstMatch` still return it, and the foreign updates still write it. A default read that excludes deleted documents is not modelled.
- Plugins:
  - The timestamps plugin (CREATED_AT, UPDATED_AT) depends on a clock.
  - `filterByOrg` is represented only by the organisation part of every query.
  - `fieldScoping` and `scopeChecks` are represented by `Schemas.CanRead`, `Schemas.FilterRead` and `Schemas.CanWrite`. The plugins' own code is not part of this model. The read rule is the documented one: `_id` and `organisation` are always visible, the universal scope reads every declared path, and any other scope reads the paths whose readAccess list names it.
- The soft-delete plugin is represented by the `deleted` flag and `Schemas.Flush`. The flush empties only the string paths the document has; a string path the document lacks stays absent. The delete marker and the deletion timestamp are not modelled. For StaffModuleInstance both orders of flush and save hook are modelled (see "## Findings"). For Student the order is not modelled, and `Student` does not apply `Flush` to its own fields. Two consequences are not captured:
  - If the flush (registered at student.js:87, before the save hook at 172) empties TUTOR_STAFF_ID first, the tutor query matches no tutor, and the tutor keeps the student in `mentees`. The model's `PreSave` pulls the id using the student's TUTOR_STAFF_ID as it stands.
  - `Student.PreSave` with `deleted` recomputes the four arrays from the store. So a soft-deleted student gets its arrays back, because its counterparts still match it by STUDENT_ID.
- `maxLength` validators are not modelled: strings are unbounded.
- Numbers are integers. The fractional bounds of X_COURSE_AVERAGE_MARK and X_YEAR_AVERAGE_MARK in [0, 1] are modelled as integer bounds.
- Dates are integer timestamps. The cast of a DOB string is not modelled.
- FieldError (`Schemas.FieldError`) casts only the integer forms:
  - a number to its decimal numeral on a string path;
  - an optionally signed string of decimal digits, an empty string (to null) or a date to a number on a number path;
  - a number to a date.
  
  Other casts the mapper accepts are reported as `CastFailed`. These include:
  - fractional, exponent, hexadecimal and space-padded numerals;
  - `"Infinity"`, and a string of blanks (which casts to 0);
  - booleans;
  - a date or an ObjectId to a string;
  - a hexadecimal string to an ObjectId.
- The ethnicity and domicile code lists are not part of this model. They are parameters of `StudentModel.StudentSchema`.
- The non-unique index on (organisation, MOD_INSTANCE_ID) of StaffModuleInstance is not modelled, because it does not change behaviour.
- The `toObject` and `toJSON` virtuals settings are not modelled, because they only shape serialisation.
- Three DocumentStore methods (`Insert`, `UpdateForeignSingular` and `UpdateForeignMultiple`) and the save and remove hooks of every model have contracts that use `old(...)`. Their contracts are connections to the `ForeignEffect`, `SetSingularIn`, `UpdateMultipleIn`, `MatchingIds` and `FirstMatch` functions. What a save promises is proved about those functions in the lemmas listed above.
- StaffModuleInstanceModel.StaffModuleInstance.PreSave: run on its own, it uses the business keys as they stand. A soft delete with the flush first is `SoftDeleteAsWritten`, listed under "## Findings".

## Findings

| source | as written | input that shows it | evidently intended | confidence | as-written member | corrected member |
|---|---|---|---|---|---|---|
| lib/plugins/jisc_1_2_6/models/staffModuleInstance.js:33-89 | the soft-delete flush (keep `organisation`, registered at 33-37) runs before the save hook (82-89), so the hook queries Staff and ModuleInstance with STAFF_ID `""` and MOD_INSTANCE_ID `""` | a staff member with STAFF_ID "S1" holding id 7 in `staffModuleInstances`; soft-deleting instance 7 with STAFF_ID "S1" matches no staff member, so the staff member still holds 7, and `staff` and `moduleInstance` become null | the removal pulls the id from the staff member and module instance the instance named before the flush | medium, not executed; the soft-delete plugin's code is not part of this model, and its hook order is taken from the registration order | StaffModuleInstanceModel.SoftDeleteLeavesStaleReference | StaffModuleInstanceModel.StaffModuleInstance.SoftDelete |
