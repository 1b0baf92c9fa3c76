/**
 * An abstract, sequential document store for one JISC connection, and the
 * four relation helpers every JISC model uses from its lifecycle hooks:
 * updateForeignSingular, updateForeignMultiple (they rewrite back-references
 * on documents of other collections) and updateLocalSingular,
 * updateLocalMultiple (they compute the saved model's own references).
 *
 * A document keeps only what the relation engine looks at: its identifier,
 * its organisation (tenant), its business-key strings, and its singular and
 * multiple reference fields. A collection is a sequence of documents in
 * natural (insertion) order.
 */
module Store {
  import opened Base

  /** The collections the four core models read and write. */
  datatype Collection =
    | Student
    | StudentAssessmentInstance
    | StudentCourseInstance
    | StudentCourseMembership
    | StudentModuleInstance
    | Institution
    | Staff
    | ModuleInstance
    | CourseInstance
    | StaffModuleInstance
    | StaffCourseInstance

  datatype Doc = Doc(
    id: ObjectId,
    organisation: ObjectId,
    keys: map<string, string>,                  // business keys, e.g. STUDENT_ID
    singular: map<string, Option<ObjectId>>,    // e.g. student, tutor
    multiple: map<string, seq<ObjectId>>)       // e.g. mentees, studentCourseInstances

  /** The value of a business key; a key the document lacks reads as null. */
  function KeyValue(d: Doc, k: string): Option<string> {
    if k in d.keys then Some(d.keys[k]) else None
  }

  function SingularRef(d: Doc, f: string): Option<ObjectId> {
    if f in d.singular then d.singular[f] else None
  }

  function MultipleRefs(d: Doc, f: string): seq<ObjectId> {
    if f in d.multiple then d.multiple[f] else []
  }

  /**
   * A match query: the organisation plus zero or more business keys. A key
   * whose wanted value is null matches documents that lack the key, as an
   * equality-with-null filter does in the document database.
   */
  datatype Query = Query(organisation: ObjectId, keys: map<string, Option<string>>)

  /** A document matches when the organisation and EVERY key of the query agree. */
  predicate Matches(d: Doc, q: Query) {
    && d.organisation == q.organisation
    && forall k :: k in q.keys ==> KeyValue(d, k) == q.keys[k]
  }

  /** Two documents are the same stored entity with the same identity and keys. */
  predicate SameIdentity(a: Doc, b: Doc) {
    a.id == b.id && a.organisation == b.organisation && a.keys == b.keys
  }

  /** Two collections hold the same entities, in the same order, up to reference fields. */
  predicate SameIdentities(a: seq<Doc>, b: seq<Doc>) {
    |a| == |b| && forall i :: 0 <= i < |a| ==> SameIdentity(a[i], b[i])
  }

  lemma SameIdentityKeepsMatch(a: Doc, b: Doc, q: Query)
    requires SameIdentity(a, b)
    ensures Matches(a, q) == Matches(b, q)
  {
    assert forall k :: KeyValue(a, k) == KeyValue(b, k);
  }

  // ---------------------------------------------------------------------
  // Reference-list operations: $addToSet and $pull on one array field
  // ---------------------------------------------------------------------

  /** Adds `x` unless it is already present; an array that holds `x` is left as it is. */
  function AddToSet(s: seq<ObjectId>, x: ObjectId): (r: seq<ObjectId>)
    ensures x in r
    ensures forall y :: y in r <==> y in s || y == x
    ensures x in s ==> r == s
    ensures x !in s ==> r == s + [x]
    ensures NoDup(s) ==> NoDup(r)
  {
    if x in s then s else s + [x]
  }

  /** Removes every occurrence of `x`, keeping the order of the rest. */
  function Pull(s: seq<ObjectId>, x: ObjectId): (r: seq<ObjectId>)
    ensures forall y :: y in r <==> y in s && y != x
    ensures |r| <= |s|
    ensures NoDup(s) ==> NoDup(r)
    ensures x !in s ==> r == s
  {
    if s == [] then []
    else
      var rest := Pull(s[1..], x);
      assert forall y :: y in s <==> y == s[0] || y in s[1..];
      assert NoDup(s) ==> NoDup(s[1..]) by {
        if NoDup(s) {
          forall i, j | 0 <= i < j < |s[1..]| ensures s[1..][i] != s[1..][j] {
            assert s[1..][i] == s[i + 1] && s[1..][j] == s[j + 1];
          }
        }
      }
      if s[0] == x then rest
      else
        assert x !in s ==> s == [s[0]] + s[1..];
        assert NoDup(s) ==> NoDup([s[0]] + rest) by {
          if NoDup(s) {
            assert s[0] !in s[1..] by {
              forall k | 0 <= k < |s[1..]| ensures s[1..][k] != s[0] {
                assert s[1..][k] == s[k + 1];
              }
            }
            var r := [s[0]] + rest;
            forall i, j | 0 <= i < j < |r| ensures r[i] != r[j] {
              if i == 0 {
                assert r[j] == rest[j - 1];
                assert rest[j - 1] in rest;
              } else {
                assert r[i] == rest[i - 1] && r[j] == rest[j - 1];
              }
            }
          }
        }
        [s[0]] + rest
  }

  /**
   * Pull is the filter that drops `x`: it keeps a single other id, removes
   * `x` itself, and works piece by piece, so the remaining ids keep their order.
   */
  lemma {:induction false} PullIsFilter(a: seq<ObjectId>, b: seq<ObjectId>, x: ObjectId, y: ObjectId)
    ensures Pull([y], x) == if y == x then [] else [y]
    ensures Pull(a + b, x) == Pull(a, x) + Pull(b, x)
    decreases |a|
  {
    assert [y][1..] == [];
    if a == [] {
      assert a + b == b;
    } else {
      assert (a + b)[1..] == a[1..] + b;
      PullIsFilter(a[1..], b, x, y);
    }
  }

  /** Pull leaves no copy of `x` and every other id as many times as before. */
  lemma {:induction false} PullCounts(s: seq<ObjectId>, x: ObjectId)
    ensures multiset(Pull(s, x)) == multiset(s)[x := 0]
  {
    if s != [] {
      PullCounts(s[1..], x);
      assert s == [s[0]] + s[1..];
    }
  }

  /** The back-reference update of the multiple helpers: add on save, pull on removal. */
  function AddOrPull(s: seq<ObjectId>, x: ObjectId, remove: bool): seq<ObjectId> {
    if remove then Pull(s, x) else AddToSet(s, x)
  }

  // ---------------------------------------------------------------------
  // Foreign-side updates on a collection
  // ---------------------------------------------------------------------

  function WithSingular(d: Doc, f: string, v: Option<ObjectId>): Doc {
    d.(singular := d.singular[f := v])
  }

  function WithMultiple(d: Doc, f: string, s: seq<ObjectId>): Doc {
    d.(multiple := d.multiple[f := s])
  }

  /** Sets singular field `f` of every matching document to `v`; the rest is untouched. */
  function SetSingularWhere(docs: seq<Doc>, q: Query, f: string, v: Option<ObjectId>): (r: seq<Doc>)
    ensures SameIdentities(docs, r)
    ensures forall i :: 0 <= i < |docs| && Matches(docs[i], q) ==> SingularRef(r[i], f) == v
    ensures forall i :: 0 <= i < |docs| && !Matches(docs[i], q) ==> r[i] == docs[i]
    ensures forall i, g :: 0 <= i < |docs| && g != f ==> SingularRef(r[i], g) == SingularRef(docs[i], g)
    ensures forall i :: 0 <= i < |docs| ==> r[i].multiple == docs[i].multiple
  {
    seq(|docs|, i requires 0 <= i < |docs| =>
      if Matches(docs[i], q) then WithSingular(docs[i], f, v) else docs[i])
  }

  /** Adds `x` to (or pulls it from) array field `f` of every matching document. */
  function UpdateMultipleWhere(docs: seq<Doc>, q: Query, f: string, x: ObjectId, remove: bool): (r: seq<Doc>)
    ensures SameIdentities(docs, r)
    ensures forall i :: 0 <= i < |docs| && Matches(docs[i], q) && !remove ==> x in MultipleRefs(r[i], f)
    ensures forall i :: 0 <= i < |docs| && Matches(docs[i], q) && remove ==> x !in MultipleRefs(r[i], f)
    ensures forall i, y :: 0 <= i < |docs| && y != x ==> (y in MultipleRefs(r[i], f) <==> y in MultipleRefs(docs[i], f))
    ensures forall i :: 0 <= i < |docs| && !Matches(docs[i], q) ==> r[i] == docs[i]
    ensures forall i, g :: 0 <= i < |docs| && g != f ==> MultipleRefs(r[i], g) == MultipleRefs(docs[i], g)
    ensures forall i :: 0 <= i < |docs| ==> r[i].singular == docs[i].singular
  {
    seq(|docs|, i requires 0 <= i < |docs| =>
      if Matches(docs[i], q) then WithMultiple(docs[i], f, AddOrPull(MultipleRefs(docs[i], f), x, remove))
      else docs[i])
  }

  // ---------------------------------------------------------------------
  // Local-side queries
  // ---------------------------------------------------------------------

  /** The identifiers of all matching documents, in natural order (a find). */
  function MatchingIds(docs: seq<Doc>, q: Query): (ids: seq<ObjectId>)
    ensures forall x :: x in ids <==> exists i :: 0 <= i < |docs| && Matches(docs[i], q) && docs[i].id == x
    ensures UniqueIds(docs) ==> NoDup(ids)
    ensures |ids| <= |docs|
    ensures (forall i :: 0 <= i < |docs| ==> !Matches(docs[i], q)) ==> ids == []
  {
    if docs == [] then []
    else
      var init := docs[..|docs| - 1];
      var last := docs[|docs| - 1];
      var ids := MatchingIds(init, q);
      assert forall i :: 0 <= i < |init| ==> init[i] == docs[i];
      assert UniqueIds(docs) ==> UniqueIds(init);
      if Matches(last, q) then
        assert UniqueIds(docs) ==> last.id !in ids;
        ids + [last.id]
      else ids
  }

  /** The identifier of the first matching document, or null when none matches (a findOne). */
  function FirstMatch(docs: seq<Doc>, q: Query): (r: Option<ObjectId>)
    ensures r.None? <==> forall i :: 0 <= i < |docs| ==> !Matches(docs[i], q)
    ensures r.Some? ==> exists i :: 0 <= i < |docs| && Matches(docs[i], q) && docs[i].id == r.value
                                     && forall j :: 0 <= j < i ==> !Matches(docs[j], q)
  {
    if docs == [] then None
    else if Matches(docs[0], q) then
      assert Matches(docs[0], q) && docs[0].id == docs[0].id;
      Some(docs[0].id)
    else
      var r := FirstMatch(docs[1..], q);
      assert forall i :: 1 <= i < |docs| ==> docs[1..][i - 1] == docs[i];
      if r.Some? then
        var k :| 0 <= k < |docs[1..]| && Matches(docs[1..][k], q) && docs[1..][k].id == r.value
                 && forall j :: 0 <= j < k ==> !Matches(docs[1..][j], q);
        assert forall j :: 0 <= j < k + 1 ==> !Matches(docs[j], q) by {
          forall j | 0 <= j < k + 1 ensures !Matches(docs[j], q) {
            if j > 0 { assert docs[j] == docs[1..][j - 1]; }
          }
        }
        assert Matches(docs[k + 1], q) && docs[k + 1].id == r.value;
        r
      else r
  }

  /** When exactly one document matches, a find returns exactly its id, and findOne finds it. */
  lemma {:induction false} SingleMatch(docs: seq<Doc>, q: Query, k: nat)
    requires k < |docs| && Matches(docs[k], q)
    requires forall j :: 0 <= j < |docs| && j != k ==> !Matches(docs[j], q)
    ensures MatchingIds(docs, q) == [docs[k].id]
    ensures FirstMatch(docs, q) == Some(docs[k].id)
  {
    var n := |docs| - 1;
    var init := docs[..n];
    assert docs == init + [docs[n]];
    if k == n {
      assert forall j :: 0 <= j < |init| ==> !Matches(init[j], q);
    } else {
      assert forall j :: 0 <= j < |init| && j != k ==> !Matches(init[j], q);
      SingleMatch(init, q, k);
    }
    if FirstMatch(docs, q).Some? {
      var i :| 0 <= i < |docs| && Matches(docs[i], q) && docs[i].id == FirstMatch(docs, q).value;
      assert i == k;
    }
  }

  /** Every stored document of a collection has its own `_id`. */
  predicate UniqueIds(docs: seq<Doc>) {
    forall i, j :: 0 <= i < j < |docs| ==> docs[i].id != docs[j].id
  }

  /**
   * Local queries see the same entities before and after any rewrite of
   * reference fields: the foreign-side and local-side updates of one save do
   * not interfere, which is why they may run in parallel.
   */
  lemma {:induction false} SameIdentitiesSameMatches(a: seq<Doc>, b: seq<Doc>, q: Query)
    requires SameIdentities(a, b)
    ensures MatchingIds(a, q) == MatchingIds(b, q)
    ensures FirstMatch(a, q) == FirstMatch(b, q)
  {
    if a != [] {
      var n := |a| - 1;
      SameIdentityKeepsMatch(a[n], b[n], q);
      SameIdentityKeepsMatch(a[0], b[0], q);
      assert SameIdentities(a[..n], b[..n]);
      assert SameIdentities(a[1..], b[1..]) by {
        forall i | 0 <= i < |a[1..]| ensures SameIdentity(a[1..][i], b[1..][i]) {
          assert a[1..][i] == a[i + 1] && b[1..][i] == b[i + 1];
        }
      }
      SameIdentitiesSameMatches(a[..n], b[..n], q);
      SameIdentitiesSameMatches(a[1..], b[1..], q);
    }
  }

  /** Rewriting a singular field twice with the same value is the same as doing it once. */
  lemma SetSingularWhereIdempotent(docs: seq<Doc>, q: Query, f: string, v: Option<ObjectId>)
    ensures SetSingularWhere(SetSingularWhere(docs, q, f, v), q, f, v) == SetSingularWhere(docs, q, f, v)
  {
    var once := SetSingularWhere(docs, q, f, v);
    var twice := SetSingularWhere(once, q, f, v);
    forall i | 0 <= i < |docs| ensures twice[i] == once[i] {
      SameIdentityKeepsMatch(docs[i], once[i], q);
      if Matches(docs[i], q) {
        assert once[i].singular[f := v] == once[i].singular;
      }
    }
  }

  // ---------------------------------------------------------------------
  // The whole store
  // ---------------------------------------------------------------------

  type Collections = map<Collection, seq<Doc>>

  /** A unique index on (organisation, key) of one collection. */
  datatype UniqueIndex = UniqueIndex(collection: Collection, key: string)

  /** No two documents share the organisation and the value of `key` (a missing key counts as null). */
  predicate UniqueOn(docs: seq<Doc>, key: string) {
    forall i, j :: 0 <= i < j < |docs| ==>
      !(docs[i].organisation == docs[j].organisation && KeyValue(docs[i], key) == KeyValue(docs[j], key))
  }

  /** Every collection exists, `_id` is unique in each, and every declared unique index holds. */
  predicate ValidCollections(cols: Collections, indexes: set<UniqueIndex>) {
    && (forall c: Collection :: c in cols)
    && (forall c :: c in cols ==> UniqueIds(cols[c]))
    && (forall ix :: ix in indexes && ix.collection in cols ==> UniqueOn(cols[ix.collection], ix.key))
  }

  /** Every array reference field of every document is free of duplicates. */
  predicate NoDupRefs(cols: Collections) {
    forall c, i, f :: c in cols && 0 <= i < |cols[c]| && f in cols[c][i].multiple ==> NoDup(cols[c][i].multiple[f])
  }

  lemma SameIdentitiesKeepValid(cols: Collections, c: Collection, docs: seq<Doc>, indexes: set<UniqueIndex>)
    requires ValidCollections(cols, indexes)
    requires SameIdentities(cols[c], docs)
    ensures ValidCollections(cols[c := docs], indexes)
  {
    var r := cols[c := docs];
    forall ix | ix in indexes && ix.collection in r ensures UniqueOn(r[ix.collection], ix.key) {
      assert forall i :: 0 <= i < |docs| ==> KeyValue(docs[i], ix.key) == KeyValue(cols[c][i], ix.key);
    }
  }

  /** A unique index holding in a store means a query on that key matches at most one document. */
  lemma {:induction false} UniqueKeyMatchesAtMostOne(docs: seq<Doc>, key: string, q: Query)
    requires UniqueOn(docs, key) && UniqueIds(docs)
    requires key in q.keys
    ensures |MatchingIds(docs, q)| <= 1
  {
    if docs != [] {
      var n := |docs| - 1;
      var init := docs[..n];
      assert UniqueOn(init, key) && UniqueIds(init);
      UniqueKeyMatchesAtMostOne(init, key, q);
      if Matches(docs[n], q) {
        forall i | 0 <= i < |init| ensures !Matches(init[i], q) {
          assert init[i] == docs[i];
          assert !(docs[i].organisation == docs[n].organisation && KeyValue(docs[i], key) == KeyValue(docs[n], key));
        }
      }
    }
  }

  /** The collection one helper call rewrote, in the store. */
  function SetSingularIn(cols: Collections, c: Collection, q: Query, f: string, v: Option<ObjectId>): (r: Collections)
    requires c in cols
    ensures r.Keys == cols.Keys
    ensures SameIdentities(cols[c], r[c])
    ensures forall c' :: c' in cols && c' != c ==> r[c'] == cols[c']
  {
    cols[c := SetSingularWhere(cols[c], q, f, v)]
  }

  function UpdateMultipleIn(cols: Collections, c: Collection, q: Query, f: string, x: ObjectId, remove: bool): (r: Collections)
    requires c in cols
    ensures r.Keys == cols.Keys
    ensures SameIdentities(cols[c], r[c])
    ensures forall c' :: c' in cols && c' != c ==> r[c'] == cols[c']
  {
    cols[c := UpdateMultipleWhere(cols[c], q, f, x, remove)]
  }

  /** Two stores hold the same collections with the same entities in each. */
  predicate SameEntities(a: Collections, b: Collections) {
    a.Keys == b.Keys && forall c :: c in a ==> SameIdentities(a[c], b[c])
  }

  lemma SameEntitiesTrans(a: Collections, b: Collections, c: Collections)
    requires SameEntities(a, b) && SameEntities(b, c)
    ensures SameEntities(a, c)
  {
  }

  lemma SetSingularInSameEntities(cols: Collections, c: Collection, q: Query, f: string, v: Option<ObjectId>)
    requires c in cols
    ensures SameEntities(cols, SetSingularIn(cols, c, q, f, v))
  {
  }

  lemma UpdateMultipleInSameEntities(cols: Collections, c: Collection, q: Query, f: string, x: ObjectId, remove: bool)
    requires c in cols
    ensures SameEntities(cols, UpdateMultipleIn(cols, c, q, f, x, remove))
  {
  }

  /** Every document of `docs` that `q` matches has singular field `f` equal to `v`. */
  predicate PointsAt(docs: seq<Doc>, q: Query, f: string, v: Option<ObjectId>) {
    forall i :: 0 <= i < |docs| && Matches(docs[i], q) ==> SingularRef(docs[i], f) == v
  }

  /** Every document of `docs` that `q` matches holds `x` in array field `f` exactly when `present`. */
  predicate HoldsRef(docs: seq<Doc>, q: Query, f: string, x: ObjectId, present: bool) {
    forall i :: 0 <= i < |docs| && Matches(docs[i], q) ==> (x in MultipleRefs(docs[i], f) <==> present)
  }

  /** After a singular update, every matching document points at the value written. */
  lemma SetSingularInPointsAt(cols: Collections, c: Collection, q: Query, f: string, v: Option<ObjectId>)
    requires c in cols
    ensures PointsAt(SetSingularIn(cols, c, q, f, v)[c], q, f, v)
  {
    var r := SetSingularIn(cols, c, q, f, v)[c];
    forall i | 0 <= i < |r| && Matches(r[i], q) ensures SingularRef(r[i], f) == v {
      SameIdentityKeepsMatch(cols[c][i], r[i], q);
    }
  }

  /** After an array update, every matching document holds `x` exactly when it was added. */
  lemma UpdateMultipleInHoldsRef(cols: Collections, c: Collection, q: Query, f: string, x: ObjectId, remove: bool)
    requires c in cols
    ensures HoldsRef(UpdateMultipleIn(cols, c, q, f, x, remove)[c], q, f, x, !remove)
  {
    var r := UpdateMultipleIn(cols, c, q, f, x, remove)[c];
    forall i | 0 <= i < |r| && Matches(r[i], q) ensures x in MultipleRefs(r[i], f) <==> !remove {
      SameIdentityKeepsMatch(cols[c][i], r[i], q);
    }
  }

  /**
   * `b` only adds to `a`: the same entities, the same singular references,
   * and every id of every array reference still present.
   */
  ghost predicate Additive(a: Collections, b: Collections) {
    && SameEntities(a, b)
    && (forall c, i :: c in a && 0 <= i < |a[c]| ==> b[c][i].singular == a[c][i].singular)
    && (forall c, i, f, y :: c in a && 0 <= i < |a[c]| && y in MultipleRefs(a[c][i], f) ==> y in MultipleRefs(b[c][i], f))
  }

  lemma AdditiveTrans(a: Collections, b: Collections, c: Collections)
    requires Additive(a, b) && Additive(b, c)
    ensures Additive(a, c)
  {
  }

  /** Adding to a set never takes anything away. */
  lemma AddIsAdditive(cols: Collections, c: Collection, q: Query, f: string, x: ObjectId)
    requires c in cols
    ensures Additive(cols, UpdateMultipleIn(cols, c, q, f, x, false))
  {
    var r := UpdateMultipleIn(cols, c, q, f, x, false);
    forall c', i, g, y | c' in cols && 0 <= i < |cols[c']| && y in MultipleRefs(cols[c'][i], g)
      ensures y in MultipleRefs(r[c'][i], g)
    {
      if c' == c && g == f && y == x && Matches(cols[c][i], q) {
        assert x in MultipleRefs(r[c][i], f);
      }
    }
  }

  /** Adding an id every matching document already holds changes nothing. */
  lemma AddAgainChangesNothing(cols: Collections, c: Collection, q: Query, f: string, x: ObjectId)
    requires c in cols && HoldsRef(cols[c], q, f, x, true)
    ensures UpdateMultipleIn(cols, c, q, f, x, false) == cols
  {
    var docs := cols[c];
    var r := UpdateMultipleWhere(docs, q, f, x, false);
    forall i | 0 <= i < |docs| ensures r[i] == docs[i] {
      if Matches(docs[i], q) {
        assert f in docs[i].multiple;
        assert docs[i].multiple[f := docs[i].multiple[f]] == docs[i].multiple;
      }
    }
    assert r == docs;
  }

  /** Repeating an array update changes nothing: the second add finds the id, the second pull finds it gone. */
  lemma UpdateMultipleWhereIdempotent(docs: seq<Doc>, q: Query, f: string, x: ObjectId, remove: bool)
    ensures UpdateMultipleWhere(UpdateMultipleWhere(docs, q, f, x, remove), q, f, x, remove)
         == UpdateMultipleWhere(docs, q, f, x, remove)
  {
    var once := UpdateMultipleWhere(docs, q, f, x, remove);
    var twice := UpdateMultipleWhere(once, q, f, x, remove);
    forall i | 0 <= i < |docs| ensures twice[i] == once[i] {
      SameIdentityKeepsMatch(docs[i], once[i], q);
      if Matches(docs[i], q) {
        var a := AddOrPull(MultipleRefs(docs[i], f), x, remove);
        assert MultipleRefs(once[i], f) == a;
        assert AddOrPull(a, x, remove) == a;
        assert once[i].multiple[f := a] == once[i].multiple;
      }
    }
  }

  /** A collection a singular update already produced is left as it is by the same update. */
  lemma SetSingularInAgain(cols: Collections, c: Collection, q: Query, f: string, v: Option<ObjectId>, docs: seq<Doc>)
    requires c in cols && cols[c] == SetSingularWhere(docs, q, f, v)
    ensures SetSingularIn(cols, c, q, f, v) == cols
  {
    SetSingularWhereIdempotent(docs, q, f, v);
  }

  /** A collection an array update already produced is left as it is by the same update. */
  lemma UpdateMultipleInAgain(cols: Collections, c: Collection, q: Query, f: string, x: ObjectId, remove: bool,
                              docs: seq<Doc>)
    requires c in cols && cols[c] == UpdateMultipleWhere(docs, q, f, x, remove)
    ensures UpdateMultipleIn(cols, c, q, f, x, remove) == cols
  {
    UpdateMultipleWhereIdempotent(docs, q, f, x, remove);
  }

  /** An array update whose query matches no document leaves the store as it is. */
  lemma UpdateMultipleInNoMatch(cols: Collections, c: Collection, q: Query, f: string, x: ObjectId, remove: bool)
    requires c in cols
    requires forall i :: 0 <= i < |cols[c]| ==> !Matches(cols[c][i], q)
    ensures UpdateMultipleIn(cols, c, q, f, x, remove) == cols
  {
    var docs := UpdateMultipleWhere(cols[c], q, f, x, remove);
    assert docs == cols[c];
  }

  /** Tenant isolation: every document of another organisation is in `b` exactly as it is in `a`. */
  predicate OtherOrganisationsUntouched(a: Collections, b: Collections, organisation: ObjectId) {
    && a.Keys == b.Keys
    && forall c, i :: c in a && 0 <= i < |a[c]| && a[c][i].organisation != organisation ==>
         i < |b[c]| && b[c][i] == a[c][i]
  }

  lemma OtherOrganisationsUntouchedTrans(a: Collections, b: Collections, c: Collections, organisation: ObjectId)
    requires OtherOrganisationsUntouched(a, b, organisation) && OtherOrganisationsUntouched(b, c, organisation)
    ensures OtherOrganisationsUntouched(a, c, organisation)
  {
  }

  /** A singular update issued under one organisation writes no document of another. */
  lemma SetSingularInIsolated(cols: Collections, c: Collection, q: Query, f: string, v: Option<ObjectId>)
    requires c in cols
    ensures OtherOrganisationsUntouched(cols, SetSingularIn(cols, c, q, f, v), q.organisation)
  {
  }

  /** An array update issued under one organisation writes no document of another. */
  lemma UpdateMultipleInIsolated(cols: Collections, c: Collection, q: Query, f: string, x: ObjectId, remove: bool)
    requires c in cols
    ensures OtherOrganisationsUntouched(cols, UpdateMultipleIn(cols, c, q, f, x, remove), q.organisation)
  {
  }

  /** One array field of one document of a duplicate-free store. */
  lemma NoDupRefsAt(cols: Collections, c: Collection, i: nat, f: string)
    requires NoDupRefs(cols) && c in cols && i < |cols[c]|
    ensures NoDup(MultipleRefs(cols[c][i], f))
  {
    if f in cols[c][i].multiple {
      assert MultipleRefs(cols[c][i], f) == cols[c][i].multiple[f];
    }
  }

  /** Adding or pulling one id keeps every array of the store duplicate-free. */
  lemma UpdateMultipleKeepsNoDup(cols: Collections, c: Collection, q: Query, f: string, x: ObjectId, remove: bool)
    requires c in cols && NoDupRefs(cols)
    ensures NoDupRefs(UpdateMultipleIn(cols, c, q, f, x, remove))
  {
    var r: Collections := UpdateMultipleIn(cols, c, q, f, x, remove);
    forall c': Collection, i: int, g: string | c' in r && 0 <= i < |r[c']| && g in r[c'][i].multiple ensures NoDup(r[c'][i].multiple[g]) {
      assert NoDup(MultipleRefs(cols[c'][i], g));
      assert r[c'][i].multiple[g] == MultipleRefs(r[c'][i], g);
      if c' == c && g == f && Matches(cols[c][i], q) {
        assert MultipleRefs(r[c][i], f) == AddOrPull(MultipleRefs(cols[c][i], f), x, remove);
      }
    }
  }

  lemma SetSingularKeepsNoDup(cols: Collections, c: Collection, q: Query, f: string, v: Option<ObjectId>)
    requires c in cols && NoDupRefs(cols)
    ensures NoDupRefs(SetSingularIn(cols, c, q, f, v))
  {
    var r: Collections := SetSingularIn(cols, c, q, f, v);
    forall c': Collection, i: int, g: string | c' in r && 0 <= i < |r[c']| && g in r[c'][i].multiple ensures NoDup(r[c'][i].multiple[g]) {
      assert r[c'][i].multiple == cols[c'][i].multiple;
    }
  }

  /**
   * One JISC connection: every collection of the store, plus the unique
   * indexes its schemas declare.
   */
  class DocumentStore {
    var collections: Collections
    const indexes: set<UniqueIndex>

    ghost predicate Valid()
      reads this
    {
      ValidCollections(collections, indexes)
    }

    constructor (indexes: set<UniqueIndex>)
      ensures Valid() && this.indexes == indexes
      ensures forall c: Collection :: collections[c] == []
    {
      this.indexes := indexes;
      collections := map[
        Student := [], StudentAssessmentInstance := [], StudentCourseInstance := [],
        StudentCourseMembership := [], StudentModuleInstance := [], Institution := [],
        Staff := [], ModuleInstance := [], CourseInstance := [],
        StaffModuleInstance := [], StaffCourseInstance := []];
      new;
      forall c: Collection ensures c in collections && collections[c] == [] {
        match c
        case Student =>
        case StudentAssessmentInstance =>
        case StudentCourseInstance =>
        case StudentCourseMembership =>
        case StudentModuleInstance =>
        case Institution =>
        case Staff =>
        case ModuleInstance =>
        case CourseInstance =>
        case StaffModuleInstance =>
        case StaffCourseInstance =>
      }
    }

    /**
     * Persists a new document. Refused when its `_id` is taken or when a unique
     * index of the collection already has a document with its organisation and key.
     */
    method Insert(c: Collection, d: Doc) returns (ok: bool)
      requires Valid()
      modifies this
      ensures Valid()
      ensures ok <==> Insertable(old(collections)[c], d, KeysOf(indexes, c))
      ensures collections == if ok then old(collections)[c := old(collections)[c] + [d]] else old(collections)
    {
      ok := Insertable(collections[c], d, KeysOf(indexes, c));
      if ok {
        var docs := collections[c] + [d];
        forall ix | ix in indexes && ix.collection == c ensures UniqueOn(docs, ix.key) {
          assert ix.key in KeysOf(indexes, c);
        }
        collections := collections[c := docs];
      }
    }

    /** updateForeignSingular: point `f` of every matching document at `id`, or clear it on removal. */
    method UpdateForeignSingular(c: Collection, id: ObjectId, remove: bool, q: Query, f: string)
      requires Valid()
      modifies this
      ensures Valid()
      ensures collections == SetSingularIn(old(collections), c, q, f, if remove then None else Some(id))
    {
      var v := if remove then None else Some(id);
      var docs := collections[c];
      var updated: seq<Doc> := [];
      var i := 0;
      while i < |docs|
        invariant 0 <= i <= |docs|
        invariant |updated| == i
        invariant forall j :: 0 <= j < i ==>
          updated[j] == if Matches(docs[j], q) then WithSingular(docs[j], f, v) else docs[j]
      {
        var d := docs[i];
        if Matches(d, q) {
          d := WithSingular(d, f, v);
        }
        updated := updated + [d];
        i := i + 1;
      }
      assert updated == SetSingularWhere(docs, q, f, v);
      SameIdentitiesKeepValid(collections, c, updated, indexes);
      collections := collections[c := updated];
    }

    /** updateForeignMultiple: add `id` to array `f` of every matching document, or pull it on removal. */
    method UpdateForeignMultiple(c: Collection, id: ObjectId, remove: bool, q: Query, f: string)
      requires Valid()
      modifies this
      ensures Valid()
      ensures collections == UpdateMultipleIn(old(collections), c, q, f, id, remove)
    {
      var docs := collections[c];
      var updated: seq<Doc> := [];
      var i := 0;
      while i < |docs|
        invariant 0 <= i <= |docs|
        invariant |updated| == i
        invariant forall j :: 0 <= j < i ==>
          updated[j] == if Matches(docs[j], q)
                        then WithMultiple(docs[j], f, AddOrPull(MultipleRefs(docs[j], f), id, remove))
                        else docs[j]
      {
        var d := docs[i];
        if Matches(d, q) {
          d := WithMultiple(d, f, AddOrPull(MultipleRefs(d, f), id, remove));
        }
        updated := updated + [d];
        i := i + 1;
      }
      assert updated == UpdateMultipleWhere(docs, q, f, id, remove);
      SameIdentitiesKeepValid(collections, c, updated, indexes);
      collections := collections[c := updated];
    }

    /** updateLocalMultiple's lookup: the ids of every matching document, in natural order. */
    method FindMatchingIds(c: Collection, q: Query) returns (ids: seq<ObjectId>)
      requires c in collections
      ensures ids == MatchingIds(collections[c], q)
    {
      var docs := collections[c];
      ids := [];
      var i := 0;
      while i < |docs|
        invariant 0 <= i <= |docs|
        invariant ids == MatchingIds(docs[..i], q)
      {
        assert docs[..i + 1][..i] == docs[..i];
        if Matches(docs[i], q) {
          ids := ids + [docs[i].id];
        }
        i := i + 1;
      }
      assert docs[..i] == docs;
    }

    /** updateLocalSingular's lookup: the id of the first matching document, or null. */
    method FindFirstId(c: Collection, q: Query) returns (r: Option<ObjectId>)
      requires c in collections
      ensures r == FirstMatch(collections[c], q)
    {
      var docs := collections[c];
      var i := 0;
      while i < |docs|
        invariant 0 <= i <= |docs|
        invariant FirstMatch(docs[i..], q) == FirstMatch(docs, q)
      {
        if Matches(docs[i], q) {
          return Some(docs[i].id);
        }
        assert docs[i..][1..] == docs[i + 1..];
        i := i + 1;
      }
      r := None;
    }
  }

  /** The keys of the unique indexes declared on collection `c`. */
  function KeysOf(indexes: set<UniqueIndex>, c: Collection): (keys: set<string>)
    ensures forall k :: k in keys <==> UniqueIndex(c, k) in indexes
  {
    set ix | ix in indexes && ix.collection == c :: ix.key
  }

  /** A new document fits when its id is fresh and no unique key collides in its organisation. */
  predicate Insertable(docs: seq<Doc>, d: Doc, uniqueKeys: set<string>) {
    && (forall i :: 0 <= i < |docs| ==> docs[i].id != d.id)
    && (forall i, k :: 0 <= i < |docs| && k in uniqueKeys ==>
          !(docs[i].organisation == d.organisation && KeyValue(docs[i], k) == KeyValue(d, k)))
  }
}
