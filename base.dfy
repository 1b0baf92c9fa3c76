/**
 * Small shared vocabulary: optional values, document identifiers and
 * duplicate-free reference lists.
 */
module Base {

  /** A value that may be missing: a `null` or `undefined` field of a document. */
  datatype Option<+T> = None | Some(value: T)

  /** The opaque storage identifier (`_id`) of a stored document. */
  type ObjectId = nat

  /** No identifier occurs twice in `s`. */
  predicate NoDup(s: seq<ObjectId>) {
    forall i, j :: 0 <= i < j < |s| ==> s[i] != s[j]
  }

  /** A duplicate-free list holds each of its members exactly once. */
  lemma {:induction false} NoDupOccursOnce(s: seq<ObjectId>, x: ObjectId)
    requires NoDup(s)
    ensures multiset(s)[x] == if x in s then 1 else 0
  {
    if s != [] {
      assert s == [s[0]] + s[1..];
      assert NoDup(s[1..]) by {
        forall i, j | 0 <= i < j < |s[1..]| ensures s[1..][i] != s[1..][j] {
          assert s[1..][i] == s[i + 1] && s[1..][j] == s[j + 1];
        }
      }
      NoDupOccursOnce(s[1..], x);
      if s[0] == x {
        assert x !in s[1..] by {
          forall k | 0 <= k < |s[1..]| ensures s[1..][k] != x {
            assert s[1..][k] == s[k + 1];
          }
        }
      }
    }
  }
}
