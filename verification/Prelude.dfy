/** Small datatypes and sequence functions that every other module uses. */
module Prelude {

  datatype Option<+T> = None | Some(value: T)

  /** Why a transaction of the local database raises. */
  datatype Error = BadSplitSize | DuplicateKey | NotFound | NotFailed | BadDigest | BadCount
    | FileMismatch | OtherImportActive | SnapshotConflict | MemberNotPending | NotCapturable
    | CountMismatch | AlreadyBound | TooManyProcessed | ResultUnavailable | NotContiguous
    | UnsupportedOutcome | UploadRequired | UnsafePlaceholder | IdentityMismatch | NotAnUpsert
    | IncompleteRow | EmptyPage | NotVerified | NotRejectionFree | NotFullyApplied | MemberMissing
    | NotATerminalState | AlreadySent | ForeignTask

  /** A raised exception is an Err: the enclosing transaction is rolled back. */
  datatype Result<+T> = Ok(value: T) | Err(error: Error)

  function Flatten<T>(ss: seq<seq<T>>): seq<T> {
    if ss == [] then [] else ss[0] + Flatten(ss[1..])
  }

  lemma {:induction false} FlattenAppend<T>(a: seq<seq<T>>, b: seq<seq<T>>)
    ensures Flatten(a + b) == Flatten(a) + Flatten(b)
  {
    if a == [] {
      assert a + b == b;
    } else {
      assert (a + b)[1..] == a[1..] + b;
      FlattenAppend(a[1..], b);
      assert a[0] + (Flatten(a[1..]) + Flatten(b)) == (a[0] + Flatten(a[1..])) + Flatten(b);
    }
  }

  lemma FlattenSnoc<T>(a: seq<seq<T>>, last: seq<T>)
    ensures Flatten(a + [last]) == Flatten(a) + last
  {
    FlattenAppend(a, [last]);
    assert [last][1..] == [];
    assert Flatten([last]) == last + Flatten([last][1..]);
  }

  lemma {:induction false} FlattenMember<T>(ss: seq<seq<T>>, x: T)
    ensures x in Flatten(ss) <==> exists s :: s in ss && x in s
  {
    if ss != [] {
      FlattenMember(ss[1..], x);
      assert ss == [ss[0]] + ss[1..];
    }
  }
}
