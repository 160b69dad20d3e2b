/** Shared vocabulary of the route handlers: identifiers, handler outcomes and the
    membership operations on id lists (`find`, `filter`, `push`) that the like and
    follow toggles are built from. */
module Common {

  /** Document identifiers (database object ids), taken in their canonical form.
      The handlers test ids for equality only, so any type with equality serves;
      a natural number keeps the proofs cheap. */
  type Id = nat

  datatype Option<T> = None | Some(value: T)

  /** What a handler answers: 200 with the updated document, or one of the error
      statuses it can send, with the message it sends. */
  datatype Outcome =
    | Ok
    | BadRequest(message: string)    // 400
    | Unauthorized(message: string)  // 401
    | NotFound(message: string)      // 404
    | ServerError                    // 500, the catch-all of every handler

  /** No id occurs twice. */
  predicate NoDup(s: seq<Id>) {
    forall i, j :: 0 <= i < j < |s| ==> s[i] != s[j]
  }

  /** `s.filter(e => e !== x)`: every occurrence of `x` dropped, the rest in order.
      Defined from the back so that it follows a left-to-right scan. */
  function Without(s: seq<Id>, x: Id): (r: seq<Id>)
    ensures x !in r
    ensures forall y :: y in r <==> y in s && y != x
    ensures |r| <= |s|
  {
    if s == [] then []
    else Without(s[..|s| - 1], x) + (if s[|s| - 1] == x then [] else [s[|s| - 1]])
  }

  /** The `filter` call itself: one pass that keeps every element other than `x`. */
  method FilterOut(s: seq<Id>, x: Id) returns (r: seq<Id>)
    ensures r == Without(s, x)
  {
    r := [];
    var i := 0;
    while i < |s|
      invariant 0 <= i <= |s|
      invariant r == Without(s[..i], x)
    {
      assert s[..i + 1][..i] == s[..i];
      if s[i] != x {
        r := r + [s[i]];
      }
      i := i + 1;
    }
    assert s[..|s|] == s;
  }

  /** The membership toggle shared by like/unlike and follow/unfollow: when `x` is
      already present it is filtered out, otherwise it is pushed at the end. */
  function Toggled(s: seq<Id>, x: Id): (r: seq<Id>)
    ensures x in r <==> x !in s
    ensures forall y :: y != x ==> (y in r <==> y in s)
  {
    if x in s then Without(s, x) else s + [x]
  }

  /** Filtering out an absent element changes nothing. */
  lemma {:induction false} WithoutAbsent(s: seq<Id>, x: Id)
    requires x !in s
    ensures Without(s, x) == s
  {
    if s != [] {
      var init := s[..|s| - 1];
      assert s == init + [s[|s| - 1]];
      WithoutAbsent(init, x);
    }
  }

  /** Filtering distributes over concatenation: the kept elements of each part
      stay in their original order. */
  lemma {:induction false} WithoutConcat(a: seq<Id>, b: seq<Id>, x: Id)
    ensures Without(a + b, x) == Without(a, x) + Without(b, x)
  {
    if b == [] {
      assert a + b == a;
    } else {
      var init := b[..|b| - 1];
      assert (a + b)[..|a + b| - 1] == a + init;
      WithoutConcat(a, init, x);
    }
  }

  /** When `x` occurs once, at index `k`, filtering removes exactly that entry. */
  lemma {:induction false} WithoutUnique(s: seq<Id>, x: Id, k: nat)
    requires NoDup(s) && k < |s| && s[k] == x
    ensures Without(s, x) == s[..k] + s[k + 1..]
  {
    var pre, post := s[..k], s[k + 1..];
    assert x !in pre && x !in post;
    assert s == (pre + [x]) + post;
    WithoutConcat(pre + [x], post, x);
    WithoutConcat(pre, [x], x);
    assert [x][..0] == [];
    assert Without([x], x) == [];
    WithoutAbsent(pre, x);
    WithoutAbsent(post, x);
  }

  /** Filtering keeps the multiplicity of every other element and drops `x`. */
  lemma {:induction false} WithoutMultiset(s: seq<Id>, x: Id)
    ensures multiset(Without(s, x)) == multiset(s)[x := 0]
  {
    if s != [] {
      var init := s[..|s| - 1];
      assert s == init + [s[|s| - 1]];
      WithoutMultiset(init, x);
    }
  }

  /** Filtering a duplicate-free list leaves it duplicate-free. */
  lemma {:induction false} WithoutNoDup(s: seq<Id>, x: Id)
    requires NoDup(s)
    ensures NoDup(Without(s, x))
  {
    if s != [] {
      var init := s[..|s| - 1];
      var last := s[|s| - 1];
      assert NoDup(init);
      WithoutNoDup(init, x);
      assert last !in init;
    }
  }

  /** A toggle keeps a duplicate-free list duplicate-free. */
  lemma ToggledNoDup(s: seq<Id>, x: Id)
    requires NoDup(s)
    ensures NoDup(Toggled(s, x))
  {
    if x in s {
      WithoutNoDup(s, x);
    }
  }

  /** Toggling twice from "absent" restores the exact original list. */
  lemma ToggleTwice(s: seq<Id>, x: Id)
    requires x !in s
    ensures Toggled(Toggled(s, x), x) == s
  {
    assert (s + [x])[..|s|] == s;
    WithoutAbsent(s, x);
  }
}
