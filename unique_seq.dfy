/**
 * Sequences used as ordered sets: the member list of a project, the list of
 * open files, and the insertion-ordered `Set` of selected collaborators.
 */
module UniqueSeq {

  /** No element occurs twice. */
  predicate NoDup<T(==)>(s: seq<T>) {
    forall i, j :: 0 <= i < j < |s| ==> s[i] != s[j]
  }

  /** `s` with every occurrence of `x` taken out, the rest in order (`Set.delete`). */
  function Remove<T(==,!new)>(s: seq<T>, x: T): (r: seq<T>)
    ensures forall y :: y in r <==> y in s && y != x
    ensures x in s && NoDup(s) ==> |r| == |s| - 1
    ensures x !in s ==> r == s
    ensures NoDup(s) ==> NoDup(r)
  {
    if s == [] then []
    else if s[0] == x then Remove(s[1..], x)
    else
      var rest := Remove(s[1..], x);
      if NoDup(s) then
        assert s[0] !in s[1..] by {
          forall j | 0 < j < |s| ensures s[j] != s[0] { }
        }
        NoDupCons(s[0], rest);
        [s[0]] + rest
      else
        [s[0]] + rest
  }

  lemma NoDupCons<T>(x: T, s: seq<T>)
    requires NoDup(s) && x !in s
    ensures NoDup([x] + s)
  {
  }

  lemma NoDupAppend<T>(s: seq<T>, x: T)
    requires NoDup(s) && x !in s
    ensures NoDup(s + [x])
  {
  }

  /**
   * Appends each element of `xs` that is not yet present, in the order of
   * `xs`; an element already present, or repeated in `xs`, is skipped. The
   * original sequence stays as a prefix. This is Mongo's `$addToSet` with
   * `$each`, and, from an empty start, JavaScript's `[...new Set(xs)]`.
   */
  function AppendMissing<T(==,!new)>(s: seq<T>, xs: seq<T>): (r: seq<T>)
    ensures |s| <= |r| && r[..|s|] == s
    ensures forall y :: y in r <==> y in s || y in xs
    ensures NoDup(s) ==> NoDup(r)
    decreases |xs|
  {
    if xs == [] then s
    else
      var next := if xs[0] in s then s else s + [xs[0]];
      assert NoDup(s) && xs[0] !in s ==> NoDup(next) by {
        if NoDup(s) && xs[0] !in s {
          NoDupAppend(s, xs[0]);
        }
      }
      AppendMissing(next, xs[1..])
  }

  /** Appending elements that are all present already changes nothing. */
  lemma {:induction false} AppendMissingAbsorbs<T(!new)>(s: seq<T>, xs: seq<T>)
    requires forall y :: y in xs ==> y in s
    ensures AppendMissing(s, xs) == s
    decreases |xs|
  {
    if xs != [] {
      AppendMissingAbsorbs(s, xs[1..]);
    }
  }

  /** Appending the same elements twice is the same as appending them once. */
  lemma AppendMissingIdempotent<T(!new)>(s: seq<T>, xs: seq<T>)
    ensures AppendMissing(AppendMissing(s, xs), xs) == AppendMissing(s, xs)
  {
    AppendMissingAbsorbs(AppendMissing(s, xs), xs);
  }

  /** Appending `xs + ys` is appending `xs`, then `ys`. */
  lemma {:induction false} AppendMissingSplit<T(!new)>(s: seq<T>, xs: seq<T>, ys: seq<T>)
    ensures AppendMissing(s, xs + ys) == AppendMissing(AppendMissing(s, xs), ys)
    decreases |xs|
  {
    if xs == [] {
      assert xs + ys == ys;
    } else {
      assert (xs + ys)[0] == xs[0] && (xs + ys)[1..] == xs[1..] + ys;
      var next := if xs[0] in s then s else s + [xs[0]];
      AppendMissingSplit(next, xs[1..], ys);
    }
  }

  /** When nothing repeats, every element is appended: the result is `s + xs`. */
  lemma {:induction false} AppendMissingDistinct<T(!new)>(s: seq<T>, xs: seq<T>)
    requires NoDup(s + xs)
    ensures AppendMissing(s, xs) == s + xs
    decreases |xs|
  {
    if xs != [] {
      assert (s + xs)[|s|] == xs[0];
      assert xs[0] !in s by {
        forall i | 0 <= i < |s| ensures s[i] != xs[0] {
          assert (s + xs)[i] == s[i];
        }
      }
      assert s + xs == (s + [xs[0]]) + xs[1..];
      AppendMissingDistinct(s + [xs[0]], xs[1..]);
    }
  }
}
