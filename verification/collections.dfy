/** Sequences used the way the scripts use JavaScript arrays and Sets.

    A JavaScript `Set` of strings iterates in insertion order, and the
    scripts turn their Sets back into arrays with `Array.from`/spread. Such a
    Set is modelled here as a duplicate-free sequence in insertion order:
    `Insert` is `set.add(x)`, `AddAll` is a loop of `add`s and `Dedup` is
    `[...new Set(xs)]`. */
module Collections {

  datatype Option<+T> = None | Some(value: T) {
    /** `x || default` for a field that may be missing. */
    function GetOr(default: T): T {
      if Some? then value else default
    }
  }

  predicate NoDuplicates<T(==)>(s: seq<T>) {
    forall i, j :: 0 <= i < j < |s| ==> s[i] != s[j]
  }

  /** `set.add(x)` on a Set viewed in insertion order. */
  function Insert<T(==,!new)>(acc: seq<T>, x: T): (r: seq<T>)
    ensures x in r
    ensures forall y :: y in r <==> y in acc || y == x
    ensures |acc| <= |r| <= |acc| + 1 && r[..|acc|] == acc
    ensures NoDuplicates(acc) ==> NoDuplicates(r)
  {
    if x in acc then acc else acc + [x]
  }

  /** Adding the elements of `xs` one by one, front to back. */
  function AddAll<T(==,!new)>(acc: seq<T>, xs: seq<T>): (r: seq<T>)
    ensures |r| <= |acc| + |xs|
    decreases |xs|
  {
    if xs == [] then acc else AddAll(Insert(acc, xs[0]), xs[1..])
  }

  /** `[...new Set(xs)]`: the elements of `xs` in first-occurrence order. */
  function Dedup<T(==,!new)>(xs: seq<T>): (r: seq<T>)
    ensures NoDuplicates(r) && |r| <= |xs|
    ensures forall y :: y in r <==> y in xs
  {
    AddAllNoDuplicates([], xs);
    AddAllMembers([], xs);
    AddAll([], xs)
  }

  lemma {:induction false} AddAllMembers<T(!new)>(acc: seq<T>, xs: seq<T>)
    ensures forall y :: y in AddAll(acc, xs) <==> y in acc || y in xs
    decreases |xs|
  {
    if xs != [] {
      AddAllMembers(Insert(acc, xs[0]), xs[1..]);
      assert xs == [xs[0]] + xs[1..];
    }
  }

  lemma {:induction false} AddAllNoDuplicates<T(!new)>(acc: seq<T>, xs: seq<T>)
    requires NoDuplicates(acc)
    ensures NoDuplicates(AddAll(acc, xs))
    decreases |xs|
  {
    if xs != [] {
      AddAllNoDuplicates(Insert(acc, xs[0]), xs[1..]);
    }
  }

  /** Elements already in the Set keep their places. */
  lemma {:induction false} AddAllKeepsPrefix<T(!new)>(acc: seq<T>, xs: seq<T>)
    ensures |acc| <= |AddAll(acc, xs)| && AddAll(acc, xs)[..|acc|] == acc
    decreases |xs|
  {
    if xs != [] {
      var acc' := Insert(acc, xs[0]);
      AddAllKeepsPrefix(acc', xs[1..]);
      assert AddAll(acc, xs)[..|acc'|][..|acc|] == AddAll(acc, xs)[..|acc|];
    }
  }

  /** Two loops of `add`s in a row are one loop over the concatenation. */
  lemma {:induction false} AddAllAppend<T(!new)>(acc: seq<T>, xs: seq<T>, ys: seq<T>)
    ensures AddAll(acc, xs + ys) == AddAll(AddAll(acc, xs), ys)
    decreases |xs|
  {
    if xs != [] {
      assert (xs + ys)[0] == xs[0] && (xs + ys)[1..] == xs[1..] + ys;
      AddAllAppend(Insert(acc, xs[0]), xs[1..], ys);
    } else {
      assert xs + ys == ys;
    }
  }

  /** Adding one more element at the end is one more `Insert`. */
  lemma AddAllSnoc<T(!new)>(acc: seq<T>, xs: seq<T>, x: T)
    ensures AddAll(acc, xs + [x]) == Insert(AddAll(acc, xs), x)
  {
    AddAllAppend(acc, xs, [x]);
    assert AddAll(Insert(AddAll(acc, xs), x), []) == Insert(AddAll(acc, xs), x);
  }

  /** The elements of `xs` that are not in `drop`, in order (`xs.filter(x => !drop.has(x))`). */
  function Keep<T(==,!new)>(xs: seq<T>, drop: set<T>): (r: seq<T>)
    ensures |r| <= |xs|
    ensures forall y :: y in r <==> y in xs && y !in drop
    decreases |xs|
  {
    if xs == [] then []
    else (if xs[0] in drop then [] else [xs[0]]) + Keep(xs[1..], drop)
  }

  /** Filtering a duplicate-free sequence leaves it duplicate-free. */
  lemma {:induction false} KeepNoDuplicates<T(!new)>(xs: seq<T>, drop: set<T>)
    requires NoDuplicates(xs)
    ensures NoDuplicates(Keep(xs, drop))
    decreases |xs|
  {
    if xs != [] {
      KeepNoDuplicates(xs[1..], drop);
      assert xs[0] !in xs[1..];
    }
  }

  /** The number of occurrences of `x` in `xs`. */
  function Count<T(==)>(xs: seq<T>, x: T): (n: nat)
    ensures n <= |xs|
    ensures n == 0 <==> x !in xs
    decreases |xs|
  {
    if xs == [] then 0
    else Count(xs[..|xs| - 1], x) + (if xs[|xs| - 1] == x then 1 else 0)
  }

  /** `n` copies of `x`. */
  function Repeat<T>(x: T, n: nat): (r: seq<T>)
    ensures |r| == n && forall i :: 0 <= i < n ==> r[i] == x
  {
    if n == 0 then [] else Repeat(x, n - 1) + [x]
  }

  /** In a duplicate-free sequence every element occurs exactly once. */
  lemma {:induction false} CountInNoDuplicates<T>(xs: seq<T>, x: T)
    requires NoDuplicates(xs)
    ensures Count(xs, x) == if x in xs then 1 else 0
    decreases |xs|
  {
    if xs != [] {
      var init := xs[..|xs| - 1];
      assert NoDuplicates(init);
      CountInNoDuplicates(init, x);
      if xs[|xs| - 1] == x {
        assert x !in init;
      } else {
        assert x in xs ==> x in init by {
          if x in xs {
            var k :| 0 <= k < |xs| && xs[k] == x;
            assert k < |xs| - 1 && init[k] == x;
          }
        }
      }
    }
  }
}
