/** Order-preserving de-duplication (`conda.common.iterators.unique`) and filtering. */
module Seqs {

  predicate NoDups<T(==)>(s: seq<T>) {
    forall i, j :: 0 <= i < j < |s| ==> s[i] != s[j]
  }

  /** The elements of `s` that are not in `excluded`, in order. */
  function Without(s: seq<string>, excluded: seq<string>): (r: seq<string>)
    ensures forall x :: x in r <==> x in s && x !in excluded
    ensures NoDups(s) ==> NoDups(r)
  {
    if s == [] then []
    else
      var r := Without(s[..|s| - 1], excluded);
      var x := s[|s| - 1];
      assert s == s[..|s| - 1] + [x];
      if x in excluded then r else r + [x]
  }

  /** First occurrences only, in the order they first appear. */
  function Unique(s: seq<string>): (u: seq<string>)
    ensures NoDups(u)
    ensures forall x :: x in u <==> x in s
  {
    if s == [] then []
    else
      var u := Unique(s[..|s| - 1]);
      var x := s[|s| - 1];
      assert s == s[..|s| - 1] + [x];
      if x in u then u else u + [x]
  }

  /** A list without duplicates is its own de-duplication. */
  lemma {:induction false} UniqueOfNoDups(s: seq<string>)
    requires NoDups(s)
    ensures Unique(s) == s
  {
    if s != [] {
      var init := s[..|s| - 1];
      UniqueOfNoDups(init);
      assert s == init + [s[|s| - 1]];
    }
  }

  /** De-duplicating one more element appends it when it is new. */
  lemma UniqueSnoc(s: seq<string>, x: string)
    ensures Unique(s + [x]) == if x in Unique(s) then Unique(s) else Unique(s) + [x]
  {
    assert (s + [x])[..|s|] == s;
  }

  /** Concatenation regroups freely. */
  lemma ConcatAssoc<T>(a: seq<T>, b: seq<T>, c: seq<T>)
    ensures (a + b) + c == a + (b + c)
  {
  }

  /** De-duplicating `a + b` keeps the de-duplicated `a` and then the new
      elements of `b` in their first-occurrence order. */
  lemma {:induction false} UniqueAppend(a: seq<string>, b: seq<string>)
    ensures Unique(a + b) == Unique(a) + Without(Unique(b), a)
  {
    if b == [] {
      assert a + b == a;
    } else {
      var b', x := b[..|b| - 1], b[|b| - 1];
      assert b == b' + [x];
      assert a + b == (a + b') + [x];
      UniqueAppend(a, b');
      UniqueSnoc(a + b', x);
      UniqueSnoc(b', x);
      var ua, ub' := Unique(a), Unique(b');
      var w := Without(ub', a);
      WithoutSnoc(ub', x, a);
      if x !in a && x !in ub' {
        ConcatAssoc(ua, w, [x]);
      }
    }
  }

  /** `s` is a suffix of `t`. */
  predicate IsSuffix<T(==)>(s: seq<T>, t: seq<T>) {
    |s| <= |t| && t[|t| - |s|..] == s
  }

  function Reverse<T>(s: seq<T>): (r: seq<T>)
    ensures |r| == |s|
    ensures forall i :: 0 <= i < |s| ==> r[i] == s[|s| - 1 - i]
  {
    if s == [] then [] else Reverse(s[1..]) + [s[0]]
  }

  lemma WithoutSnoc(s: seq<string>, x: string, excluded: seq<string>)
    ensures Without(s + [x], excluded) == Without(s, excluded) + if x in excluded then [] else [x]
  {
    assert (s + [x])[..|s|] == s;
  }

  /** Excluding every element leaves nothing. */
  lemma {:induction false} WithoutAll(s: seq<string>, excluded: seq<string>)
    requires forall x :: x in s ==> x in excluded
    ensures Without(s, excluded) == []
  {
    if s != [] {
      WithoutAll(s[..|s| - 1], excluded);
      assert s[|s| - 1] in s;
    }
  }
  /** Reversing keeps the elements. */
  lemma {:induction false} ReverseMembers<T>(s: seq<T>)
    ensures forall x :: x in Reverse(s) <==> x in s
  {
    if s != [] {
      ReverseMembers(s[1..]);
      assert s == [s[0]] + s[1..];
    }
  }

  /** Reversing keeps a list free of repeats. */
  lemma ReverseNoDups<T>(s: seq<T>)
    requires NoDups(s)
    ensures NoDups(Reverse(s))
  {
    var r := Reverse(s);
    forall i, j | 0 <= i < j < |r| ensures r[i] != r[j] {
      assert r[i] == s[|s| - 1 - i] && r[j] == s[|s| - 1 - j];
    }
  }

  /** The last element becomes the first. */
  lemma ReverseSnoc<T>(s: seq<T>, x: T)
    ensures Reverse(s + [x]) == [x] + Reverse(s)
  {
    var l := Reverse(s + [x]);
    var r := [x] + Reverse(s);
    assert |l| == |r|;
    forall i | 0 <= i < |l| ensures l[i] == r[i] {
      if i > 0 {
        assert l[i] == (s + [x])[|s| - i] == s[|s| - 1 - (i - 1)];
      }
    }
  }

  /** Two lists without repeats and without a common element join into one. */
  lemma NoDupsConcat<T>(a: seq<T>, b: seq<T>)
    requires NoDups(a) && NoDups(b)
    requires forall x :: x in a ==> x !in b
    ensures NoDups(a + b)
  {
    var c := a + b;
    forall i, j | 0 <= i < j < |c| ensures c[i] != c[j] {
      if i < |a| && |a| <= j {
        assert c[i] in a && c[j] == b[j - |a|];
      }
    }
  }
}
