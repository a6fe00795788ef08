/**
 Small collection helpers shared by the cloud engine: an optional value,
 ordering predicates on sequences, and the ascending enumeration of a finite
 set of ids (the engine sorts cloud ids and tile ids before iterating).
 */
module Collections {

  /** A value that may be absent, as a nullable reference is in the engine. */
  datatype Option<T> = None | Some(value: T)

  /** Every element is strictly smaller than every later one. */
  predicate Increasing(s: seq<int>) {
    forall i, j :: 0 <= i < j < |s| ==> s[i] < s[j]
  }

  /** No element occurs twice. */
  predicate Distinct<T(==)>(s: seq<T>) {
    forall i, j :: 0 <= i < j < |s| ==> s[i] != s[j]
  }

  lemma IncreasingIsDistinct(s: seq<int>)
    requires Increasing(s)
    ensures Distinct(s)
  {
  }

  /** A set that is not empty has a member. */
  lemma NonEmptyHasMember(s: set<int>)
    requires s != {}
    ensures exists y :: y in s
  {
    if forall y :: y !in s {
      assert false;
    }
  }

  /** A finite non-empty set of integers has a least element. */
  lemma {:induction false} HasLeast(s: set<int>) returns (m: int)
    requires s != {}
    ensures m in s
    ensures forall x :: x in s ==> m <= x
  {
    NonEmptyHasMember(s);
    var y :| y in s;
    var rest := s - {y};
    if rest == {} {
      m := y;
    } else {
      var k := HasLeast(rest);
      m := if y < k then y else k;
    }
    forall x | x in s ensures m <= x {
      if x != y {
        assert x in rest;
      }
    }
  }

  lemma LeastExists(s: set<int>)
    requires s != {}
    ensures exists m :: m in s && forall x :: x in s ==> m <= x
  {
    var m := HasLeast(s);
  }

  /** The least element of a non-empty set. */
  function Least(s: set<int>): (m: int)
    requires s != {}
    ensures m in s
    ensures forall x :: x in s ==> m <= x
  {
    LeastExists(s);
    var m :| m in s && forall x :: x in s ==> m <= x;
    m
  }

  /** The elements of `s` in ascending order, each exactly once. */
  function Ascending(s: set<int>): (r: seq<int>)
    ensures Increasing(r)
    ensures forall x :: x in r <==> x in s
    ensures |r| == |s|
    decreases |s|
  {
    if s == {} then []
    else
      var m := Least(s);
      [m] + Ascending(s - {m})
  }

  /** Taking a member out of a set lowers its size by one. */
  lemma CardRemove(s: set<int>, x: int)
    requires x in s
    ensures |s - {x}| == |s| - 1
  {
    assert s == (s - {x}) + {x};
  }

  /** A subset is no larger than the set containing it. */
  lemma {:induction false} SubsetCard(a: set<int>, b: set<int>)
    requires a <= b
    ensures |a| <= |b|
    decreases |a|
  {
    if a != {} {
      NonEmptyHasMember(a);
      var x :| x in a;
      CardRemove(a, x);
      CardRemove(b, x);
      SubsetCard(a - {x}, b - {x});
    }
  }

  /** The sequences one after another. */
  function Flatten(ss: seq<seq<int>>): (r: seq<int>)
    ensures forall x :: x in r <==> exists i :: 0 <= i < |ss| && x in ss[i]
  {
    if ss == [] then []
    else
      var rest := Flatten(ss[1..]);
      assert forall x :: x in rest <==> exists i :: 1 <= i < |ss| && x in ss[i] by {
        forall x | x in rest ensures exists i :: 1 <= i < |ss| && x in ss[i] {
          var j :| 0 <= j < |ss[1..]| && x in ss[1..][j];
          assert x in ss[j + 1];
        }
        forall x | (exists i :: 1 <= i < |ss| && x in ss[i]) ensures x in rest {
          var i :| 1 <= i < |ss| && x in ss[i];
          assert x in ss[1..][i - 1];
        }
      }
      ss[0] + rest
  }

  /** The elements of all the sequences, as a set. */
  function Members(ss: seq<seq<int>>): (r: set<int>)
  {
    if ss == [] then {}
    else
      var last := ss[|ss| - 1];
      Members(ss[..|ss| - 1]) + (set x | x in last)
  }

  /** Appending a sequence adds exactly its elements. */
  lemma MembersSnoc(ss: seq<seq<int>>, s: seq<int>)
    ensures Members(ss + [s]) == Members(ss) + (set x | x in s)
  {
    assert (ss + [s])[..|ss|] == ss;
  }

  /** The members are exactly the elements of the flattened sequence. */
  lemma {:induction false} MembersFlatten(ss: seq<seq<int>>)
    ensures forall x :: x in Members(ss) <==> x in Flatten(ss)
  {
    if ss != [] {
      var init := ss[..|ss| - 1];
      MembersFlatten(init);
      assert ss == init + [ss[|ss| - 1]];
      FlattenSnoc(init, ss[|ss| - 1]);
    }
  }

  /**
   Sequences that are each increasing, and each free of the elements of the
   ones before them, flatten to a sequence without repeats.
   */
  lemma {:induction false} FreshBatchesDistinct(ss: seq<seq<int>>)
    requires forall i :: 0 <= i < |ss| ==> Increasing(ss[i])
    requires forall i :: 0 <= i < |ss| ==> forall x :: x in ss[i] ==> x !in Members(ss[..i])
    ensures Distinct(Flatten(ss))
    decreases |ss|
  {
    if ss != [] {
      var n := |ss| - 1;
      var init := ss[..n];
      var last := ss[n];
      forall i | 0 <= i < |init|
        ensures Increasing(init[i])
        ensures forall x :: x in init[i] ==> x !in Members(init[..i])
      {
        assert init[i] == ss[i];
        assert init[..i] == ss[..i];
      }
      FreshBatchesDistinct(init);
      MembersFlatten(init);
      IncreasingIsDistinct(last);
      DistinctConcat(Flatten(init), last);
      assert ss == init + [last];
      FlattenSnoc(init, last);
    }
  }

  /** Two duplicate-free sequences with no common element concatenate to a duplicate-free one. */
  lemma DistinctConcat(a: seq<int>, b: seq<int>)
    requires Distinct(a) && Distinct(b)
    requires forall x :: x in a ==> x !in b
    ensures Distinct(a + b)
  {
    forall i, j | 0 <= i < j < |a + b| ensures (a + b)[i] != (a + b)[j] {
      if j < |a| {
      } else if i >= |a| {
        assert (a + b)[i] == b[i - |a|] && (a + b)[j] == b[j - |a|];
      } else {
        assert (a + b)[i] == a[i] && (a + b)[j] == b[j - |a|];
        assert b[j - |a|] in b;
      }
    }
  }

  /** The head of an increasing sequence is below everything after it. */
  lemma IncreasingHead(s: seq<int>)
    requires Increasing(s) && |s| > 0
    ensures forall x :: x in s[1..] ==> s[0] < x
  {
    forall x | x in s[1..] ensures s[0] < x {
      var j :| 0 <= j < |s[1..]| && s[1..][j] == x;
      assert s[j + 1] == x;
    }
  }

  /** An element below everything in an increasing sequence can head it. */
  lemma IncreasingCons(x: int, s: seq<int>)
    requires Increasing(s)
    requires forall y :: y in s ==> x < y
    ensures Increasing([x] + s)
  {
    forall i, j | 0 <= i < j < |[x] + s| ensures ([x] + s)[i] < ([x] + s)[j] {
      assert ([x] + s)[j] == s[j - 1];
      if i > 0 {
        assert ([x] + s)[i] == s[i - 1];
        assert s[i - 1] < s[j - 1];
      } else {
        assert s[j - 1] in s;
      }
    }
  }

  /** An element above everything in an increasing sequence can end it. */
  lemma IncreasingSnoc(s: seq<int>, x: int)
    requires Increasing(s)
    requires forall y :: y in s ==> y < x
    ensures Increasing(s + [x])
  {
    forall i, j | 0 <= i < j < |s + [x]| ensures (s + [x])[i] < (s + [x])[j] {
      assert (s + [x])[i] == s[i];
      if j < |s| {
        assert (s + [x])[j] == s[j];
        assert s[i] < s[j];
      } else {
        assert s[i] in s;
      }
    }
  }

  /** The elements of a non-empty sequence are its head and the elements of its tail. */
  lemma ElementsOfCons(s: seq<int>)
    requires s != []
    ensures (set x | x in s) == (set x | x in s[1..]) + {s[0]}
  {
    assert s == [s[0]] + s[1..];
  }

  /** An element of a non-empty sequence is its head or an element of its tail. */
  lemma InCons<T>(s: seq<T>)
    requires s != []
    ensures forall x :: x in s <==> x == s[0] || x in s[1..]
  {
    assert s == [s[0]] + s[1..];
  }

  /** Concatenation is associative. */
  lemma ConcatAssoc<T>(a: seq<T>, b: seq<T>, c: seq<T>)
    ensures (a + b) + c == a + (b + c)
  {
  }

  /** The prefix of full length is the whole sequence. */
  lemma WholePrefix<T>(s: seq<T>)
    ensures s[..|s|] == s
  {
  }

  /** A prefix one longer is the shorter prefix and the next element. */
  lemma PrefixStep<T>(s: seq<T>, k: nat)
    requires 0 < k <= |s|
    ensures s[..k] == s[..k - 1] + [s[k - 1]]
  {
  }

  /** A prefix of a prefix is a prefix, and the shorter prefix keeps its elements. */
  lemma PrefixOfPrefix<T>(s: seq<T>, n: nat, j: nat)
    requires j < n <= |s|
    ensures s[..n][..j] == s[..j]
    ensures s[..n][j] == s[j]
  {
  }

  /** Dropping the last element of a sequence without repeats leaves one without repeats that lacks it. */
  lemma DistinctInit(s: seq<int>)
    requires Distinct(s) && s != []
    ensures Distinct(s[..|s| - 1])
    ensures s[|s| - 1] !in s[..|s| - 1]
  {
  }

  /** Appending leaves every prefix up to the old length as it was. */
  lemma SnocPrefix<T>(s: seq<T>, x: T, i: nat)
    requires i <= |s|
    ensures (s + [x])[..i] == s[..i]
    ensures i < |s| ==> (s + [x])[i] == s[i]
  {
  }

  /** Flattening distributes over appending one more sequence. */
  lemma {:induction false} FlattenSnoc(ss: seq<seq<int>>, s: seq<int>)
    ensures Flatten(ss + [s]) == Flatten(ss) + s
  {
    if ss == [] {
      assert [] + [s] == [s];
      assert [s][1..] == [];
    } else {
      assert (ss + [s])[1..] == ss[1..] + [s];
      FlattenSnoc(ss[1..], s);
    }
  }

  /** The elements `s[j]` with `j < |keep|` and `keep[j]`, in their order in `s`. */
  function Selected(s: seq<int>, keep: seq<bool>): seq<int>
    requires |keep| <= |s|
  {
    if keep == [] then []
    else
      var last := |keep| - 1;
      Selected(s, keep[..last]) + (if keep[last] then [s[last]] else [])
  }

  /** Selecting one more position appends that element exactly when it is kept. */
  lemma SelectedSnoc(s: seq<int>, keep: seq<bool>, b: bool)
    requires |keep| < |s|
    ensures Selected(s, keep + [b]) == Selected(s, keep) + (if b then [s[|keep|]] else [])
  {
    assert (keep + [b])[..|keep|] == keep;
  }

  /**
   What selection keeps: only elements of `s`, every kept position, and the
   order, so a selection from an increasing sequence is increasing.
   */
  lemma {:induction false} SelectedFacts(s: seq<int>, keep: seq<bool>)
    requires |keep| <= |s|
    ensures forall x :: x in Selected(s, keep) ==> x in s
    ensures forall j :: 0 <= j < |keep| && keep[j] ==> s[j] in Selected(s, keep)
    ensures Increasing(s) ==> Increasing(Selected(s, keep))
    ensures Increasing(s) ==> forall x :: x in Selected(s, keep) ==> forall j :: |keep| <= j < |s| ==> x < s[j]
  {
    if keep != [] {
      var last := |keep| - 1;
      var init := keep[..last];
      SelectedFacts(s, init);
      var prefix := Selected(s, init);
      var tail := if keep[last] then [s[last]] else [];
      assert Selected(s, keep) == prefix + tail;
      forall x | x in Selected(s, keep) ensures x in s {
        if x !in prefix {
          assert x == s[last];
        }
      }
      forall j | 0 <= j < |keep| && keep[j] ensures s[j] in Selected(s, keep) {
        if j < last {
          assert init[j] == keep[j];
        }
      }
      if Increasing(s) {
        forall x | x in Selected(s, keep) ensures forall j :: |keep| <= j < |s| ==> x < s[j] {
          if x !in prefix {
            assert x == s[last];
          }
        }
        if keep[last] {
          IncreasingSnoc(prefix, s[last]);
        }
      }
    }
  }

}
