/** Person identifiers and the order in which a simulated year visits persons: ascending
    by identifier, strings compared character by character as Python compares them. */
module PersonIds {

  /** a sorts before b: a is a proper prefix of b, or at the first position where they
      differ a has the smaller character. */
  predicate Less(a: string, b: string)
    decreases |a|
  {
    if |a| == 0 then |b| > 0
    else |b| > 0 && (a[0] < b[0] || (a[0] == b[0] && Less(a[1..], b[1..])))
  }

  lemma {:induction false} LessIrreflexive(a: string)
    ensures !Less(a, a)
    decreases |a|
  {
    if |a| > 0 {
      LessIrreflexive(a[1..]);
    }
  }

  lemma {:induction false} LessTransitive(a: string, b: string, c: string)
    requires Less(a, b) && Less(b, c)
    ensures Less(a, c)
    decreases |a|
  {
    if |a| > 0 && a[0] == b[0] && b[0] == c[0] {
      LessTransitive(a[1..], b[1..], c[1..]);
    }
  }

  /** Any two different identifiers are ordered one way or the other. */
  lemma {:induction false} LessTotal(a: string, b: string)
    requires a != b
    ensures Less(a, b) || Less(b, a)
    decreases |a|
  {
    if |a| > 0 && |b| > 0 && a[0] == b[0] {
      assert a == [a[0]] + a[1..] && b == [b[0]] + b[1..];
      LessTotal(a[1..], b[1..]);
    }
  }

  function Elements(ids: seq<string>): set<string>
  {
    set x | x in ids
  }

  predicate StrictlySorted(ids: seq<string>)
  {
    forall i, j :: 0 <= i < j < |ids| ==> Less(ids[i], ids[j])
  }

  predicate IsLeast(m: string, s: set<string>)
  {
    m in s && forall x :: x in s && x != m ==> Less(m, x)
  }

  /** Every non-empty finite set of identifiers has a least element. */
  lemma {:induction false} LeastExists(s: set<string>)
    requires s != {}
    ensures exists m :: IsLeast(m, s)
    decreases |s|
  {
    var a :| a in s;
    if s != {a} {
      LeastExists(s - {a});
      var m :| IsLeast(m, s - {a});
      if Less(m, a) {
        forall x | x in s && x != m
          ensures Less(m, x)
        {
          if x == a {
          } else {
            assert x in s - {a};
          }
        }
        assert IsLeast(m, s);
      } else {
        LessTotal(a, m);
        forall x | x in s && x != a
          ensures Less(a, x)
        {
          if x != m {
            assert x in s - {a};
            LessTransitive(a, m, x);
          }
        }
        assert IsLeast(a, s);
      }
    } else {
      assert IsLeast(a, s);
    }
  }

  /** The identifiers of s in ascending order: the least first, then the rest. */
  ghost function SortedIds(s: set<string>): (ids: seq<string>)
    ensures forall k :: 0 <= k < |ids| ==> ids[k] in s
    decreases |s|
  {
    if s == {} then []
    else
      LeastExists(s);
      var m :| IsLeast(m, s);
      [m] + SortedIds(s - {m})
  }

  /** A set has only one least element. */
  lemma LeastUnique(m1: string, m2: string, s: set<string>)
    requires IsLeast(m1, s) && IsLeast(m2, s)
    ensures m1 == m2
  {
    if m1 != m2 {
      LessTransitive(m1, m2, m1);
      LessIrreflexive(m1);
    }
  }

  /** SortedIds lists every identifier of s once, in ascending order. */
  lemma {:induction false} SortedIdsSpec(s: set<string>)
    ensures StrictlySorted(SortedIds(s)) && Elements(SortedIds(s)) == s
    decreases |s|
  {
    if s != {} {
      LeastExists(s);
      var m :| IsLeast(m, s);
      var rest := SortedIds(s - {m});
      LeastUnique(SortedIds(s)[0], m, s);
      assert SortedIds(s) == [m] + rest;
      SortedIdsSpec(s - {m});
      ConsLeast(m, rest, s);
    }
  }

  /** The least identifier of s in front of the others of s, sorted, sorts s. */
  lemma ConsLeast(m: string, rest: seq<string>, s: set<string>)
    requires IsLeast(m, s) && StrictlySorted(rest) && Elements(rest) == s - {m}
    ensures StrictlySorted([m] + rest) && Elements([m] + rest) == s
  {
    var ids := [m] + rest;
    forall i, j | 0 <= i < j < |ids|
      ensures Less(ids[i], ids[j])
    {
      if i == 0 {
        assert ids[j] == rest[j - 1] && rest[j - 1] in Elements(rest);
      } else {
        assert ids[i] == rest[i - 1] && ids[j] == rest[j - 1];
      }
    }
    assert Elements(ids) == {m} + Elements(rest);
  }

  /** What a loop over the sorted identifiers of s needs: each is in s, and no two
      positions hold the same identifier. */
  lemma SortedIdsDistinct(s: set<string>)
    ensures forall k :: 0 <= k < |SortedIds(s)| ==> SortedIds(s)[k] in s
    ensures forall i, j :: 0 <= i < |SortedIds(s)| && 0 <= j < |SortedIds(s)| && i != j ==>
              SortedIds(s)[i] != SortedIds(s)[j]
  {
    var ids := SortedIds(s);
    SortedIdsSpec(s);
    forall k | 0 <= k < |ids|
      ensures ids[k] in s
    {
      assert ids[k] in Elements(ids);
    }
    forall i, j | 0 <= i < |ids| && 0 <= j < |ids| && i != j
      ensures ids[i] != ids[j]
    {
      if i < j {
        LessIrreflexive(ids[i]);
      } else {
        LessIrreflexive(ids[j]);
      }
    }
  }

  /** Two ascending sequences of the same identifiers are the same sequence. */
  lemma {:induction false} SortedUnique(a: seq<string>, b: seq<string>)
    requires StrictlySorted(a) && StrictlySorted(b) && Elements(a) == Elements(b)
    ensures a == b
    decreases |a|
  {
    if |a| > 0 {
      assert a[0] in Elements(b);
      assert b[0] in Elements(a);
      if a[0] != b[0] {
        var i :| 0 <= i < |a| && a[i] == b[0];
        var j :| 0 <= j < |b| && b[j] == a[0];
        LessTransitive(a[0], b[0], a[0]);
        LessIrreflexive(a[0]);
      }
      TailElements(a);
      TailElements(b);
      SortedUnique(a[1..], b[1..]);
      assert a == [a[0]] + a[1..] && b == [b[0]] + b[1..];
    } else {
      NoElements(a);
      NoElements(b);
    }
  }

  lemma NoElements(a: seq<string>)
    ensures Elements(a) == {} <==> a == []
  {
    if a != [] {
      assert a[0] in Elements(a);
    }
  }

  lemma TailElements(a: seq<string>)
    requires StrictlySorted(a) && |a| > 0
    ensures Elements(a[1..]) == Elements(a) - {a[0]}
  {
    forall x | x in a[1..]
      ensures x != a[0]
    {
      var j :| 1 <= j < |a| && a[j] == x;
      LessIrreflexive(a[0]);
    }
    assert a == [a[0]] + a[1..];
  }

  /** ids holds, in ascending order, the identifiers of s that are below all of rest. */
  predicate Selected(ids: seq<string>, rest: set<string>, s: set<string>)
  {
    StrictlySorted(ids) && Elements(ids) + rest == s && Elements(ids) !! rest &&
    forall i, y :: 0 <= i < |ids| && y in rest ==> Less(ids[i], y)
  }

  /** Taking the least remaining identifier keeps the selection sorted. */
  lemma SelectLeast(ids: seq<string>, rest: set<string>, s: set<string>, m: string)
    requires Selected(ids, rest, s) && IsLeast(m, rest)
    ensures Selected(ids + [m], rest - {m}, s)
  {
    assert Elements(ids + [m]) == Elements(ids) + {m};
    var ids' := ids + [m];
    forall i, j | 0 <= i < j < |ids'|
      ensures Less(ids'[i], ids'[j])
    {
      if j < |ids| {
        assert Less(ids[i], ids[j]);
      } else {
        assert ids'[j] == m && m in rest;
      }
    }
  }

  /** Sorts a set of identifiers, as Python's sorted() does for the keys of a
      dictionary of persons: the least remaining identifier is taken each time. */
  method SortIds(s: set<string>) returns (ids: seq<string>)
    ensures ids == SortedIds(s)
  {
    ids := [];
    var rest := s;
    while rest != {}
      invariant Selected(ids, rest, s)
      decreases |rest|
    {
      LeastExists(rest);
      var m :| IsLeast(m, rest);
      SelectLeast(ids, rest, s, m);
      ids := ids + [m];
      rest := rest - {m};
    }
    SortedIdsSpec(s);
    SortedUnique(ids, SortedIds(s));
  }
}
