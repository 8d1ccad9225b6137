/** Text helpers shared by the configuration and notification models: Python's
    `str.join`, Python's ordering of strings (code point by code point, a proper
    prefix first) and the ascending enumeration `sorted()` gives of a set of strings. */
module Strings {

  /** `sep.join(items)`. */
  function Join(sep: string, items: seq<string>): string
  {
    if |items| == 0 then ""
    else if |items| == 1 then items[0]
    else items[0] + sep + Join(sep, items[1..])
  }

  /** Joining one more item appends the separator and the item. */
  lemma {:induction false} JoinSnoc(sep: string, items: seq<string>, last: string)
    requires items != []
    ensures Join(sep, items + [last]) == Join(sep, items) + sep + last
    decreases |items|
  {
    if |items| == 1 {
      assert items + [last] == [items[0], last];
    } else {
      assert (items + [last])[1..] == items[1..] + [last];
      JoinSnoc(sep, items[1..], last);
    }
  }

  /** Python's `a <= b` on `str`: lexicographic on code points, a proper prefix first. */
  predicate Below(a: string, b: string)
  {
    if |a| == 0 then true
    else if |b| == 0 then false
    else if a[0] != b[0] then a[0] < b[0]
    else Below(a[1..], b[1..])
  }

  /** The order is decided at the first position where the strings differ, or by
      length when one is a prefix of the other. */
  lemma {:induction false} BelowAt(a: string, b: string, k: nat)
    requires k <= |a| && k <= |b| && a[..k] == b[..k]
    requires k == |a| || (k < |b| && a[k] < b[k])
    ensures Below(a, b)
    decreases k
  {
    if k > 0 {
      assert a[1..][..k - 1] == a[..k][1..] && b[1..][..k - 1] == b[..k][1..];
      BelowAt(a[1..], b[1..], k - 1);
    }
  }

  /** A difference at position `k`, or `a` a proper prefix of `b`: `a` comes strictly first. */
  lemma BeforeAt(a: string, b: string, k: nat)
    requires k <= |a| && k < |b| && a[..k] == b[..k]
    requires k == |a| || a[k] < b[k]
    ensures Below(a, b) && a != b
  {
    BelowAt(a, b, k);
  }

  lemma {:induction false} BelowReflexive(a: string)
    ensures Below(a, a)
  {
    if |a| > 0 {
      BelowReflexive(a[1..]);
    }
  }

  lemma {:induction false} BelowAntisymmetric(a: string, b: string)
    requires Below(a, b) && Below(b, a)
    ensures a == b
  {
    if |a| > 0 && |b| > 0 {
      BelowAntisymmetric(a[1..], b[1..]);
      assert a == [a[0]] + a[1..] && b == [b[0]] + b[1..];
    }
  }

  lemma {:induction false} BelowTransitive(a: string, b: string, c: string)
    requires Below(a, b) && Below(b, c)
    ensures Below(a, c)
  {
    if |a| > 0 && |b| > 0 && |c| > 0 && a[0] == b[0] && b[0] == c[0] {
      BelowTransitive(a[1..], b[1..], c[1..]);
    }
  }

  lemma {:induction false} BelowTotal(a: string, b: string)
    ensures Below(a, b) || Below(b, a)
  {
    if |a| > 0 && |b| > 0 && a[0] == b[0] {
      BelowTotal(a[1..], b[1..]);
    }
  }

  /** Strictly ascending in Python's order: what `sorted()` gives for distinct strings. */
  predicate Ascending(s: seq<string>)
  {
    forall i, j :: 0 <= i < j < |s| ==> Below(s[i], s[j]) && s[i] != s[j]
  }

  /** Ascending between neighbours is ascending throughout. */
  lemma {:induction false} AscendingFromAdjacent(s: seq<string>)
    requires forall i :: 0 <= i < |s| - 1 ==> Below(s[i], s[i + 1]) && s[i] != s[i + 1]
    ensures Ascending(s)
    decreases |s|
  {
    if |s| > 1 {
      AscendingFromAdjacent(s[1..]);
      forall j | 1 <= j < |s|
        ensures Below(s[0], s[j]) && s[0] != s[j]
      {
        if j > 1 {
          assert Below(s[1], s[j]) && s[1] != s[j] by {
            assert s[1..][0] == s[1] && s[1..][j - 1] == s[j];
          }
          BelowTransitive(s[0], s[1], s[j]);
          if s[0] == s[j] {
            BelowAntisymmetric(s[0], s[1]);
          }
        }
      }
      forall i, j | 0 <= i < j < |s|
        ensures Below(s[i], s[j]) && s[i] != s[j]
      {
        if i > 0 {
          assert s[1..][i - 1] == s[i] && s[1..][j - 1] == s[j];
        }
      }
    }
  }

  /** The least element of a non-empty set exists. */
  lemma LeastExists(items: set<string>)
    requires items != {}
    ensures exists m :: m in items && forall x :: x in items ==> Below(m, x)
  {
    var m := LeastWitness(items);
  }

  lemma {:induction false} LeastWitness(items: set<string>) returns (least: string)
    requires items != {}
    ensures least in items && forall x :: x in items ==> Below(least, x)
    decreases |items|
  {
    var y :| y in items;
    var rest := items - {y};
    BelowReflexive(y);
    if rest == {} {
      least := y;
      forall x | x in items
        ensures x == y
      {
        assert x !in rest;
      }
    } else {
      var m := LeastWitness(rest);
      BelowTotal(m, y);
      BelowReflexive(m);
      least := if Below(m, y) then m else y;
      LeastOfBoth(items, y, m, least);
    }
  }

  lemma LeastOfBoth(items: set<string>, y: string, m: string, least: string)
    requires y in items && m in items - {y}
    requires forall x :: x in items - {y} ==> Below(m, x)
    requires least == m || least == y
    requires Below(least, m) && Below(least, y)
    ensures least in items && forall x :: x in items ==> Below(least, x)
  {
    forall x | x in items
      ensures Below(least, x)
    {
      if x != y {
        BelowTransitive(least, m, x);
      }
    }
  }

  /** The least string of a non-empty set, in Python's order. */
  function Least(items: set<string>): (m: string)
    requires items != {}
    ensures m in items && forall x :: x in items ==> Below(m, x)
  {
    LeastExists(items);
    AntisymmetryAll();
    var m :| m in items && forall x :: x in items ==> Below(m, x);
    m
  }

  lemma AntisymmetryAll()
    ensures forall a, b :: Below(a, b) && Below(b, a) ==> a == b
  {
    forall a, b | Below(a, b) && Below(b, a)
      ensures a == b
    {
      BelowAntisymmetric(a, b);
    }
  }

  /** `sorted(items)` for a set of strings: each element once, in ascending order. */
  function SortedElements(items: set<string>): (r: seq<string>)
    ensures |r| == |items|
    ensures forall x :: x in r <==> x in items
    ensures Ascending(r)
    decreases |items|
  {
    if items == {} then []
    else
      var m := Least(items);
      var rest := SortedElements(items - {m});
      LeastFirst(items, m, rest);
      [m] + rest
  }

  /** Putting the least element in front of an ascending enumeration of the others
      enumerates the whole set in ascending order. */
  lemma LeastFirst(items: set<string>, m: string, rest: seq<string>)
    requires m in items && forall x :: x in items ==> Below(m, x)
    requires |rest| == |items - {m}|
    requires forall x :: x in rest <==> x in items - {m}
    requires Ascending(rest)
    ensures |[m] + rest| == |items|
    ensures forall x :: x in [m] + rest <==> x in items
    ensures Ascending([m] + rest)
  {
    assert |items - {m}| == |items| - 1;
    LeastFirstMembers(items, m, rest);
    LeastFirstAscending(items, m, rest);
  }

  lemma LeastFirstMembers(items: set<string>, m: string, rest: seq<string>)
    requires m in items
    requires forall x :: x in rest <==> x in items - {m}
    ensures forall x :: x in [m] + rest <==> x in items
  {
    forall x
      ensures x in [m] + rest <==> x in items
    {
      assert x in [m] + rest <==> x == m || x in rest;
    }
  }

  lemma LeastFirstAscending(items: set<string>, m: string, rest: seq<string>)
    requires forall x :: x in items ==> Below(m, x)
    requires forall x :: x in rest ==> x in items - {m}
    requires Ascending(rest)
    ensures Ascending([m] + rest)
  {
    var r := [m] + rest;
    forall i, j | 0 <= i < j < |r|
      ensures Below(r[i], r[j]) && r[i] != r[j]
    {
      assert r[j] == rest[j - 1];
      if i == 0 {
        assert rest[j - 1] in rest;
      } else {
        assert r[i] == rest[i - 1];
      }
    }
  }

  /** Sorting is determined by its contents: the only ascending enumeration of a set
      is `SortedElements` of it. */
  lemma {:induction false} AscendingIsSorted(s: seq<string>, items: set<string>)
    requires Ascending(s)
    requires forall x :: x in s <==> x in items
    ensures SortedElements(items) == s
    decreases |s|
  {
    if s == [] {
      assert forall x :: x !in items;
    } else {
      assert s[0] in s;
      HeadIsLeast(s, items);
      TailEnumerates(s, items);
      var rest := items - {s[0]};
      AscendingIsSorted(s[1..], rest);
      SortedUnfold(items, s[0]);
      HeadTail(s);
    }
  }

  lemma HeadTail(s: seq<string>)
    requires s != []
    ensures [s[0]] + s[1..] == s
  {
  }

  lemma SortedUnfold(items: set<string>, m: string)
    requires items != {} && Least(items) == m
    ensures SortedElements(items) == [m] + SortedElements(items - {m})
  {
  }

  lemma HeadIsLeast(s: seq<string>, items: set<string>)
    requires s != []
    requires Ascending(s)
    requires forall x :: x in s <==> x in items
    ensures items != {} && Least(items) == s[0]
  {
    assert s[0] in s;
    var m := Least(items);
    assert m in s;
    var k :| 0 <= k < |s| && s[k] == m;
    if k > 0 {
      assert Below(s[0], s[k]) && s[0] != s[k];
      assert Below(m, s[0]);
      BelowAntisymmetric(s[0], m);
    }
  }

  lemma TailEnumerates(s: seq<string>, items: set<string>)
    requires s != []
    requires Ascending(s)
    requires forall x :: x in s <==> x in items
    ensures Ascending(s[1..])
    ensures forall x :: x in s[1..] <==> x in items - {s[0]}
  {
    forall i, j | 0 <= i < j < |s[1..]|
      ensures Below(s[1..][i], s[1..][j]) && s[1..][i] != s[1..][j]
    {
      assert s[1..][i] == s[i + 1] && s[1..][j] == s[j + 1];
    }
    forall x
      ensures x in s[1..] <==> x in items - {s[0]}
    {
      if x in s[1..] {
        var k :| 0 <= k < |s[1..]| && s[1..][k] == x;
        assert s[k + 1] == x && s[0] != s[k + 1];
      }
      if x in items - {s[0]} {
        assert x in s;
        var k :| 0 <= k < |s| && s[k] == x;
        assert k != 0;
        assert x == s[1..][k - 1];
      }
    }
  }
}
