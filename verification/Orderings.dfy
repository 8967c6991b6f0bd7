/** Strings by code point, as Python's `sorted` orders them, and the one sorted sequence of a set. */
module Orderings {

  predicate Less(a: string, b: string) {
    b != [] && (a == [] || a[0] < b[0] || (a[0] == b[0] && Less(a[1..], b[1..])))
  }

  lemma {:induction false} LessIrreflexive(a: string)
    ensures !Less(a, a)
  {
    if a != [] {
      LessIrreflexive(a[1..]);
    }
  }

  lemma {:induction false} LessTotal(a: string, b: string)
    ensures Less(a, b) || Less(b, a) || a == b
    ensures !(Less(a, b) && Less(b, a)) && !Less(a, a)
  {
    LessIrreflexive(a);
    if a != [] && b != [] {
      LessTotal(a[1..], b[1..]);
      assert a == [a[0]] + a[1..] && b == [b[0]] + b[1..];
    }
  }

  lemma {:induction false} LessTransitive(a: string, b: string, c: string)
    requires Less(a, b) && Less(b, c)
    ensures Less(a, c)
  {
    if a != [] && a[0] == b[0] == c[0] {
      LessTransitive(a[1..], b[1..], c[1..]);
    }
  }

  predicate Sorted(s: seq<string>) { forall i, j :: 0 <= i < j < |s| ==> Less(s[i], s[j]) }

  function Insert(x: string, s: seq<string>): seq<string> {
    if s == [] || Less(x, s[0]) then [x] + s else if x == s[0] then s else [s[0]] + Insert(x, s[1..])
  }

  /** Insertion sort without repetitions. */
  function Sort(s: seq<string>): seq<string> {
    if s == [] then [] else Insert(s[0], Sort(s[1..]))
  }

  lemma {:induction false} InsertSorts(x: string, s: seq<string>)
    requires Sorted(s)
    ensures Sorted(Insert(x, s))
    ensures forall y :: y in Insert(x, s) <==> y == x || y in s
  {
    var r := Insert(x, s);
    if s == [] {
    } else if Less(x, s[0]) {
      forall j | 0 < j < |r| ensures Less(r[0], r[j]) {
        if j > 1 {
          LessTransitive(x, s[0], s[j - 1]);
        }
      }
    } else if x != s[0] {
      LessTotal(x, s[0]);
      InsertSorts(x, s[1..]);
      var t := Insert(x, s[1..]);
      forall j | 0 < j < |r| ensures Less(r[0], r[j]) {
        assert r[j] == t[j - 1] && t[j - 1] in t;
      }
    }
  }

  lemma {:induction false} SortSorts(s: seq<string>)
    ensures Sorted(Sort(s)) && forall y :: y in Sort(s) <==> y in s
  {
    if s != [] {
      SortSorts(s[1..]);
      InsertSorts(s[0], Sort(s[1..]));
    }
  }

  /** A sorted sequence is determined by its elements. */
  lemma {:induction false} SortedUnique(s: seq<string>, t: seq<string>)
    requires Sorted(s) && Sorted(t) && forall y :: y in s <==> y in t
    ensures s == t
  {
    HasFirst(s);
    HasFirst(t);
    if s != [] {
      LessTotal(s[0], t[0]);
      Smallest(s, t[0]);
      Smallest(t, s[0]);
      forall y ensures y in s[1..] <==> y in t[1..] {
        NotFirstAgain(s, y);
        NotFirstAgain(t, y);
      }
      SortedUnique(s[1..], t[1..]);
      assert s == [s[0]] + s[1..] && t == [t[0]] + t[1..];
    }
  }

  lemma HasFirst(s: seq<string>)
    ensures s != [] ==> s[0] in s
    ensures s == [] ==> forall y :: y !in s
  {
  }

  lemma Smallest(s: seq<string>, y: string)
    requires Sorted(s) && y in s
    ensures y == s[0] || Less(s[0], y)
  {
  }

  lemma NotFirstAgain(s: seq<string>, y: string)
    requires Sorted(s) && s != []
    ensures y in s[1..] <==> y in s && y != s[0]
  {
    LessTotal(y, y);
    if y in s[1..] {
      var i :| 0 <= i < |s| - 1 && s[1..][i] == y;
      assert Less(s[0], s[i + 1]);
    }
  }

  /** The order in which a dictionary lists its keys does not matter once they are sorted. */
  lemma SortIgnoresOrder(s: seq<string>, t: seq<string>)
    requires forall y :: y in s <==> y in t
    ensures Sort(s) == Sort(t)
  {
    SortSorts(s);
    SortSorts(t);
    SortedUnique(Sort(s), Sort(t));
  }
}
