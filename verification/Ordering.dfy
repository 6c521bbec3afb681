/** Strings in lexicographic order: ascending sequences, the library sort, and their uniqueness. */
module Ordering {
  /** Strict lexicographic order by code point. */
  predicate Less(a: string, b: string) {
    if |b| == 0 then false
    else if |a| == 0 then true
    else if a[0] != b[0] then a[0] < b[0]
    else Less(a[1..], b[1..])
  }

  lemma {:induction false} Total(a: string, b: string)
    ensures Less(a, b) || a == b || Less(b, a)
    ensures !(Less(a, b) && Less(b, a)) && !Less(a, a)
  {
    if |a| > 0 && |b| > 0 && a[0] == b[0] {
      Total(a[1..], b[1..]);
      assert a == [a[0]] + a[1..] && b == [b[0]] + b[1..];
    }
    if |a| > 0 {
      Total(a[1..], a[1..]);
    }
  }

  lemma {:induction false} Transitive(a: string, b: string, c: string)
    requires Less(a, b) && Less(b, c)
    ensures Less(a, c)
  {
    if |a| > 0 && a[0] == b[0] && b[0] == c[0] {
      Transitive(a[1..], b[1..], c[1..]);
    }
  }

  ghost predicate Ascending(s: seq<string>) {
    forall i, j | 0 <= i < j < |s| :: Less(s[i], s[j])
  }

  function Elements(s: seq<string>): set<string> {
    set x <- s
  }

  /** Two strictly ascending sequences of the same strings are the same sequence. */
  lemma {:induction false} AscendingUnique(a: seq<string>, b: seq<string>)
    requires Ascending(a) && Ascending(b) && Elements(a) == Elements(b)
    ensures a == b
  {
    SameEmptiness(a, b);
    SameEmptiness(b, a);
    if |a| > 0 {
      FirstsAgree(a, b);
      TailElements(a);
      TailElements(b);
      AscendingUnique(a[1..], b[1..]);
      assert a == [a[0]] + a[1..] && b == [b[0]] + b[1..];
    }
  }

  lemma SameEmptiness(a: seq<string>, b: seq<string>)
    requires Elements(a) == Elements(b)
    ensures |a| > 0 ==> |b| > 0
  {
    if |a| > 0 {
      assert a[0] in Elements(b);
    }
  }

  lemma FirstsAgree(a: seq<string>, b: seq<string>)
    requires Ascending(a) && Ascending(b) && Elements(a) == Elements(b) && |a| > 0 && |b| > 0
    ensures a[0] == b[0]
  {
    assert a[0] in Elements(b) && b[0] in Elements(a);
    var i :| 0 <= i < |b| && b[i] == a[0];
    var j :| 0 <= j < |a| && a[j] == b[0];
    assert i > 0 ==> Less(b[0], a[0]);
    assert j > 0 ==> Less(a[0], b[0]);
    Total(a[0], b[0]);
  }

  lemma TailElements(a: seq<string>)
    requires Ascending(a) && |a| > 0
    ensures Elements(a[1..]) == Elements(a) - {a[0]} && Ascending(a[1..])
  {
    Total(a[0], a[0]);
    assert a == [a[0]] + a[1..];
    forall x <- a[1..] ensures x != a[0] {
      var i :| 0 <= i < |a| - 1 && a[1..][i] == x;
      assert Less(a[0], a[i + 1]);
    }
  }

  function Inserted(s: seq<string>, x: string): seq<string> {
    if |s| == 0 then [x]
    else if Less(x, s[0]) then [x] + s
    else [s[0]] + Inserted(s[1..], x)
  }

  /** The library sort: for distinct strings its result is the one ascending order of them. */
  function Sorted(s: seq<string>): seq<string> {
    if |s| == 0 then [] else Inserted(Sorted(s[..|s| - 1]), s[|s| - 1])
  }

  lemma {:induction false} InsertedAscending(s: seq<string>, x: string)
    requires Ascending(s) && x !in s
    ensures Ascending(Inserted(s, x)) && Elements(Inserted(s, x)) == Elements(s) + {x}
  {
    if |s| > 0 {
      Total(x, s[0]);
      if Less(x, s[0]) {
        forall j | 0 <= j < |s| ensures Less(x, s[j]) {
          if j > 0 {
            Transitive(x, s[0], s[j]);
          }
        }
      } else {
        TailElements(s);
        assert x !in s[1..];
        InsertedAscending(s[1..], x);
        Prepended(s, x, Inserted(s[1..], x));
      }
    }
  }

  lemma Prepended(s: seq<string>, x: string, t: seq<string>)
    requires |s| > 0 && Ascending(s) && Less(s[0], x) && Ascending(t) && Elements(t) == Elements(s[1..]) + {x}
    ensures Ascending([s[0]] + t) && Elements([s[0]] + t) == Elements(s) + {x}
  {
    assert s == [s[0]] + s[1..];
    forall j | 0 <= j < |t| ensures Less(s[0], t[j]) {
      assert t[j] in Elements(t);
      if t[j] != x {
        assert t[j] in s[1..];
        var i :| 0 <= i < |s| - 1 && s[1..][i] == t[j];
        assert s[i + 1] == t[j];
      }
    }
    ElementsCons(s[0], t);
    ElementsCons(s[0], s[1..]);
  }

  lemma ElementsCons(x: string, t: seq<string>)
    ensures Elements([x] + t) == {x} + Elements(t)
  {
  }

  ghost predicate NoRepeats(s: seq<string>) {
    forall i, j | 0 <= i < j < |s| :: s[i] != s[j]
  }

  lemma {:induction false} SortedAscending(s: seq<string>)
    requires NoRepeats(s)
    ensures Ascending(Sorted(s)) && Elements(Sorted(s)) == Elements(s)
  {
    if |s| > 0 {
      var n := |s| - 1;
      SortedAscending(s[..n]);
      assert s == s[..n] + [s[n]];
      assert s[n] !in Elements(s[..n]);
      InsertedAscending(Sorted(s[..n]), s[n]);
    }
  }

  /** Every finite set of strings has its ascending sequence. */
  lemma AscendingExists(xs: set<string>) returns (s: seq<string>)
    ensures Ascending(s) && Elements(s) == xs
  {
    if xs == {} {
      s := [];
    } else {
      var x :| x in xs;
      var t := AscendingExists(xs - {x});
      assert x !in Elements(t);
      InsertedAscending(t, x);
      s := Inserted(t, x);
    }
  }

  /** The elements of a set in ascending order. */
  ghost function InOrder(xs: set<string>): (s: seq<string>)
    ensures Ascending(s) && Elements(s) == xs
  {
    AscendingExistsFor(xs);
    var s :| Ascending(s) && Elements(s) == xs;
    s
  }

  lemma AscendingExistsFor(xs: set<string>)
    ensures exists s :: Ascending(s) && Elements(s) == xs
  {
    var s := AscendingExists(xs);
  }

  /** The two agree up to k, and there a has the smaller character. */
  predicate PartsAt(a: string, b: string, k: nat) {
    k < |a| && k < |b| && a[..k] == b[..k] && a[k] < b[k]
  }

  lemma PartsLater(a: string, b: string, k: nat)
    requires |a| > 0 && |b| > 0 && a[0] == b[0]
    ensures PartsAt(a[1..], b[1..], k) <==> PartsAt(a, b, k + 1)
  {
    if k < |a| - 1 && k < |b| - 1 {
      assert a[..k + 1] == [a[0]] + a[1..][..k] && b[..k + 1] == [b[0]] + b[1..][..k];
      assert a[..k + 1][1..] == a[1..][..k] && b[..k + 1][1..] == b[1..][..k];
    }
  }

  lemma {:induction false} LessParts(a: string, b: string)
    requires Less(a, b)
    ensures (|a| < |b| && b[..|a|] == a) || exists k: nat :: PartsAt(a, b, k)
  {
    if |a| > 0 && a[0] == b[0] {
      LessParts(a[1..], b[1..]);
      if k: nat :| PartsAt(a[1..], b[1..], k) {
        PartsLater(a, b, k);
      } else {
        assert b[..|a|] == [b[0]] + b[1..][..|a| - 1] && a == [a[0]] + a[1..];
      }
    } else if |a| > 0 {
      assert PartsAt(a, b, 0);
    }
  }

  lemma {:induction false} PartsLess(a: string, b: string, k: nat)
    requires PartsAt(a, b, k)
    ensures Less(a, b)
  {
    if k > 0 {
      assert a[0] == a[..k][0] && b[0] == b[..k][0];
      PartsLater(a, b, k - 1);
      PartsLess(a[1..], b[1..], k - 1);
    }
  }

  lemma {:induction false} PrefixLess(a: string, b: string)
    requires |a| < |b| && b[..|a|] == a
    ensures Less(a, b)
  {
    if |a| > 0 {
      assert b[0] == b[..|a|][0] && b[1..][..|a| - 1] == b[..|a|][1..];
      PrefixLess(a[1..], b[1..]);
    }
  }

  /** Either b continues a, or the two part at a place where a has the smaller character. */
  lemma LessIff(a: string, b: string)
    ensures Less(a, b) <==> (|a| < |b| && b[..|a|] == a) || exists k: nat :: PartsAt(a, b, k)
  {
    if Less(a, b) {
      LessParts(a, b);
    } else if |a| < |b| && b[..|a|] == a {
      PrefixLess(a, b);
    } else if k: nat :| PartsAt(a, b, k) {
      PartsLess(a, b, k);
    }
  }
}
