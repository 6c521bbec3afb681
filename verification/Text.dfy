/** Substring search and trimming as the Go strings package does them, on code points. */
module Text {
  import opened Wrappers

  predicate StartsAt(s: string, i: nat, sub: string) {
    i + |sub| <= |s| && s[i..i + |sub|] == sub
  }

  ghost predicate Contains(s: string, sub: string) {
    exists i: nat :: StartsAt(s, i, sub)
  }

  /** The first place where sub stands in s. */
  function Index(s: string, sub: string): (r: Option<nat>)
    ensures r.Some? ==> StartsAt(s, r.value, sub)
  {
    if |s| < |sub| then None
    else if s[..|sub|] == sub then Some(0)
    else if |s| == 0 then None
    else
      var r := Index(s[1..], sub);
      if r.Some? then Some(r.value + 1) else None
  }

  lemma StartsLater(s: string, i: nat, sub: string)
    requires 0 < i && |s| > 0
    ensures StartsAt(s, i, sub) <==> StartsAt(s[1..], i - 1, sub)
  {
    if i + |sub| <= |s| {
      assert s[i..i + |sub|] == s[1..][i - 1..i - 1 + |sub|];
    }
  }

  lemma {:induction false} IndexIsFirst(s: string, sub: string)
    ensures match Index(s, sub)
            case Some(k) => StartsAt(s, k, sub) && forall i: nat | i < k :: !StartsAt(s, i, sub)
            case None => forall i: nat :: !StartsAt(s, i, sub)
  {
    if |s| >= |sub| && s[..|sub|] != sub && |s| > 0 {
      IndexIsFirst(s[1..], sub);
      forall i: nat | i > 0 ensures StartsAt(s, i, sub) <==> StartsAt(s[1..], i - 1, sub) {
        StartsLater(s, i, sub);
      }
      forall i: nat | Index(s, sub).None? || i < Index(s, sub).value ensures !StartsAt(s, i, sub) {
        if i > 0 {
          assert StartsAt(s, i, sub) <==> StartsAt(s[1..], i - 1, sub);
        }
      }
    }
  }

  lemma IndexAt(s: string, sub: string, k: nat)
    requires StartsAt(s, k, sub) && forall i: nat | i < k :: !StartsAt(s, i, sub)
    ensures Index(s, sub) == Some(k)
  {
    IndexIsFirst(s, sub);
  }

  lemma SubSlice(s: string, lo: nat, n: nat, j: nat, m: nat)
    requires lo + n <= |s| && j + m <= n
    ensures s[lo..lo + n][j..j + m] == s[lo + j..lo + j + m]
  {
    var u := s[lo..lo + n];
    var a, b := u[j..j + m], s[lo + j..lo + j + m];
    forall k | 0 <= k < m ensures a[k] == b[k] {
      assert a[k] == u[j + k];
    }
    assert a == b;
  }

  function TrimLeftNewlines(s: string): string {
    if |s| > 0 && s[0] == '\n' then TrimLeftNewlines(s[1..]) else s
  }

  lemma TrimTwice(s: string)
    ensures TrimLeftNewlines(TrimLeftNewlines(s)) == TrimLeftNewlines(s)
  {
  }

  /** A character that is not a newline stops the trimming. */
  lemma {:induction false} TrimStops(s: string, q: nat)
    requires q < |s| && s[q] != '\n'
    ensures |TrimLeftNewlines(s)| >= |s| - q
  {
    if s[0] == '\n' {
      TrimStops(s[1..], q - 1);
    }
  }

  function Spaces(n: int): string {
    if n <= 0 then "" else Spaces(n - 1) + " "
  }

  lemma SpacesAre(n: int)
    ensures |Spaces(n)| == (if n <= 0 then 0 else n) && forall i | 0 <= i < |Spaces(n)| :: Spaces(n)[i] == ' '
  {
  }

  /** %-ns: padded on the right to n code points, never cut. */
  function PadRight(s: string, n: nat): string {
    s + Spaces(n - |s|)
  }

  // ---- Unicode white space ----

  predicate IsSpace(c: char) {
    var n := c as int;
    9 <= n <= 13 || n == 32 || n == 0x85 || n == 0xA0 || n == 0x1680 || 0x2000 <= n <= 0x200A || n == 0x2028
    || n == 0x2029
    || n == 0x202F || n == 0x205F || n == 0x3000
  }

  function TrimRight(s: string): string {
    if |s| > 0 && IsSpace(s[|s| - 1]) then TrimRight(s[..|s| - 1]) else s
  }

  function TrimSpace(s: string): string {
    if |s| > 0 && IsSpace(s[0]) then TrimSpace(s[1..]) else TrimRight(s)
  }

  predicate Trimmed(s: string) {
    |s| == 0 || (!IsSpace(s[0]) && !IsSpace(s[|s| - 1]))
  }

  ghost predicate Blank(s: string) {
    forall i | 0 <= i < |s| :: IsSpace(s[i])
  }

  lemma {:induction false} TrimRightIs(t: string, b: string)
    requires Blank(b) && (|t| == 0 || !IsSpace(t[|t| - 1]))
    ensures TrimRight(t + b) == t
  {
    if |b| == 0 {
      assert t + b == t;
    } else {
      assert (t + b)[..|t + b| - 1] == t + b[..|b| - 1];
      TrimRightIs(t, b[..|b| - 1]);
    }
  }

  /** Trimming takes the blanks around a text that has none at its ends. */
  lemma {:induction false} TrimIs(a: string, t: string, b: string)
    requires Blank(a) && Blank(b) && Trimmed(t)
    ensures TrimSpace(a + t + b) == t
  {
    if |a| > 0 {
      assert (a + t + b)[1..] == a[1..] + t + b;
      TrimIs(a[1..], t, b);
    } else {
      assert a + t + b == t + b;
      if |t| == 0 && |b| > 0 {
        assert (t + b)[1..] == a + t + b[1..];
        TrimIs(a, t, b[1..]);
      } else {
        TrimRightIs(t, b);
      }
    }
  }

  lemma {:induction false} TrimRightParts(s: string) returns (b: string)
    ensures s == TrimRight(s) + b && Blank(b) && (|TrimRight(s)| == 0 || !IsSpace(TrimRight(s)[|TrimRight(s)| - 1]))
  {
    if |s| > 0 && IsSpace(s[|s| - 1]) {
      b := TrimRightParts(s[..|s| - 1]);
      b := b + [s[|s| - 1]];
    } else {
      b := "";
    }
  }

  /** What is left after trimming is trimmed, and only blanks are gone. */
  lemma {:induction false} TrimParts(s: string) returns (a: string, b: string)
    ensures s == a + TrimSpace(s) + b && Blank(a) && Blank(b) && Trimmed(TrimSpace(s))
  {
    if |s| > 0 && IsSpace(s[0]) {
      a, b := TrimParts(s[1..]);
      a := [s[0]] + a;
      assert s == [s[0]] + s[1..];
    } else {
      a := "";
      b := TrimRightParts(s);
      if |TrimRight(s)| > 0 {
        assert TrimRight(s)[0] == s[0];
      }
    }
  }
}
