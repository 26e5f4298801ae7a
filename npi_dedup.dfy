/**
 * drop_duplicates(subset=['npi']) on the provider rows: keep the first row
 * carrying each NPI and drop every later one, preserving the order of the
 * rows that are kept.
 */
module NpiDedup {
  import opened ProviderRows

  /** The NPIs occurring in a list of rows. */
  function NpiSet(s: seq<Row>): set<string>
  {
    set i | 0 <= i < |s| :: s[i].npi
  }

  /** No two rows share an NPI: the provider table's UNIQUE constraint on npi. */
  predicate DistinctNpis(s: seq<Row>)
  {
    forall i, j :: 0 <= i < j < |s| ==> s[i].npi != s[j].npi
  }

  /** `a` is `b` with some rows left out and the rest in their original order. */
  predicate IsSubsequence(a: seq<Row>, b: seq<Row>)
    decreases |b|
  {
    if a == [] then true
    else if b == [] then false
    else (a[|a| - 1] == b[|b| - 1] && IsSubsequence(a[..|a| - 1], b[..|b| - 1]))
         || IsSubsequence(a, b[..|b| - 1])
  }

  lemma NpiSetSnoc(s: seq<Row>, r: Row)
    ensures NpiSet(s + [r]) == NpiSet(s) + {r.npi}
  {
    var t := s + [r];
    assert forall i :: 0 <= i < |s| ==> t[i] == s[i];
    assert t[|s|] == r;
  }

  /**
   * The rows kept by the deduplication, as the single pass over the rows
   * computes them: a row is kept when no row kept before it has its NPI.
   */
  function Dedup(s: seq<Row>): (d: seq<Row>)
    ensures |d| <= |s|
    ensures NpiSet(d) == NpiSet(s)
    ensures DistinctNpis(d)
    ensures forall r :: r in d ==> r in s
    decreases |s|
  {
    if s == [] then []
    else
      var front, last := s[..|s| - 1], s[|s| - 1];
      var d := Dedup(front);
      NpiSetSnoc(front, last);
      assert s == front + [last];
      if last.npi in NpiSet(d) then d
      else
        NpiSetSnoc(d, last);
        d + [last]
  }

  /** The kept rows are a subsequence of the input: nothing is reordered or altered. */
  lemma {:induction false} DedupIsSubsequence(s: seq<Row>)
    ensures IsSubsequence(Dedup(s), s)
    decreases |s|
  {
    if s != [] {
      var front := s[..|s| - 1];
      DedupIsSubsequence(front);
      var d := Dedup(s);
      if d == Dedup(front) {
        assert d == [] || IsSubsequence(d, front);
      } else {
        assert d[..|d| - 1] == Dedup(front);
      }
    }
  }

  /** The index of the first row of `s` carrying NPI `n`. */
  function FirstIndex(s: seq<Row>, n: string): (k: nat)
    requires n in NpiSet(s)
    ensures k < |s| && s[k].npi == n
    ensures forall j :: 0 <= j < k ==> s[j].npi != n
    decreases |s|
  {
    if s[0].npi == n then 0
    else
      assert n in NpiSet(s[1..]) by {
        var i :| 0 <= i < |s| && s[i].npi == n;
        assert s[1..][i - 1].npi == n;
      }
      1 + FirstIndex(s[1..], n)
  }

  /** Dropping the last row does not move the first occurrence of an NPI the front already has. */
  lemma FirstIndexInFront(s: seq<Row>, n: string)
    requires s != [] && n in NpiSet(s[..|s| - 1])
    ensures n in NpiSet(s)
    ensures FirstIndex(s, n) == FirstIndex(s[..|s| - 1], n)
  {
    var front := s[..|s| - 1];
    NpiSetSnoc(front, s[|s| - 1]);
    assert s == front + [s[|s| - 1]];
    var k1, k2 := FirstIndex(front, n), FirstIndex(s, n);
    assert forall j :: 0 <= j < |front| ==> front[j] == s[j];
  }

  /** Every kept row is the first row of the input carrying its NPI, unchanged. */
  lemma {:induction false} DedupKeepsFirst(s: seq<Row>)
    ensures forall i :: 0 <= i < |Dedup(s)| ==> Dedup(s)[i] == s[FirstIndex(s, Dedup(s)[i].npi)]
    decreases |s|
  {
    if s != [] {
      var front, last := s[..|s| - 1], s[|s| - 1];
      var d, df := Dedup(s), Dedup(front);
      DedupKeepsFirst(front);
      forall i | 0 <= i < |d| ensures d[i] == s[FirstIndex(s, d[i].npi)] {
        if i < |df| {
          assert d[i] == df[i];
          assert df[i].npi in NpiSet(df);
          FirstIndexInFront(s, df[i].npi);
          var k := FirstIndex(front, df[i].npi);
          assert s[k] == front[k];
        } else {
          assert d[i] == last && last.npi !in NpiSet(front);
          assert forall j :: 0 <= j < |front| ==> front[j] == s[j];
        }
      }
    }
  }

  /** For every NPI of the input, the first row carrying it is among the kept rows. */
  lemma DedupKeepsEveryFirstRow(s: seq<Row>)
    ensures forall n :: n in NpiSet(s) ==> s[FirstIndex(s, n)] in Dedup(s)
  {
    var d := Dedup(s);
    DedupKeepsFirst(s);
    forall n | n in NpiSet(s) ensures s[FirstIndex(s, n)] in d {
      assert n in NpiSet(d);
      var i :| 0 <= i < |d| && d[i].npi == n;
      assert d[i] == s[FirstIndex(s, n)];
    }
  }

  /** A list that already has distinct NPIs comes back unchanged, in the same order. */
  lemma {:induction false} DedupOfDistinct(s: seq<Row>)
    requires DistinctNpis(s)
    ensures Dedup(s) == s
    decreases |s|
  {
    if s != [] {
      var front, last := s[..|s| - 1], s[|s| - 1];
      assert DistinctNpis(front) by {
        forall i, j | 0 <= i < j < |front| ensures front[i].npi != front[j].npi {
          assert front[i] == s[i] && front[j] == s[j];
        }
      }
      DedupOfDistinct(front);
      assert last.npi !in NpiSet(front) by {
        assert forall i :: 0 <= i < |front| ==> front[i] == s[i];
      }
      assert s == front + [last];
    }
  }

  /** Deduplicating `s + t` starts with the deduplication of `s`. */
  lemma {:induction false} DedupPrefix(s: seq<Row>, t: seq<Row>)
    ensures |Dedup(s)| <= |Dedup(s + t)|
    ensures Dedup(s + t)[..|Dedup(s)|] == Dedup(s)
    decreases |t|
  {
    if t == [] {
      assert s + t == s;
    } else {
      var t' := t[..|t| - 1];
      DedupPrefix(s, t');
      assert (s + t)[..|s + t| - 1] == s + t';
    }
  }

  /** Rows that all carry one NPI deduplicate to a single row. */
  lemma {:induction false} DedupSameNpi(s: seq<Row>)
    requires |s| > 0
    requires forall i :: 0 <= i < |s| ==> s[i].npi == s[0].npi
    ensures |Dedup(s)| == 1
    decreases |s|
  {
    if |s| > 1 {
      var front := s[..|s| - 1];
      DedupSameNpi(front);
      assert front[0] == s[0];
      assert s[|s| - 1].npi in NpiSet(front);
    }
  }

  /**
   * The in-place drop_duplicates: one pass over the rows with a set of the
   * NPIs seen so far; the kept rows are moved to the front of the array and
   * their number is returned.
   */
  method DropDuplicates(a: array<Row>) returns (len: nat)
    modifies a
    ensures len <= a.Length
    ensures a[..len] == Dedup(old(a[..]))
  {
    len := 0;
    var seen: set<string> := {};
    for i := 0 to a.Length
      invariant len <= i
      invariant a[..len] == Dedup(old(a[..i]))
      invariant a[i..] == old(a[i..])
      invariant seen == NpiSet(a[..len])
    {
      var row := a[i];
      assert old(a[..i + 1]) == old(a[..i]) + [row] by {
        assert old(a[..i + 1])[..i] == old(a[..i]);
        assert old(a[i..])[0] == row;
      }
      if row.npi !in seen {
        a[len] := row;
        NpiSetSnoc(a[..len], row);
        assert a[..len + 1] == a[..len] + [row];
        seen := seen + {row.npi};
        len := len + 1;
      }
      assert a[i + 1..] == old(a[i + 1..]) by {
        assert a[i + 1..] == a[i..][1..];
      }
    }
    assert old(a[..a.Length]) == old(a[..]);
  }
}
