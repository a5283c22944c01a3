/** PHP's `implode($glue, $pieces)`, used by the tracker to turn a list of method names into
    one string, and `Split`, its inverse on pieces that never contain the glue's first
    character. */
module Implode {
  import opened Wrappers

  /** `s` begins with `p`. */
  predicate StartsWith(s: string, p: string)
  {
    |p| <= |s| && s[..|p|] == p
  }

  /** The pieces with `sep` between each neighbouring pair: no pieces give the empty string,
      one piece gives itself. */
  function Join(sep: string, parts: seq<string>): (s: string)
    ensures |parts| > 0 ==> StartsWith(s, parts[0])
  {
    if |parts| == 0 then ""
    else if |parts| == 1 then parts[0]
    else parts[0] + sep + Join(sep, parts[1..])
  }

  /** Total number of characters over all pieces. */
  function TotalLength(parts: seq<string>): nat
  {
    if |parts| == 0 then 0 else |parts[0]| + TotalLength(parts[1..])
  }

  /** Every character of every piece differs from `c`. */
  predicate Avoids(parts: seq<string>, c: char)
  {
    forall i, j :: 0 <= i < |parts| && 0 <= j < |parts[i]| ==> parts[i][j] != c
  }

  /** `sep` occurs in `s` starting at index `j`. */
  predicate OccursAt(s: string, sep: string, j: nat)
  {
    j + |sep| <= |s| && s[j..j + |sep|] == sep
  }

  lemma OccursAtTail(s: string, sep: string, j: nat)
    requires |s| > 0
    ensures OccursAt(s, sep, j + 1) <==> OccursAt(s[1..], sep, j)
  {
  }

  /** Index of the first occurrence of `sep` in `s`, if any. */
  function Find(s: string, sep: string): (r: Option<nat>)
    requires |sep| > 0
    ensures r.Some? ==> OccursAt(s, sep, r.value)
    ensures r.Some? ==> forall j: nat :: j < r.value ==> !OccursAt(s, sep, j)
    ensures r.None? ==> forall j: nat :: !OccursAt(s, sep, j)
  {
    if |s| < |sep| then None
    else if s[..|sep|] == sep then Some(0)
    else
      var rest := Find(s[1..], sep);
      assert forall j: nat :: OccursAt(s, sep, j + 1) <==> OccursAt(s[1..], sep, j) by {
        forall j: nat ensures OccursAt(s, sep, j + 1) <==> OccursAt(s[1..], sep, j) {
          OccursAtTail(s, sep, j);
        }
      }
      assert forall j: nat :: j > 0 ==> (OccursAt(s, sep, j) <==> OccursAt(s[1..], sep, j - 1));
      match rest
      case None => None
      case Some(i) => Some(i + 1)
  }

  /** Cuts `s` at every occurrence of `sep`, left to right: `explode($sep, $s)`. */
  function Split(s: string, sep: string): (parts: seq<string>)
    requires |sep| > 0
    ensures |parts| > 0
    decreases |s|
  {
    match Find(s, sep)
    case None => [s]
    case Some(i) => [s[..i]] + Split(s[i + |sep|..], sep)
  }

  lemma MulPred(n: int, m: int)
    ensures (n - 1) * m + m == n * m
  {
  }

  /** Joining a non-empty list puts exactly one separator between neighbours. */
  lemma {:induction false} JoinLength(sep: string, parts: seq<string>)
    requires |parts| > 0
    ensures |Join(sep, parts)| == TotalLength(parts) + (|parts| - 1) * |sep|
  {
    if |parts| > 1 {
      JoinLength(sep, parts[1..]);
      assert |Join(sep, parts)| == |parts[0]| + |sep| + |Join(sep, parts[1..])|;
      MulPred(|parts| - 1, |sep|);
    }
  }

  /** Joining is left to right: a further piece lands after one more separator at the end. */
  lemma {:induction false} JoinSnoc(sep: string, parts: seq<string>, p: string)
    requires |parts| > 0
    ensures Join(sep, parts + [p]) == Join(sep, parts) + sep + p
  {
    var longer := parts + [p];
    assert longer[0] == parts[0];
    assert longer[1..] == parts[1..] + [p];
    if |parts| == 1 {
      assert longer[1..] == [p];
    } else {
      JoinSnoc(sep, parts[1..], p);
      assert Join(sep, longer) == parts[0] + sep + Join(sep, parts[1..] + [p]);
      assert Join(sep, parts) == parts[0] + sep + Join(sep, parts[1..]);
    }
  }

  /** A piece free of the separator's first character ends at the first separator. */
  lemma {:induction false} FindAfterClean(p: string, sep: string, rest: string)
    requires |sep| > 0
    requires forall j :: 0 <= j < |p| ==> p[j] != sep[0]
    ensures Find(p + sep + rest, sep) == Some(|p|)
  {
    var s := p + sep + rest;
    if |p| == 0 {
      assert s[..|sep|] == sep;
    } else {
      assert s[0] == p[0];
      assert s[..|sep|] != sep by { assert s[..|sep|][0] != sep[0]; }
      assert s[1..] == p[1..] + sep + rest;
      FindAfterClean(p[1..], sep, rest);
    }
  }

  /** A piece free of the separator's first character holds no separator. */
  lemma FindClean(p: string, sep: string)
    requires |sep| > 0
    requires forall j :: 0 <= j < |p| ==> p[j] != sep[0]
    ensures Find(p, sep) == None
  {
  }

  /** Splitting a piece free of the separator's first character, a separator and a rest
      yields the piece followed by the split of the rest. */
  lemma SplitFirst(p: string, sep: string, rest: string)
    requires |sep| > 0
    requires forall j :: 0 <= j < |p| ==> p[j] != sep[0]
    ensures Split(p + sep + rest, sep) == [p] + Split(rest, sep)
  {
    var s := p + sep + rest;
    FindAfterClean(p, sep, rest);
    assert s[..|p|] == p;
    assert s[|p| + |sep|..] == rest;
  }

  lemma AvoidsTail(parts: seq<string>, c: char)
    requires |parts| > 0 && Avoids(parts, c)
    ensures Avoids(parts[1..], c)
    ensures forall j :: 0 <= j < |parts[0]| ==> parts[0][j] != c
  {
    forall i, j | 0 <= i < |parts[1..]| && 0 <= j < |parts[1..][i]|
      ensures parts[1..][i][j] != c
    {
      assert parts[1..][i] == parts[i + 1];
    }
  }

  /** `Split` inverts `Join` when no piece contains the separator's first character, so the
      joined string keeps every piece and their order. */
  lemma {:induction false} SplitJoin(sep: string, parts: seq<string>)
    requires |sep| > 0
    requires |parts| > 0
    requires Avoids(parts, sep[0])
    ensures Split(Join(sep, parts), sep) == parts
  {
    AvoidsTail(parts, sep[0]);
    if |parts| == 1 {
      FindClean(parts[0], sep);
    } else {
      var rest := Join(sep, parts[1..]);
      assert Join(sep, parts) == parts[0] + sep + rest;
      SplitFirst(parts[0], sep, rest);
      SplitJoin(sep, parts[1..]);
      assert [parts[0]] + parts[1..] == parts;
    }
  }

  /** `implode` as a loop over the pieces, appending the glue before every piece but the
      first. */
  method Implode(sep: string, parts: seq<string>) returns (s: string)
    ensures s == Join(sep, parts)
  {
    if |parts| == 0 {
      return "";
    }
    s := parts[0];
    var i := 1;
    assert parts[..1] == [parts[0]];
    while i < |parts|
      invariant 1 <= i <= |parts|
      invariant s == Join(sep, parts[..i])
    {
      var done := parts[..i];
      assert parts[..i + 1] == done + [parts[i]];
      JoinSnoc(sep, done, parts[i]);
      s := s + sep + parts[i];
      i := i + 1;
    }
    assert parts[..i] == parts;
  }

  /** The shipping tier of an order with shipments "Standard" and "Express". */
  lemma JoinTwoMethods()
    ensures Join(", ", ["Standard", "Express"]) == "Standard, Express"
  {
  }
}
