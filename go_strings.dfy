/** The parts of Go's `strings` package that the wrapper relies on:
    `strings.Index`, `strings.Split` and `strings.SplitN(s, sep, 2)`,
    over strings modelled as sequences of characters. */
module GoStrings {

  /** `p` occurs in `s` starting at position `j`. */
  predicate OccursAt(s: string, p: string, j: int) {
    0 <= j && j + |p| <= |s| && s[j..j + |p|] == p
  }

  /** `strings.Contains(s, p)`. */
  ghost predicate Contains(s: string, p: string) {
    exists j :: OccursAt(s, p, j)
  }

  /** The first occurrence of `p` in `s` at or after `k`, or -1. */
  function IndexFrom(s: string, p: string, k: nat): (i: int)
    requires k <= |s|
    ensures i == -1 || (k <= i && OccursAt(s, p, i))
    ensures forall j :: k <= j && (i == -1 || j < i) ==> !OccursAt(s, p, j)
    decreases |s| - k
  {
    if OccursAt(s, p, k) then k
    else if k == |s| then -1
    else IndexFrom(s, p, k + 1)
  }

  /** `strings.Index(s, p)`: the position of the first occurrence of `p`, or -1. */
  function Index(s: string, p: string): (i: int)
    ensures i == -1 <==> !Contains(s, p)
    ensures i != -1 ==> OccursAt(s, p, i)
    ensures forall j :: 0 <= j && (i == -1 || j < i) ==> !OccursAt(s, p, j)
  {
    IndexFrom(s, p, 0)
  }

  /** The first occurrence is unique: any position with no occurrence before it is Index. */
  lemma IndexIsFirst(s: string, p: string, k: int)
    requires OccursAt(s, p, k)
    requires forall j :: 0 <= j < k ==> !OccursAt(s, p, j)
    ensures Index(s, p) == k
  {
  }

  /** An occurrence inside a prefix of `s` is an occurrence in `s`. */
  lemma OccursInPrefix(s: string, p: string, n: nat, j: int)
    requires n <= |s|
    requires OccursAt(s[..n], p, j)
    ensures OccursAt(s, p, j) && j + |p| <= n
  {
    assert s[..n][j..j + |p|] == s[j..j + |p|];
  }

  /** The text before the first occurrence of `p` does not contain `p`. */
  lemma BeforeIndexIsFree(s: string, p: string)
    requires p != [] && Index(s, p) != -1
    ensures !Contains(s[..Index(s, p)], p)
  {
    var i := Index(s, p);
    if Contains(s[..i], p) {
      var j :| OccursAt(s[..i], p, j);
      OccursInPrefix(s, p, i, j);
      assert false;
    }
  }

  /** A one-character pattern occurs exactly where that character is. */
  lemma OccursAtChar(s: string, c: char, j: int)
    ensures OccursAt(s, [c], j) <==> 0 <= j < |s| && s[j] == c
  {
    if 0 <= j < |s| {
      assert s[j..j + 1] == [s[j]];
    }
  }

  /** Containing a one-character pattern is containing that character. */
  lemma ContainsChar(s: string, c: char)
    ensures Contains(s, [c]) <==> c in s
  {
    if c in s {
      var j :| 0 <= j < |s| && s[j] == c;
      OccursAtChar(s, c, j);
    }
    if Contains(s, [c]) {
      var j :| OccursAt(s, [c], j);
      OccursAtChar(s, c, j);
    }
  }

  /** `strings.Index(s, string(c))` for a one-character pattern. */
  lemma IndexChar(s: string, c: char, k: int)
    requires 0 <= k < |s| && s[k] == c && c !in s[..k]
    ensures Index(s, [c]) == k
  {
    OccursAtChar(s, c, k);
    forall j | 0 <= j < k ensures !OccursAt(s, [c], j) {
      OccursAtChar(s, c, j);
      assert s[..k][j] == s[j];
    }
    IndexIsFirst(s, [c], k);
  }

  /** `strings.Split(s, sep)` for a non-empty separator: the pieces between
      successive non-overlapping occurrences of `sep`, scanning left to right. */
  function Split(s: string, sep: string): (parts: seq<string>)
    requires sep != []
    ensures |parts| >= 1
    decreases |s|
  {
    var i := Index(s, sep);
    if i == -1 then [s] else [s[..i]] + Split(s[i + |sep|..], sep)
  }

  /** A split is the single piece `s` exactly when the separator does not occur. */
  lemma SplitWhole(s: string, sep: string)
    requires sep != []
    ensures Split(s, sep) == [s] <==> !Contains(s, sep)
  {
    if Index(s, sep) != -1 {
      assert |Split(s, sep)| >= 2;
    }
  }

  /** The first piece of a split is the text before the first occurrence of
      the separator, or the whole string when there is none. */
  lemma SplitHead(s: string, sep: string)
    requires sep != []
    ensures Split(s, sep)[0] == if Index(s, sep) == -1 then s else s[..Index(s, sep)]
    ensures !Contains(Split(s, sep)[0], sep)
  {
    if Index(s, sep) != -1 {
      BeforeIndexIsFree(s, sep);
    }
  }

  /** The inverse of Split: `strings.Join(parts, sep)`. */
  function Join(parts: seq<string>, sep: string): string
    requires |parts| >= 1
  {
    if |parts| == 1 then parts[0] else parts[0] + sep + Join(parts[1..], sep)
  }

  /** Joining the pieces of a split with the separator gives back the string,
      and no piece contains the separator. */
  lemma {:induction false} SplitJoin(s: string, sep: string)
    requires sep != []
    ensures Join(Split(s, sep), sep) == s
    decreases |s|
  {
    var i := Index(s, sep);
    if i != -1 {
      var rest := s[i + |sep|..];
      SplitStep(s, sep);
      SplitJoin(rest, sep);
      var parts := Split(s, sep);
      assert parts[1..] == Split(rest, sep);
      assert Join(parts, sep) == s[..i] + sep + Join(Split(rest, sep), sep);
    }
  }

  /** One step of Split: the piece before the first separator, then the split of the rest. */
  lemma SplitStep(s: string, sep: string)
    requires sep != [] && Index(s, sep) != -1
    ensures var i := Index(s, sep);
      Split(s, sep) == [s[..i]] + Split(s[i + |sep|..], sep) &&
      s == s[..i] + sep + s[i + |sep|..]
  {
    var i := Index(s, sep);
    assert s[i..i + |sep|] == sep;
    assert s == s[..i] + s[i..i + |sep|] + s[i + |sep|..];
  }

  /** Split cuts at the leftmost occurrence: given any position `k` where the
      separator occurs and before which it does not, the first piece ends at
      `k` and the rest is the split of the text after that occurrence. */
  lemma SplitAtLeftmost(s: string, sep: string, k: int)
    requires sep != []
    requires OccursAt(s, sep, k) && forall j :: 0 <= j < k ==> !OccursAt(s, sep, j)
    ensures Split(s, sep) == [s[..k]] + Split(s[k + |sep|..], sep)
    ensures s == s[..k] + sep + s[k + |sep|..]
  {
    IndexIsFirst(s, sep, k);
    SplitStep(s, sep);
  }

  /** No piece of a split contains the separator. */
  lemma {:induction false} SplitPiecesFree(s: string, sep: string)
    requires sep != []
    ensures forall k :: 0 <= k < |Split(s, sep)| ==> !Contains(Split(s, sep)[k], sep)
    decreases |s|
  {
    var i := Index(s, sep);
    if i != -1 {
      var rest := s[i + |sep|..];
      var parts := Split(s, sep);
      SplitStep(s, sep);
      SplitPiecesFree(rest, sep);
      BeforeIndexIsFree(s, sep);
      forall k | 0 <= k < |parts| ensures !Contains(parts[k], sep) {
        if k > 0 {
          assert parts[k] == Split(rest, sep)[k - 1];
        }
      }
    }
  }

  /** Splitting at one character distributes over a concatenation around that character. */
  lemma {:induction false} SplitConcat(a: string, b: string, c: char)
    ensures Split(a + [c] + b, [c]) == Split(a, [c]) + Split(b, [c])
    decreases |a|
  {
    var i := FirstChar(a, c);
    if i != -1 {
      var p, a2 := a[..i], a[i + 1..];
      CutAround(a, b, c, i);
      SplitConcat(a2, b, c);
      SplitAfterFree(p, a2, c);
      SplitAfterFree(p, a2 + [c] + b, c);
    } else {
      SplitAfterFree(a, b, c);
      SplitNoSeparator(a, c);
    }
  }

  /** Cutting `a` around its character at `i`, also inside `a + [c] + b`. */
  lemma CutAround(a: string, b: string, c: char, i: int)
    requires 0 <= i < |a| && a[i] == c
    ensures a == a[..i] + [c] + a[i + 1..]
    ensures a + [c] + b == a[..i] + [c] + (a[i + 1..] + [c] + b)
  {
    assert a == a[..i] + [c] + a[i + 1..];
  }

  /** A piece free of `c`, then `c`: the split starts with that piece. */
  lemma SplitAfterFree(p: string, r: string, c: char)
    requires c !in p
    ensures Split(p + [c] + r, [c]) == [p] + Split(r, [c])
  {
    var s := p + [c] + r;
    assert s[..|p|] == p;
    assert s[|p| + 1..] == r;
    SplitAtChar(s, c, |p|);
  }

  /** The position of the first `c` in `s`, or -1 when there is none. */
  lemma FirstChar(s: string, c: char) returns (i: int)
    ensures i == -1 ==> c !in s
    ensures i != -1 ==> 0 <= i < |s| && s[i] == c && c !in s[..i]
  {
    ContainsChar(s, c);
    i := Index(s, [c]);
    if i != -1 {
      OccursAtChar(s, c, i);
      BeforeIndexIsFree(s, [c]);
      ContainsChar(s[..i], c);
    }
  }

  /** Splitting at the first occurrence of a character. */
  lemma SplitAtChar(s: string, c: char, k: int)
    requires 0 <= k < |s| && s[k] == c && c !in s[..k]
    ensures Split(s, [c]) == [s[..k]] + Split(s[k + 1..], [c])
  {
    IndexChar(s, c, k);
  }

  /** A string without the separator character splits into itself. */
  lemma SplitNoSeparator(s: string, c: char)
    requires c !in s
    ensures Split(s, [c]) == [s]
  {
    ContainsChar(s, c);
  }

  /** `strings.SplitN(s, sep, 2)`: `[s]` when `sep` does not occur, otherwise
      the text before the first occurrence and everything after it. */
  function SplitN2(s: string, sep: string): (parts: seq<string>)
    requires sep != []
    ensures 1 <= |parts| <= 2
    ensures |parts| == 2 ==> |parts[0]| == Index(s, sep) && parts[1] == s[|parts[0]| + |sep|..]
  {
    var i := Index(s, sep);
    if i == -1 then [s] else [s[..i], s[i + |sep|..]]
  }

  /** SplitN(s, sep, 2) returns one piece, `s` itself, exactly when `sep` does
      not occur; otherwise two pieces around the first occurrence, the first of
      which does not contain `sep` and ends where that occurrence begins. */
  lemma SplitN2Parts(s: string, sep: string)
    requires sep != []
    ensures |SplitN2(s, sep)| == 1 <==> !Contains(s, sep)
    ensures |SplitN2(s, sep)| == 1 ==> SplitN2(s, sep) == [s]
    ensures |SplitN2(s, sep)| == 2 ==>
      s == SplitN2(s, sep)[0] + sep + SplitN2(s, sep)[1] && !Contains(SplitN2(s, sep)[0], sep)
    ensures |SplitN2(s, sep)| == 2 ==>
      OccursAt(s, sep, |SplitN2(s, sep)[0]|) &&
      forall j :: 0 <= j < |SplitN2(s, sep)[0]| ==> !OccursAt(s, sep, j)
  {
    var i := Index(s, sep);
    if i != -1 {
      BeforeIndexIsFree(s, sep);
      assert s[i..i + |sep|] == sep;
      assert s == s[..i] + sep + s[i + |sep|..];
    }
  }

  /** For a one-character separator: two pieces exactly when the character occurs. */
  lemma SplitN2Char(s: string, c: char)
    ensures |SplitN2(s, [c])| == 2 <==> c in s
  {
    ContainsChar(s, c);
  }
}
