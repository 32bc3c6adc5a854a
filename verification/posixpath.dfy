/** POSIX path splitting as the locator sees it through `os.path.basename`
    and `os.path.dirname`. The model assumes a POSIX host: the separator is
    `/`, a path splits just after its last separator, the tail is the base
    name, and the head loses its trailing separators unless it consists of
    separators only (so the directory of `/a` is `/` and of `a` is empty). */
module PosixPath {
  import opened Strings

  const Sep: char := '/'

  predicate AllSeparators(s: string) {
    forall k :: 0 <= k < |s| ==> s[k] == Sep
  }

  /** Index just after the last separator of `p`; 0 when there is none. */
  function SplitPoint(p: string): (i: nat)
    ensures i <= |p|
    ensures 0 < i ==> p[i - 1] == Sep
    ensures forall j :: i <= j < |p| ==> p[j] != Sep
  {
    LastIndexOf(p, Sep) + 1
  }

  /** Everything up to and including the last separator. */
  function Head(p: string): string {
    p[..SplitPoint(p)]
  }

  /** The final path component: everything after the last separator. */
  function Basename(p: string): (r: string)
    ensures Sep !in r
    ensures EndsWith(p, r)
  {
    var r := p[SplitPoint(p)..];
    assert forall k :: 0 <= k < |r| ==> r[k] == p[SplitPoint(p) + k];
    r
  }

  /** The directory part of `p`: the head without its trailing separators,
      unless the head is separators only (then the head itself, so `/x` has
      directory `/`, `//x` has `//`, and `a//x` has `a`). */
  function Dirname(p: string): (r: string)
    ensures StartsWith(p, r)
    ensures |r| <= |Head(p)|
    ensures 0 < |r| && r[|r| - 1] == Sep ==> AllSeparators(r)
    ensures Sep !in p ==> r == ""
    ensures AllSeparators(Head(p)) ==> r == Head(p)
    ensures !AllSeparators(Head(p)) ==>
      && 0 < |r| && r[|r| - 1] != Sep
      && StartsWith(Head(p), r)
      && AllSeparators(Head(p)[|r|..])
  {
    var head := Head(p);
    if 0 < |head| && !AllSeparators(head) then
      var t := TrimRight(head, Sep);
      assert forall k :: 0 <= k < |head| - |t| ==> head[|t|..][k] == head[|t| + k];
      t
    else head
  }

  /** A path is its head followed by its base name, and the split is the only
      one with a separator-free tail and a head that is empty or ends in a
      separator. */
  lemma SplitIsUnique(p: string, h: string, b: string)
    requires p == h + b
    requires Sep !in b
    requires |h| == 0 || h[|h| - 1] == Sep
    ensures h == Head(p) && b == Basename(p)
  {
    var i := SplitPoint(p);
    assert 0 < |h| ==> p[|h| - 1] == Sep;
    assert forall k :: |h| <= k < |p| ==> p[k] == b[k - |h|];
  }

  lemma SplitJoins(p: string)
    ensures Head(p) + Basename(p) == p
  {
  }

  /** Joining a directory with a separator-free name and splitting again
      gives back both parts (`dirname(join(d, n)) == d`). */
  lemma {:induction false} DirnameOfJoin(d: string, n: string)
    requires 0 < |d| && d[|d| - 1] != Sep
    requires Sep !in n
    ensures Basename(d + [Sep] + n) == n
    ensures Dirname(d + [Sep] + n) == d
  {
    var p := d + [Sep] + n;
    SplitIsUnique(p, d + [Sep], n);
    assert Head(p) == d + [Sep];
    assert !AllSeparators(Head(p)) by {
      assert Head(p)[|d| - 1] == d[|d| - 1];
    }
    var t := TrimRight(Head(p), Sep);
    assert Head(p)[..|d|] == d;
    assert |t| == |d| by {
      assert Head(p)[|d| - 1] != Sep;
    }
    assert t == Head(p)[..|t|];
  }

  /** A module directly under the root has the root as its directory. */
  lemma {:induction false} DirnameAtRoot(n: string)
    requires Sep !in n
    ensures Basename([Sep] + n) == n
    ensures Dirname([Sep] + n) == [Sep]
  {
    SplitIsUnique([Sep] + n, [Sep], n);
  }

  /** A non-empty base name makes the directory strictly shorter than the
      path, so taking the directory then really changes the path. */
  lemma DirnameShortens(p: string)
    requires 0 < |Basename(p)|
    ensures |Dirname(p)| < |p|
  {
    SplitJoins(p);
  }
}
