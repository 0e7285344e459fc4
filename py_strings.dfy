/**
  The few Python string and path operations the scripts rely on, over
  `seq<char>`: the substring test `sub in s`, `s.split(sep)[0]` and
  `os.path.join` (POSIX flavour). `Find` and `FindFrom` are the search
  for the first occurrence that underlies both `in` and `split`.
 */
module PyStrings {
  import opened Wrappers

  type String = seq<char>

  /** `sub` occurs in `s` at index `i`. */
  predicate OccursAt(s: String, sub: String, i: nat) {
    i + |sub| <= |s| && s[i..i + |sub|] == sub
  }

  /** `s.find(sub, k)` as a value: the first index `>= k` at which `sub` occurs. */
  function FindFrom(s: String, sub: String, k: nat): (r: Option<nat>)
    decreases |s| - k
    ensures r.Some? ==> k <= r.value && OccursAt(s, sub, r.value)
    ensures forall j: nat :: k <= j && OccursAt(s, sub, j) ==> r.Some? && r.value <= j
  {
    if k + |sub| > |s| then None
    else if s[k..k + |sub|] == sub then Some(k)
    else FindFrom(s, sub, k + 1)
  }

  /** `s.find(sub)`: the index of the first occurrence, if there is one. */
  function Find(s: String, sub: String): (r: Option<nat>)
    ensures r.Some? ==> OccursAt(s, sub, r.value)
    ensures r.Some? ==> forall j: nat :: j < r.value ==> !OccursAt(s, sub, j)
    ensures r.None? ==> forall j: nat :: !OccursAt(s, sub, j)
  {
    FindFrom(s, sub, 0)
  }

  /** Python's `sub in s`. */
  function In(sub: String, s: String): (b: bool)
    ensures b <==> exists i: nat :: OccursAt(s, sub, i)
  {
    Find(s, sub).Some?
  }

  /** An occurrence inside a prefix of `s` is an occurrence in `s`. */
  lemma OccursInPrefix(s: String, n: nat, sub: String, j: nat)
    requires n <= |s| && OccursAt(s[..n], sub, j)
    ensures OccursAt(s, sub, j) && j + |sub| <= n
  {
  }

  /**
    `s.split(sep)[0]`: the text before the first occurrence of `sep`, or the
    whole of `s` when `sep` does not occur. Python rejects an empty separator.
   */
  function SplitHead(s: String, sep: String): (r: String)
    requires sep != []
    ensures r <= s
    ensures In(sep, s) ==> OccursAt(s, sep, |r|)
    ensures forall j: nat :: j < |r| ==> !OccursAt(s, sep, j)
    ensures !In(sep, s) ==> r == s
    ensures !In(sep, r)
  {
    match Find(s, sep)
    case Some(i) =>
      var r := s[..i];
      assert !In(sep, r) by {
        forall j: nat | OccursAt(r, sep, j) ensures false {
          OccursInPrefix(s, i, sep, j);
        }
      }
      r
    case None => s
  }

  /**
    The head of a split is determined by the two facts SplitHead promises:
    `p` is a prefix of `s` followed by `sep`, and `sep` starts nowhere before it.
   */
  lemma SplitHeadUnique(s: String, sep: String, p: String)
    requires sep != []
    requires p <= s && OccursAt(s, sep, |p|)
    requires forall j: nat :: j < |p| ==> !OccursAt(s, sep, j)
    ensures SplitHead(s, sep) == p
  {
  }

  /** Splitting is a round trip: the head, the separator and the rest give back `s`. */
  lemma SplitHeadRoundTrip(s: String, sep: String)
    requires sep != [] && In(sep, s)
    ensures var r := SplitHead(s, sep);
            |r| + |sep| <= |s| && s == r + sep + s[|r| + |sep|..]
  {
  }

  /** Does a path component start at the root, i.e. with `/`? */
  predicate IsAbsolute(p: String) {
    |p| > 0 && p[0] == '/'
  }

  /** What `os.path.join` puts between `a` and a relative component. */
  function Separator(a: String): String {
    if a == [] || a[|a| - 1] == '/' then "" else "/"
  }

  /**
    `os.path.join(a, b)` on POSIX: an absolute `b` replaces `a`; otherwise
    `b` is appended, with a `/` in between unless `a` is empty or already
    ends with one.
   */
  function JoinPath(a: String, b: String): (r: String)
    ensures IsAbsolute(b) ==> r == b
    ensures !IsAbsolute(b) ==> a <= r && |r| >= |b| && r[|r| - |b|..] == b
    ensures !IsAbsolute(b) ==> (|r| == |a| + |b| <==> a == [] || a[|a| - 1] == '/')
    ensures !IsAbsolute(b) ==> |a| + |b| <= |r| <= |a| + |b| + 1
    ensures !IsAbsolute(b) && a != [] ==> r[|r| - |b| - 1] == '/'
  {
    if IsAbsolute(b) then b else a + Separator(a) + b
  }
}
