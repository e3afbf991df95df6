/**
 Which paths an agent may touch: denied roots, allowed roots that carve into them, and the
 user's patterns. The table pairing each denied root with its carve-outs is computed once.

 A path is the sequence of its resolved components.
 */
module DeniedPaths {
  import opened Wrappers

  type Path = seq<string>

  datatype Denial = Root(root: Path) | Pattern(pattern: string)

  type Table = seq<(Path, seq<Path>)>

  predicate Under(path: Path, parent: Path) {
    parent <= path
  }

  /** The allowed roots that lie inside a denied root. */
  function Shields(allowed: seq<Path>, denied: Path): seq<Path> {
    if allowed == [] then []
    else (if Under(allowed[0], denied) then [allowed[0]] else []) + Shields(allowed[1..], denied)
  }

  function ShieldTable(denied: seq<Path>, allowed: seq<Path>): (t: Table)
    ensures |t| == |denied|
  {
    if denied == [] then [] else [(denied[0], Shields(allowed, denied[0]))] + ShieldTable(denied[1..], allowed)
  }

  predicate AnyAbove(path: Path, roots: seq<Path>) {
    exists i :: 0 <= i < |roots| && Under(path, roots[i])
  }

  function RootDenial(path: Path, table: Table): Option<Path> {
    if table == [] then None
    else if !AnyAbove(path, table[0].1) && Under(path, table[0].0) then Some(table[0].0)
    else RootDenial(path, table[1..])
  }

  function PatternDenial(path: Path, patterns: seq<string>, matches: (string, Path) -> bool): Option<string> {
    if patterns == [] then None
    else if matches(patterns[0], path) then Some(patterns[0])
    else PatternDenial(path, patterns[1..], matches)
  }

  function Verdict(path: Path, denied: seq<Path>, allowed: seq<Path>, patterns: seq<string>,
                   matches: (string, Path) -> bool): Option<Denial>
  {
    var root := RootDenial(path, ShieldTable(denied, allowed));
    if root.Some? then Some(Root(root.value))
    else
      var pattern := PatternDenial(path, patterns, matches);
      if pattern.Some? then Some(Pattern(pattern.value)) else None
  }

  class DeniedPathPolicy {
    const deniedRoots: seq<Path>
    const allowedRoots: seq<Path>
    const patterns: seq<string>
    var shieldedRootsCache: Option<Table>

    constructor (deniedRoots: seq<Path>, allowedRoots: seq<Path>, patterns: seq<string>)
      ensures Valid() && this.deniedRoots == deniedRoots && this.allowedRoots == allowedRoots
              && this.patterns == patterns
    {
      this.deniedRoots, this.allowedRoots, this.patterns := deniedRoots, allowedRoots, patterns;
      shieldedRootsCache := None;
    }

    ghost predicate Valid()
      reads this
    {
      shieldedRootsCache.Some? ==> shieldedRootsCache.value == ShieldTable(deniedRoots, allowedRoots)
    }

    /** The table, computed on first use and kept. */
    method ShieldedDeniedRoots() returns (table: Table)
      requires Valid()
      modifies this`shieldedRootsCache
      ensures Valid() && table == ShieldTable(deniedRoots, allowedRoots) && shieldedRootsCache == Some(table)
    {
      if shieldedRootsCache.Some? {
        return shieldedRootsCache.value;
      }
      table := [];
      for i := 0 to |deniedRoots|
        invariant table + ShieldTable(deniedRoots[i..], allowedRoots) == ShieldTable(deniedRoots, allowedRoots)
      {
        assert deniedRoots[i..][1..] == deniedRoots[i + 1..];
        table := table + [(deniedRoots[i], Shields(allowedRoots, deniedRoots[i]))];
      }
      shieldedRootsCache := Some(table);
    }

    /** Whatever the cache holds, the answer is the one recomputed for this path alone. */
    method IsDenied(path: Path, matches: (string, Path) -> bool) returns (denial: Option<Denial>)
      requires Valid()
      modifies this`shieldedRootsCache
      ensures Valid() && denial == Verdict(path, deniedRoots, allowedRoots, patterns, matches)
    {
      var table := ShieldedDeniedRoots();
      for i := 0 to |table|
        invariant RootDenial(path, table[i..]) == RootDenial(path, table)
      {
        assert table[i..][0] == table[i] && table[i..][1..] == table[i + 1..];
        if !AnyAbove(path, table[i].1) {
          if Under(path, table[i].0) {
            return Some(Root(table[i].0));
          }
        }
      }
      for i := 0 to |patterns|
        invariant PatternDenial(path, patterns[i..], matches) == PatternDenial(path, patterns, matches)
      {
        assert patterns[i..][0] == patterns[i] && patterns[i..][1..] == patterns[i + 1..];
        if matches(patterns[i], path) {
          return Some(Pattern(patterns[i]));
        }
      }
      denial := None;
    }
  }

  // ---- The longest prefix wins ---------------------------------------------------------

  /** The depth of the deepest of the roots a path lies under. */
  function Depth(path: Path, roots: seq<Path>): Option<nat> {
    if roots == [] then None
    else
      var rest := Depth(path, roots[1..]);
      if Under(path, roots[0]) && (rest.None? || rest.value < |roots[0]|) then Some(|roots[0]|) else rest
  }

  lemma {:induction false} DepthIs(path: Path, roots: seq<Path>)
    ensures Depth(path, roots).Some? ==>
              exists i :: 0 <= i < |roots| && Under(path, roots[i]) && |roots[i]| == Depth(path, roots).value
    ensures forall i :: 0 <= i < |roots| && Under(path, roots[i]) ==>
              Depth(path, roots).Some? && |roots[i]| <= Depth(path, roots).value
  {
    if roots != [] {
      var rest := roots[1..];
      DepthIs(path, rest);
      assert forall i :: 1 <= i < |roots| ==> roots[i] == rest[i - 1];
      if Under(path, roots[0]) && Depth(path, roots) == Some(|roots[0]|) {
        assert Under(path, roots[0]);
      } else if Depth(path, roots).Some? {
        var i :| 0 <= i < |rest| && Under(path, rest[i]) && |rest[i]| == Depth(path, rest).value;
        assert roots[i + 1] == rest[i];
      }
    }
  }

  lemma {:induction false} ShieldsAre(allowed: seq<Path>, denied: Path, path: Path)
    ensures AnyAbove(path, Shields(allowed, denied))
            <==> exists i :: 0 <= i < |allowed| && Under(allowed[i], denied) && Under(path, allowed[i])
  {
    if allowed != [] {
      var rest, shields := allowed[1..], Shields(allowed[1..], denied);
      ShieldsAre(rest, denied, path);
      var head := if Under(allowed[0], denied) then [allowed[0]] else [];
      assert Shields(allowed, denied) == head + shields;
      if AnyAbove(path, Shields(allowed, denied)) {
        var i :| 0 <= i < |head + shields| && Under(path, (head + shields)[i]);
        if i >= |head| {
          assert shields[i - |head|] == (head + shields)[i];
          var j :| 0 <= j < |rest| && Under(rest[j], denied) && Under(path, rest[j]);
          assert allowed[j + 1] == rest[j];
        }
      }
      if j :| 0 <= j < |allowed| && Under(allowed[j], denied) && Under(path, allowed[j]) {
        if j == 0 {
          assert (head + shields)[0] == allowed[0];
        } else {
          assert rest[j - 1] == allowed[j];
          var i :| 0 <= i < |shields| && Under(path, shields[i]);
          assert (head + shields)[|head| + i] == shields[i];
        }
      }
    }
  }

  lemma {:induction false} RootDenialIs(path: Path, denied: seq<Path>, allowed: seq<Path>)
    ensures RootDenial(path, ShieldTable(denied, allowed)).Some?
            <==> exists i :: 0 <= i < |denied| && Under(path, denied[i]) && !AnyAbove(path, Shields(allowed, denied[i]))
  {
    if denied != [] {
      var rest := denied[1..];
      RootDenialIs(path, rest, allowed);
      assert ShieldTable(denied, allowed)[1..] == ShieldTable(rest, allowed);
      if i :| 0 <= i < |denied| && Under(path, denied[i]) && !AnyAbove(path, Shields(allowed, denied[i])) {
        assert i > 0 ==> rest[i - 1] == denied[i];
      }
      if i :| 0 <= i < |rest| && Under(path, rest[i]) && !AnyAbove(path, Shields(allowed, rest[i])) {
        assert denied[i + 1] == rest[i];
      }
    }
  }

  /**
   A path is denied by a root exactly when the deepest denied root above it is strictly
   deeper than every allowed root above it.
   */
  lemma LongestPrefixWins(path: Path, denied: seq<Path>, allowed: seq<Path>)
    ensures RootDenial(path, ShieldTable(denied, allowed)).Some?
            <==> Depth(path, denied).Some?
                 && (Depth(path, allowed).None? || Depth(path, allowed).value < Depth(path, denied).value)
  {
    DepthIs(path, denied);
    DepthIs(path, allowed);
    RootDenialIs(path, denied, allowed);
    forall i | 0 <= i < |denied| && Under(path, denied[i])
      ensures AnyAbove(path, Shields(allowed, denied[i]))
              <==> exists j :: 0 <= j < |allowed| && Under(path, allowed[j]) && |denied[i]| <= |allowed[j]|
    {
      ShieldsAre(allowed, denied[i], path);
      SameChain(path, denied[i], allowed);
    }
  }

  /** Two roots above one path are one inside the other, by their depths. */
  lemma SameChain(path: Path, root: Path, allowed: seq<Path>)
    requires Under(path, root)
    ensures (exists j :: 0 <= j < |allowed| && Under(allowed[j], root) && Under(path, allowed[j]))
            <==> (exists j :: 0 <= j < |allowed| && Under(path, allowed[j]) && |root| <= |allowed[j]|)
  {
    forall j | 0 <= j < |allowed| && Under(path, allowed[j])
      ensures Under(allowed[j], root) <==> |root| <= |allowed[j]|
    {
    }
  }

  lemma {:induction false} PatternDenialIs(path: Path, patterns: seq<string>, matches: (string, Path) -> bool)
    ensures PatternDenial(path, patterns, matches).Some? <==> exists p :: p in patterns && matches(p, path)
  {
    if patterns != [] {
      PatternDenialIs(path, patterns[1..], matches);
      assert patterns == [patterns[0]] + patterns[1..] && patterns[0] in patterns;
    }
  }

  /** A matching pattern denies whatever the roots say; without one the roots decide. */
  lemma PatternsAlwaysDeny(path: Path, denied: seq<Path>, allowed: seq<Path>, patterns: seq<string>,
                           matches: (string, Path) -> bool)
    ensures Verdict(path, denied, allowed, patterns, matches).Some?
            <==> (exists p :: p in patterns && matches(p, path)) || RootDenial(path, ShieldTable(denied, allowed)).Some?
  {
    PatternDenialIs(path, patterns, matches);
  }

  // ---- Which denial is reported --------------------------------------------------------

  /** The path lies under the root, and no allowed root lies between the two. */
  ghost predicate Denies(path: Path, root: Path, allowed: seq<Path>) {
    root <= path && !exists i :: 0 <= i < |allowed| && root <= allowed[i] && allowed[i] <= path
  }

  /** The first of `roots` that denies the path. */
  ghost predicate FirstRoot(path: Path, roots: seq<Path>, allowed: seq<Path>, k: int) {
    0 <= k < |roots| && Denies(path, roots[k], allowed) && forall j :: 0 <= j < k ==> !Denies(path, roots[j], allowed)
  }

  ghost predicate FirstMatch(path: Path, patterns: seq<string>, matches: (string, Path) -> bool, k: int) {
    0 <= k < |patterns| && matches(patterns[k], path) && forall j :: 0 <= j < k ==> !matches(patterns[j], path)
  }

  lemma DeniesIs(path: Path, root: Path, allowed: seq<Path>)
    ensures Denies(path, root, allowed) <==> Under(path, root) && !AnyAbove(path, Shields(allowed, root))
  {
    ShieldsAre(allowed, root, path);
  }

  lemma FirstLater(path: Path, denied: seq<Path>, allowed: seq<Path>, k: int)
    requires denied != [] && !Denies(path, denied[0], allowed) && FirstRoot(path, denied[1..], allowed, k)
    ensures FirstRoot(path, denied, allowed, k + 1)
  {
    forall j | 0 <= j < k + 1 ensures !Denies(path, denied[j], allowed) {
      assert j > 0 ==> denied[j] == denied[1..][j - 1];
    }
  }

  lemma {:induction false} RootReported(path: Path, denied: seq<Path>, allowed: seq<Path>)
    ensures match RootDenial(path, ShieldTable(denied, allowed))
            case Some(root) => exists k :: FirstRoot(path, denied, allowed, k) && root == denied[k]
            case None => forall k :: 0 <= k < |denied| ==> !Denies(path, denied[k], allowed)
  {
    if denied != [] {
      var rest := denied[1..];
      assert ShieldTable(denied, allowed)[1..] == ShieldTable(rest, allowed);
      DeniesIs(path, denied[0], allowed);
      if Denies(path, denied[0], allowed) {
        assert FirstRoot(path, denied, allowed, 0);
      } else {
        RootReported(path, rest, allowed);
        if RootDenial(path, ShieldTable(rest, allowed)).Some? {
          var k :| FirstRoot(path, rest, allowed, k) && RootDenial(path, ShieldTable(rest, allowed)).value == rest[k];
          FirstLater(path, denied, allowed, k);
        } else {
          forall k | 0 <= k < |denied| ensures !Denies(path, denied[k], allowed) {
            assert k > 0 ==> denied[k] == rest[k - 1];
          }
        }
      }
    }
  }

  lemma {:induction false} PatternReported(path: Path, patterns: seq<string>, matches: (string, Path) -> bool)
    ensures match PatternDenial(path, patterns, matches)
            case Some(pattern) => exists k :: FirstMatch(path, patterns, matches, k) && pattern == patterns[k]
            case None => forall k :: 0 <= k < |patterns| ==> !matches(patterns[k], path)
  {
    if patterns != [] {
      var rest := patterns[1..];
      if matches(patterns[0], path) {
        assert FirstMatch(path, patterns, matches, 0);
      } else {
        PatternReported(path, rest, matches);
        if PatternDenial(path, rest, matches).Some? {
          var k :| FirstMatch(path, rest, matches, k) && PatternDenial(path, rest, matches).value == rest[k];
          forall j | 0 <= j < k + 1 ensures !matches(patterns[j], path) {
            assert j > 0 ==> patterns[j] == rest[j - 1];
          }
          assert FirstMatch(path, patterns, matches, k + 1);
        } else {
          forall k | 0 <= k < |patterns| ensures !matches(patterns[k], path) {
            assert k > 0 ==> patterns[k] == rest[k - 1];
          }
        }
      }
    }
  }

  /**
   The verdict names the first denied root above the path with no allowed root between the
   two, or else the first matching pattern, or nothing when there is neither.
   */
  lemma VerdictIs(path: Path, denied: seq<Path>, allowed: seq<Path>, patterns: seq<string>,
                  matches: (string, Path) -> bool)
    ensures match Verdict(path, denied, allowed, patterns, matches)
            case Some(Root(root)) => exists k :: FirstRoot(path, denied, allowed, k) && root == denied[k]
            case Some(Pattern(pattern)) =>
              (forall k :: 0 <= k < |denied| ==> !Denies(path, denied[k], allowed))
              && exists k :: FirstMatch(path, patterns, matches, k) && pattern == patterns[k]
            case None =>
              (forall k :: 0 <= k < |denied| ==> !Denies(path, denied[k], allowed))
              && forall k :: 0 <= k < |patterns| ==> !matches(patterns[k], path)
  {
    RootReported(path, denied, allowed);
    PatternReported(path, patterns, matches);
  }
}
