/**
 Naming an upload: the first free `name (n).ext`. The search ends in every directory,
 because the candidates of different numbers are different names.
 */
module Uploads {
  import opened Text

  const MAX_FILENAME_LEN: int := 200

  function Digit(n: nat): char
    requires n < 10
  {
    "0123456789"[n]
  }

  predicate IsDigit(c: char) {
    '0' <= c <= '9'
  }

  function Decimal(n: nat): (d: string)
    ensures d != [] && (|d| == 1 <==> n < 10)
    ensures forall i :: 0 <= i < |d| ==> IsDigit(d[i])
  {
    if n < 10 then [Digit(n)] else Decimal(n / 10) + [Digit(n % 10)]
  }

  lemma {:induction false} DecimalInjective(m: nat, n: nat)
    requires Decimal(m) == Decimal(n)
    ensures m == n
  {
    var a, b := Decimal(m), Decimal(n);
    assert a[|a| - 1] == Digit(m % 10) && b[|b| - 1] == Digit(n % 10);
    assert m % 10 == n % 10;
    if m >= 10 {
      assert a[..|a| - 1] == Decimal(m / 10) && b[..|b| - 1] == Decimal(n / 10);
      DecimalInjective(m / 10, n / 10);
    }
  }

  function TrimEnd(s: string): (t: string)
    ensures |t| <= |s|
  {
    if s != [] && IsSpace(s[|s| - 1]) then TrimEnd(s[..|s| - 1]) else s
  }

  function Numbered(n: nat): string {
    " (" + Decimal(n) + ")"
  }

  function Room(ext: string, n: nat): (room: nat)
    ensures room >= 1
  {
    var left := MAX_FILENAME_LEN - |ext| - |Numbered(n)|;
    if left >= 1 then left else 1
  }

  function Trimmed(stem: string, ext: string, n: nat): string {
    var t := TrimEnd(if |stem| <= Room(ext, n) then stem else stem[..Room(ext, n)]);
    if t == "" then "upload" else t
  }

  function Candidate(stem: string, ext: string, n: nat): string {
    Trimmed(stem, ext, n) + Numbered(n) + ext
  }

  // ---- Different numbers, different names ----------------------------------------------

  /** The digits a name ends with. */
  function DigitTail(s: string): string {
    if s != [] && IsDigit(s[|s| - 1]) then DigitTail(s[..|s| - 1]) + [s[|s| - 1]] else []
  }

  lemma {:induction false} DigitTailIs(a: string, d: string)
    requires forall i :: 0 <= i < |d| ==> IsDigit(d[i])
    ensures DigitTail(a + "(" + d) == d
  {
    var s := a + "(" + d;
    if d == [] {
      assert s[|s| - 1] == '(';
    } else {
      var init := d[..|d| - 1];
      assert s[..|s| - 1] == a + "(" + init && d == init + [d[|d| - 1]];
      DigitTailIs(a, init);
    }
  }

  lemma SameEnds(a: string, b: string, tail: string)
    requires a + tail == b + tail
    ensures a == b
  {
    assert |a| == |b|;
    assert (a + tail)[..|a|] == a && (b + tail)[..|b|] == b;
  }

  lemma CandidateParts(stem: string, ext: string, n: nat)
    ensures Candidate(stem, ext, n) == (Trimmed(stem, ext, n) + " " + "(" + Decimal(n)) + (")" + ext)
  {
  }

  lemma CandidateInjective(stem: string, ext: string, m: nat, n: nat)
    requires Candidate(stem, ext, m) == Candidate(stem, ext, n)
    ensures m == n
  {
    CandidateParts(stem, ext, m);
    CandidateParts(stem, ext, n);
    SameEnds(Trimmed(stem, ext, m) + " " + "(" + Decimal(m), Trimmed(stem, ext, n) + " " + "(" + Decimal(n), ")" + ext);
    DigitTailIs(Trimmed(stem, ext, m) + " ", Decimal(m));
    DigitTailIs(Trimmed(stem, ext, n) + " ", Decimal(n));
    DecimalInjective(m, n);
  }

  // ---- The search ----------------------------------------------------------------------

  function Candidates(stem: string, ext: string, n: nat): set<string> {
    set k | 1 <= k <= n :: Candidate(stem, ext, k)
  }

  /** Taken names are in the directory, so there are no more of them than it holds. */
  lemma {:induction false} Pigeonhole(directory: set<string>, stem: string, ext: string, n: nat)
    requires forall k :: 1 <= k <= n ==> Candidate(stem, ext, k) in directory
    ensures n <= |directory|
  {
    CandidatesCount(stem, ext, n);
    SubsetSize(Candidates(stem, ext, n), directory);
  }

  lemma {:induction false} CandidatesCount(stem: string, ext: string, n: nat)
    ensures |Candidates(stem, ext, n)| == n
  {
    if n == 0 {
      assert Candidates(stem, ext, 0) == {};
    } else {
      CandidatesCount(stem, ext, n - 1);
      NewCandidate(stem, ext, n);
      MoreCandidates(stem, ext, n);
    }
  }

  lemma MoreCandidates(stem: string, ext: string, n: nat)
    requires n > 0
    ensures Candidates(stem, ext, n) == Candidates(stem, ext, n - 1) + {Candidate(stem, ext, n)}
  {
  }

  lemma NewCandidate(stem: string, ext: string, n: nat)
    requires n > 0
    ensures Candidate(stem, ext, n) !in Candidates(stem, ext, n - 1)
  {
    forall k | 1 <= k <= n - 1 ensures Candidate(stem, ext, k) != Candidate(stem, ext, n) {
      if Candidate(stem, ext, k) == Candidate(stem, ext, n) {
        CandidateInjective(stem, ext, k, n);
      }
    }
  }

  lemma {:induction false} SubsetSize(a: set<string>, b: set<string>)
    requires a <= b
    ensures |a| <= |b|
    decreases a
  {
    if x :| x in a {
      SubsetSize(a - {x}, b - {x});
    }
  }

  /** The numbered variant, trimmed to fit. */
  method Variant(stem: string, ext: string, index: nat) returns (name: string)
    ensures name == Candidate(stem, ext, index)
  {
    var suffix := " (" + Decimal(index) + ")";
    var left := MAX_FILENAME_LEN - |ext| - |suffix|;
    var allowed := if left >= 1 then left else 1;
    var trimmed := TrimEnd(if |stem| <= allowed then stem else stem[..allowed]);
    if trimmed == "" {
      trimmed := "upload";
    }
    name := trimmed + suffix + ext;
  }

  /**
   The name itself, or the first free numbered variant: the search takes at most one step
   more than the directory has names.
   */
  method Dedupe(directory: set<string>, filename: string, stem: string, ext: string) returns (name: string, tries: nat)
    ensures name !in directory && tries <= |directory| + 1
    ensures filename !in directory ==> name == filename && tries == 0
    ensures filename in directory ==> tries >= 1 && name == Candidate(stem, ext, tries)
    ensures forall k :: 1 <= k < tries ==> Candidate(stem, ext, k) in directory
  {
    name := filename;
    var index := 1;
    while name in directory
      invariant index >= 1
      invariant name == if index == 1 then filename else Candidate(stem, ext, index - 1)
      invariant index > 1 ==> filename in directory
      invariant forall k :: 1 <= k < index - 1 ==> Candidate(stem, ext, k) in directory
      invariant index <= |directory| + 2
      decreases |directory| + 2 - index
    {
      Pigeonhole(directory, stem, ext, index - 1);
      name := Variant(stem, ext, index);
      index := index + 1;
    }
    tries := index - 1;
  }

  /** A numbered name fits 200 characters whenever the extension and number leave six. */
  lemma CandidateFits(stem: string, ext: string, n: nat)
    requires |ext| + |Numbered(n)| + 6 <= 200
    ensures |Candidate(stem, ext, n)| <= 200
  {
  }

  /** With less room it fits exactly when some of the stem survives in the room there is. */
  lemma TightCandidateFits(stem: string, ext: string, n: nat)
    requires |ext| + |Numbered(n)| + 6 > 200
    ensures |Candidate(stem, ext, n)| <= 200
            <==> |ext| + |Numbered(n)| < 200
                 && TrimEnd(if |stem| <= Room(ext, n) then stem else stem[..Room(ext, n)]) != ""
  {
  }

  // ---- What a numbered name says -------------------------------------------------------

  /** The number a string of digits stands for. */
  function Value(d: string): nat
    requires forall i :: 0 <= i < |d| ==> IsDigit(d[i])
  {
    if d == [] then 0
    else
      assert IsDigit(d[|d| - 1]);
      10 * Value(d[..|d| - 1]) + (d[|d| - 1] as int - '0' as int)
  }

  lemma {:induction false} DecimalValue(n: nat)
    ensures Value(Decimal(n)) == n && (n > 0 ==> Decimal(n)[0] != '0')
  {
    if n >= 10 {
      DecimalValue(n / 10);
      assert Decimal(n)[..|Decimal(n)| - 1] == Decimal(n / 10);
    }
  }

  /** Only the spaces at the end go. */
  lemma {:induction false} TrimEndIs(s: string)
    ensures var t := TrimEnd(s);
            && t <= s && (t != [] ==> !IsSpace(t[|t| - 1]))
            && forall i :: |t| <= i < |s| ==> IsSpace(s[i])
  {
    if s != [] && IsSpace(s[|s| - 1]) {
      TrimEndIs(s[..|s| - 1]);
    }
  }

  /** `head` is `cut` without the spaces at its end, or a stand-in when nothing else is left. */
  ghost predicate Heads(head: string, cut: string) {
    if forall i :: 0 <= i < |cut| ==> IsSpace(cut[i]) then head == "upload"
    else head != [] && head <= cut && !IsSpace(head[|head| - 1]) && forall i :: |head| <= i < |cut| ==> IsSpace(cut[i])
  }

  lemma TrimmedHeads(cut: string)
    ensures Heads(if TrimEnd(cut) == "" then "upload" else TrimEnd(cut), cut)
  {
    TrimEndIs(cut);
    var t := TrimEnd(cut);
    if t != "" {
      assert cut[|t| - 1] == t[|t| - 1];
    }
  }

  /** The part of the stem that 200 characters leave room for, and at least one character. */
  function Kept(stem: string, room: int): string {
    if |stem| <= room || |stem| <= 1 then stem else stem[..if room < 1 then 1 else room]
  }

  /**
   The variant of number `n`: what fits of the stem, without spaces at its end, then the
   number in parentheses and the extension.
   */
  lemma CandidateIs(stem: string, ext: string, n: nat) returns (head: string, digits: string)
    ensures Candidate(stem, ext, n) == head + " (" + digits + ")" + ext
    ensures (forall i :: 0 <= i < |digits| ==> '0' <= digits[i] <= '9') && Value(digits) == n
    ensures n > 0 ==> digits[0] != '0'
    ensures Heads(head, Kept(stem, 200 - |ext| - (|digits| + 3)))
  {
    head, digits := Trimmed(stem, ext, n), Decimal(n);
    DecimalValue(n);
    var cut := Kept(stem, 200 - |ext| - (|digits| + 3));
    assert cut == if |stem| <= Room(ext, n) then stem else stem[..Room(ext, n)];
    TrimmedHeads(cut);
    CandidateReads(stem, ext, n);
  }

  lemma CandidateReads(stem: string, ext: string, n: nat)
    ensures Candidate(stem, ext, n) == Trimmed(stem, ext, n) + " (" + Decimal(n) + ")" + ext
  {
    assert Numbered(n) == " (" + Decimal(n) + ")";
    assert Trimmed(stem, ext, n) + Numbered(n) == Trimmed(stem, ext, n) + " (" + Decimal(n) + ")";
  }
}
