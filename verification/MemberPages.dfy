/**
 Member sessions beside a lead that is scrolled page by page: the lead's cursor serves
 both, though the members' positions have nothing to do with it.
 */
module MemberPages {
  import opened Wrappers
  import opened Transcript
  import opened Positions
  import opened HistoryPages

  /** A member's rows gathered while the lead's pages are walked. */
  function MemberWalk(lead: Table, member: Table, before: Option<PageCursor>): seq<Row>
    requires WellFormed(lead)
    decreases |Older(lead, before)|
  {
    var p := PageOf(lead, before);
    if !p.hasMore then PageOf(member, before).rows
    else
      NextOlder(lead, before);
      MemberWalk(lead, member, p.next) + PageOf(member, before).rows
  }

  function Least(a: nat, b: nat): nat {
    if a <= b then a else b
  }

  /**
   Between one lead cursor and the next the member has exactly as many rows as the page
   fetches, and what is left for the last page fits it.
   */
  ghost predicate Tiles(lead: Table, member: Table, before: Option<PageCursor>)
    requires WellFormed(lead)
    decreases |Older(lead, before)|
  {
    var p := PageOf(lead, before);
    var n := |Older(member, before)|;
    if !p.hasMore then n <= PAGE_SIZE
    else
      NextOlder(lead, before);
      n - |Older(member, p.next)| == Least(n, PAGE_SIZE) && Tiles(lead, member, p.next)
  }

  // ---- An older cursor reads a prefix --------------------------------------------------

  ghost predicate Downward(p: Row -> bool) {
    forall a, b :: Before(a, b) && p(b) ==> p(a)
  }

  lemma {:induction false} FilterPrefix(v: seq<Row>, p: Row -> bool)
    requires Sorted(v) && Downward(p)
    ensures Filter(v, p) <= v
  {
    if v != [] {
      FilterPrefix(v[1..], p);
      if p(v[0]) {
        assert v == [v[0]] + v[1..];
      } else {
        forall r | r in v[1..] ensures !p(r) {
          var i :| 0 <= i < |v[1..]| && v[1..][i] == r;
          assert v[i + 1] == r && Before(v[0], v[i + 1]);
        }
        FilterNone(v[1..], p);
      }
    }
  }

  lemma NextIsOlder(lead: Table, before: Option<PageCursor>)
    requires WellFormed(lead) && PageOf(lead, before).hasMore
    ensures var next := PageOf(lead, before).next;
            next.Some? && Downward(OlderThan(next)) && forall r :: OlderThan(next)(r) ==> OlderThan(before)(r)
  {
    var older := Older(lead, before);
    FilterMembers(Shown(lead), OlderThan(before));
    assert older[|older| - PAGE_SIZE] in older;
  }

  /** What the member shows before the lead's next cursor opens what it shows before this one. */
  lemma NextIsPrefix(lead: Table, member: Table, before: Option<PageCursor>)
    requires WellFormed(lead) && WellFormed(member) && PageOf(lead, before).hasMore
    ensures Older(member, PageOf(lead, before).next) <= Older(member, before)
  {
    var next := PageOf(lead, before).next;
    NextIsOlder(lead, before);
    FilterTwice(Shown(member), OlderThan(before), OlderThan(next), OlderThan(next));
    OlderSorted(member, before);
    FilterPrefix(Older(member, before), OlderThan(next));
  }

  // ---- What a walk ends with -----------------------------------------------------------

  /** A walk ends with the member's newest row, and is empty only when the member shows nothing. */
  lemma {:induction false} WalkEnds(lead: Table, member: Table, before: Option<PageCursor>)
    requires WellFormed(lead) && WellFormed(member)
    ensures var w, o := MemberWalk(lead, member, before), Older(member, before);
            if o == [] then w == [] else w != [] && w[|w| - 1] == o[|o| - 1]
    decreases |Older(lead, before)|
  {
    var p := PageOf(lead, before);
    if p.hasMore && Older(member, before) == [] {
      NextOlder(lead, before);
      NextIsPrefix(lead, member, before);
      WalkEnds(lead, member, p.next);
    }
  }

  lemma NoneTwice(o: seq<Row>)
    requires Sorted(o)
    ensures forall i, j :: 0 <= i < |o| && 0 <= j < |o| && o[i] == o[j] ==> i == j
  {
    forall i, j | 0 <= i < j < |o| ensures o[i] != o[j] {
      assert Before(o[i], o[j]);
    }
  }

  /** The walk behind one page makes up the rest exactly when the page begins where the rest ends. */
  lemma PageTiles(o: seq<Row>, rest: seq<Row>, w: seq<Row>, k: nat)
    requires Sorted(o) && rest <= o && k == Least(|o|, PAGE_SIZE)
    requires if rest == [] then w == [] else w != [] && w[|w| - 1] == rest[|rest| - 1]
    ensures w + LastRows(o, PAGE_SIZE) == o <==> |o| - |rest| == k && w == rest
  {
    var n := |o| - k;
    assert LastRows(o, PAGE_SIZE) == o[n..];
    if w + o[n..] == o {
      assert w == o[..n] by {
        assert (w + o[n..])[..n] == w;
      }
      if rest != [] {
        NoneTwice(o);
        assert o[n - 1] == o[|rest| - 1];
      }
      assert rest == o[..|rest|];
    }
    if |o| - |rest| == k && w == rest {
      assert rest + o[n..] == o;
    }
  }

  lemma {:induction false} MemberOlderIff(lead: Table, member: Table, before: Option<PageCursor>)
    requires WellFormed(lead) && WellFormed(member)
    ensures MemberWalk(lead, member, before) == Older(member, before) <==> Tiles(lead, member, before)
    decreases |Older(lead, before)|
  {
    var p, o := PageOf(lead, before), Older(member, before);
    if p.hasMore {
      NextOlder(lead, before);
      NextIsPrefix(lead, member, before);
      WalkEnds(lead, member, p.next);
      OlderSorted(member, before);
      PageTiles(o, Older(member, p.next), MemberWalk(lead, member, p.next), Least(|o|, PAGE_SIZE));
      MemberOlderIff(lead, member, p.next);
    }
  }

  /**
   Scrolling a lead of any number of pages shows a member whole, each row once and in
   order, exactly when the member's rows tile the lead's pages.
   */
  lemma MemberWalkIff(lead: Table, member: Table)
    requires WellFormed(lead) && WellFormed(member)
    ensures MemberWalk(lead, member, None) == Shown(member) <==> Tiles(lead, member, None)
  {
    MemberOlderIff(lead, member, None);
    FilterAll(Shown(member), OlderThan(None));
  }
}
