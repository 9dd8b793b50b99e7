/** The milestone overview of the dashboard
    (client/src/components/MilestoneSummary.tsx): the milestones of every
    category counted by status, the deadlines that fall in the next six
    months, and whether attention is needed.

    Date parsing is a parameter `dateOf` (None for a date that does not
    parse, which compares false either way), and the current instant and
    the instant six months later are the parameters `now` and `horizon`. */
module MilestoneSummary {
  import opened Common
  import opened Schema

  /** What the overview shows. */
  datatype Summary = Summary(total: nat, onTrack: nat, atRisk: nat, behind: nat, upcoming: nat, attention: bool)

  /** `Object.values(categoryDetails).flatMap(c => c.milestones)`. */
  function AllMilestones(details: seq<(string, CategoryDetails)>): (r: seq<Milestone>)
    decreases |details|
  {
    if details == [] then []
    else AllMilestones(details[..|details| - 1]) + details[|details| - 1].1.milestones
  }

  /** The flattening keeps exactly the milestones of the categories. */
  lemma {:induction false} AllMilestonesMembers(details: seq<(string, CategoryDetails)>)
    ensures forall m :: m in AllMilestones(details) <==>
      exists i :: 0 <= i < |details| && m in details[i].1.milestones
    decreases |details|
  {
    if details != [] {
      var init := details[..|details| - 1];
      AllMilestonesMembers(init);
      forall i | 0 <= i < |init| ensures init[i] == details[i] {
      }
    }
  }

  /** The total is the sum of the categories' milestone counts. */
  function TotalLength(details: seq<(string, CategoryDetails)>): nat
    decreases |details|
  {
    if details == [] then 0
    else TotalLength(details[..|details| - 1]) + |details[|details| - 1].1.milestones|
  }

  lemma {:induction false} AllMilestonesLength(details: seq<(string, CategoryDetails)>)
    ensures |AllMilestones(details)| == TotalLength(details)
    decreases |details|
  {
    if details != [] {
      AllMilestonesLength(details[..|details| - 1]);
    }
  }

  /** `filter(p).length`. */
  function Count(ms: seq<Milestone>, p: Milestone -> bool): (r: nat)
    ensures r <= |ms|
    ensures r > 0 <==> exists m :: m in ms && p(m)
    decreases |ms|
  {
    if ms == [] then 0
    else
      var rest := Count(ms[1..], p);
      assert forall m :: m in ms <==> m == ms[0] || m in ms[1..];
      (if p(ms[0]) then 1 else 0) + rest
  }

  /** Counting splits over concatenation. */
  lemma {:induction false} CountAppend(a: seq<Milestone>, b: seq<Milestone>, p: Milestone -> bool)
    ensures Count(a + b, p) == Count(a, p) + Count(b, p)
    decreases |a|
  {
    if a != [] {
      CountAppend(a[1..], b, p);
      assert (a + b)[1..] == a[1..] + b;
    } else {
      assert a + b == b;
    }
  }

  predicate IsOnTrack(m: Milestone) { m.status == "on-track" || m.status == "completed" }
  predicate IsAtRisk(m: Milestone) { m.status == "at-risk" }
  predicate IsBehind(m: Milestone) { m.status == "behind" }
  predicate KnownStatus(m: Milestone) { IsOnTrack(m) || IsAtRisk(m) || IsBehind(m) }

  /** Due within the window: neither bound fails, so a date that does not
      parse is never counted. */
  predicate DueSoon(m: Milestone, dateOf: string -> Option<int>, now: int, horizon: int) {
    dateOf(m.targetDate).Some? && dateOf(m.targetDate).value <= horizon && dateOf(m.targetDate).value >= now
  }

  /** The component: nothing without data, else the counts. */
  function Summarize(data: Option<ADIndexData>, dateOf: string -> Option<int>, now: int, horizon: int)
    : Option<Summary>
  {
    if data.None? then None
    else
      var all := AllMilestones(data.value.categoryDetails);
      var atRisk := Count(all, m => IsAtRisk(m));
      var behind := Count(all, m => IsBehind(m));
      Some(Summary(|all|, Count(all, m => IsOnTrack(m)), atRisk, behind,
                   Count(all, m => DueSoon(m, dateOf, now, horizon)), atRisk > 0 || behind > 0))
  }

  /** The three status counts and the milestones of any other status add
      up to the total. */
  lemma {:induction false} StatusPartition(ms: seq<Milestone>)
    ensures Count(ms, m => IsOnTrack(m)) + Count(ms, m => IsAtRisk(m)) + Count(ms, m => IsBehind(m))
      + Count(ms, m => !KnownStatus(m)) == |ms|
    decreases |ms|
  {
    if ms != [] {
      StatusPartition(ms[1..]);
    }
  }

  /** What the overview states: nothing without data; otherwise the total
      counts every milestone of every category; with the four statuses
      of the enumeration the three counts add up to it; the upcoming count
      is at most the total and zero exactly when no milestone falls in the
      window; and attention is needed exactly when some milestone is at
      risk or behind. */
  lemma SummarySpec(data: Option<ADIndexData>, dateOf: string -> Option<int>, now: int, horizon: int)
    ensures data.None? <==> Summarize(data, dateOf, now, horizon).None?
    ensures data.Some? ==>
      var s := Summarize(data, dateOf, now, horizon).value;
      var all := AllMilestones(data.value.categoryDetails);
      && s.total == TotalLength(data.value.categoryDetails)
      && ((forall m :: m in all ==> KnownStatus(m)) ==> s.onTrack + s.atRisk + s.behind == s.total)
      && s.upcoming <= s.total
      && (s.upcoming > 0 <==> exists m :: m in all && DueSoon(m, dateOf, now, horizon))
      && (s.attention <==> exists m :: m in all && (IsAtRisk(m) || IsBehind(m)))
  {
    if data.Some? {
      var all := AllMilestones(data.value.categoryDetails);
      AllMilestonesLength(data.value.categoryDetails);
      StatusPartition(all);
      if forall m :: m in all ==> KnownStatus(m) {
        assert Count(all, m => !KnownStatus(m)) == 0;
      }
      assert Count(all, m => IsAtRisk(m)) > 0 <==> exists m :: m in all && IsAtRisk(m);
      assert Count(all, m => IsBehind(m)) > 0 <==> exists m :: m in all && IsBehind(m);
    }
  }

  /** A milestone is counted by category: adding a category adds its counts. */
  lemma SummaryAddsCategory(details: seq<(string, CategoryDetails)>, entry: (string, CategoryDetails),
                            p: Milestone -> bool)
    ensures Count(AllMilestones(details + [entry]), p) == Count(AllMilestones(details), p) + Count(entry.1.milestones, p)
  {
    assert (details + [entry])[..|details|] == details;
    CountAppend(AllMilestones(details), entry.1.milestones, p);
  }
}
