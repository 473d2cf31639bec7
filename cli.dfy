/**
 * The `list` command of the patrol binary (cmd/patrol/patrol.go): which
 * history items it prints for its group, check, type and status filters and
 * when it stops.
 *
 * The data it walks is given as the entries of the group and check maps in
 * the order Go's map iteration visits them; opening the configuration and
 * the history file is FromConfig's business.
 */
module Cli {
  import History

  /** What sliceContains answers: an empty filter accepts every string. */
  predicate Accepts(list: seq<string>, s: string) {
    |list| == 0 || s in list
  }

  /** sliceContains (cmd/patrol/patrol.go:86-96). */
  method SliceContains(list: seq<string>, str: string) returns (b: bool)
    ensures b <==> Accepts(list, str)
  {
    if |list| == 0 {
      return true;
    }
    var i := 0;
    while i < |list|
      invariant 0 <= i <= |list| && str !in list[..i]
    {
      if list[i] == str {
        return true;
      }
      i := i + 1;
    }
    assert list[..i] == list;
    return false;
  }

  /** The four --group, --check, --type and --status lists. */
  datatype Filters = Filters(groups: seq<string>, checks: seq<string>, types: seq<string>, statuses: seq<string>)

  /** A check's name and its items, head to tail. */
  type CheckItems = (string, seq<History.Item>)

  /** A group's name and its checks. */
  type GroupItems = (string, seq<CheckItems>)

  predicate ItemSelected(f: Filters, item: History.Item) {
    Accepts(f.types, item.kind) && Accepts(f.statuses, item.status)
  }

  /** The items of one check the type and status filters accept, in order. */
  function ItemsMatching(f: Filters, items: seq<History.Item>): seq<History.Item> {
    if |items| == 0 then []
    else ItemsMatching(f, items[..|items| - 1]) + (if ItemSelected(f, items[|items| - 1]) then [items[|items| - 1]] else [])
  }

  /** The accepted items of the accepted checks of one group, in order. */
  function ChecksMatching(f: Filters, checks: seq<CheckItems>): seq<History.Item> {
    if |checks| == 0 then []
    else
      var (name, items) := checks[|checks| - 1];
      ChecksMatching(f, checks[..|checks| - 1]) + (if Accepts(f.checks, name) then ItemsMatching(f, items) else [])
  }

  /** Every item all four filters accept, in the order the loops visit them. */
  function Matching(f: Filters, data: seq<GroupItems>): seq<History.Item> {
    if |data| == 0 then []
    else
      var (name, checks) := data[|data| - 1];
      Matching(f, data[..|data| - 1]) + (if Accepts(f.groups, name) then ChecksMatching(f, checks) else [])
  }

  /** How many matches are printed at most: the loop checks the count only after printing. */
  function Limit(count: int): (n: nat)
    ensures n >= 1 && n >= count
  {
    if count < 1 then 1 else count
  }

  /** The first n elements of s, or all of s. */
  function Take(s: seq<History.Item>, n: nat): (t: seq<History.Item>)
    ensures t <= s && |t| == (if |s| < n then |s| else n)
  {
    if |s| < n then s else s[..n]
  }

  lemma {:induction false} ItemsPrefix(f: Filters, items: seq<History.Item>, i: nat)
    requires i <= |items|
    ensures ItemsMatching(f, items[..i]) <= ItemsMatching(f, items)
    decreases |items|
  {
    if i < |items| {
      var init := items[..|items| - 1];
      assert init[..i] == items[..i];
      ItemsPrefix(f, init, i);
    } else {
      assert items[..i] == items;
    }
  }

  lemma {:induction false} ChecksPrefix(f: Filters, checks: seq<CheckItems>, i: nat)
    requires i <= |checks|
    ensures ChecksMatching(f, checks[..i]) <= ChecksMatching(f, checks)
    decreases |checks|
  {
    if i < |checks| {
      var init := checks[..|checks| - 1];
      assert init[..i] == checks[..i];
      ChecksPrefix(f, init, i);
    } else {
      assert checks[..i] == checks;
    }
  }

  lemma {:induction false} GroupsPrefix(f: Filters, data: seq<GroupItems>, i: nat)
    requires i <= |data|
    ensures Matching(f, data[..i]) <= Matching(f, data)
    decreases |data|
  {
    if i < |data| {
      var init := data[..|data| - 1];
      assert init[..i] == data[..i];
      GroupsPrefix(f, init, i);
    } else {
      assert data[..i] == data;
    }
  }

  /** A prefix stays a prefix when the same sequence is put in front of both. */
  lemma PrefixAfter(a: seq<History.Item>, p: seq<History.Item>, s: seq<History.Item>)
    requires p <= s
    ensures a + p <= a + s
  {
    assert (a + s)[..|a + p|] == a + p;
  }

  /**
   * Where the innermost loop stops: what has been printed (the matches of
   * the earlier groups, of the earlier checks of this group, and of this
   * check's items up to here) is a prefix of all matches.
   */
  lemma StopIsPrefix(f: Filters, data: seq<GroupItems>, gi: nat, ci: nat, ii: nat)
    requires gi < |data| && ci < |data[gi].1| && ii < |data[gi].1[ci].1|
    requires Accepts(f.groups, data[gi].0) && Accepts(f.checks, data[gi].1[ci].0)
    ensures Matching(f, data[..gi]) + ChecksMatching(f, data[gi].1[..ci]) + ItemsMatching(f, data[gi].1[ci].1[..ii + 1])
            <= Matching(f, data)
  {
    var checks := data[gi].1;
    var items := checks[ci].1;
    var a := Matching(f, data[..gi]);
    var b := ChecksMatching(f, checks[..ci]);
    var c := ItemsMatching(f, items[..ii + 1]);
    var bc := b + ItemsMatching(f, items);
    var ac := a + ChecksMatching(f, checks);
    assert b + c <= ChecksMatching(f, checks) by {
      ItemsPrefix(f, items, ii + 1);
      PrefixAfter(b, c, ItemsMatching(f, items));
      ChecksStep(f, checks, ci);
      ChecksPrefix(f, checks, ci + 1);
    }
    assert ac <= Matching(f, data) by {
      GroupsStep(f, data, gi);
      GroupsPrefix(f, data, gi + 1);
    }
    PrefixAfter(a, b + c, ChecksMatching(f, checks));
    assert a + (b + c) == a + b + c;
  }

  lemma ChecksStep(f: Filters, checks: seq<CheckItems>, ci: nat)
    requires ci < |checks|
    ensures ChecksMatching(f, checks[..ci + 1])
            == ChecksMatching(f, checks[..ci]) + (if Accepts(f.checks, checks[ci].0) then ItemsMatching(f, checks[ci].1) else [])
  {
    assert checks[..ci + 1][..ci] == checks[..ci];
  }

  lemma ItemsStep(f: Filters, items: seq<History.Item>, ii: nat)
    requires ii < |items|
    ensures ItemsMatching(f, items[..ii + 1])
            == ItemsMatching(f, items[..ii]) + (if ItemSelected(f, items[ii]) then [items[ii]] else [])
  {
    assert items[..ii + 1][..ii] == items[..ii];
  }

  lemma GroupsStep(f: Filters, data: seq<GroupItems>, gi: nat)
    requires gi < |data|
    ensures Matching(f, data[..gi + 1])
            == Matching(f, data[..gi]) + (if Accepts(f.groups, data[gi].0) then ChecksMatching(f, data[gi].1) else [])
  {
    assert data[..gi + 1][..gi] == data[..gi];
  }

  /**
   * The innermost loop of the `list` action (cmd/patrol/patrol.go:142-155):
   * the selected items of one check are printed after those already
   * printed; once the count of matches reaches --count the whole walk stops,
   * and stopAt is the item that made it stop.
   */
  method PrintItems(f: Filters, items: seq<History.Item>, printed0: seq<History.Item>, numMatches0: int, maxMatches: int)
    returns (printed: seq<History.Item>, numMatches: int, stopped: bool, ghost stopAt: nat)
    requires numMatches0 == |printed0| < Limit(maxMatches)
    ensures numMatches == |printed|
    ensures !stopped ==> printed == printed0 + ItemsMatching(f, items) && |printed| < Limit(maxMatches)
    ensures stopped ==> && stopAt < |items| && |printed| == Limit(maxMatches)
                        && printed == printed0 + ItemsMatching(f, items[..stopAt + 1])
  {
    printed, numMatches, stopped, stopAt := printed0, numMatches0, false, 0;
    var ii := 0;
    while ii < |items|
      invariant 0 <= ii <= |items|
      invariant printed == printed0 + ItemsMatching(f, items[..ii])
      invariant numMatches == |printed| < Limit(maxMatches)
    {
      var item: History.Item := items[ii];
      ItemsStep(f, items, ii);
      var typeOk := SliceContains(f.types, item.kind);
      var statusOk := SliceContains(f.statuses, item.status);
      if typeOk && statusOk {
        printed := printed + [item];         // fmt.Printf("-\n%s\n", item)
        numMatches := numMatches + 1;
        if numMatches >= maxMatches {
          return printed, numMatches, true, ii;
        }
      }
      ii := ii + 1;
    }
    assert items[..ii] == items;
  }

  /**
   * The `list` action's loops (cmd/patrol/patrol.go:138-158): the matches
   * in visiting order, stopping as soon as the number printed reaches
   * --count, which is checked only after an item is printed.
   */
  method List(data: seq<GroupItems>, f: Filters, maxMatches: int) returns (printed: seq<History.Item>)
    ensures printed == Take(Matching(f, data), Limit(maxMatches))
    ensures printed <= Matching(f, data) && 1 <= Limit(maxMatches) && |printed| <= Limit(maxMatches)
    ensures |printed| < Limit(maxMatches) ==> printed == Matching(f, data)
  {
    printed := [];
    var numMatches := 0;
    var gi := 0;
    while gi < |data|
      invariant 0 <= gi <= |data|
      invariant printed == Matching(f, data[..gi]) && numMatches == |printed| < Limit(maxMatches)
    {
      var groupName := data[gi].0;
      var group := data[gi].1;
      GroupsStep(f, data, gi);
      var groupOk := SliceContains(f.groups, groupName);
      if groupOk {
        var ci := 0;
        while ci < |group|
          invariant 0 <= ci <= |group|
          invariant printed == Matching(f, data[..gi]) + ChecksMatching(f, group[..ci])
          invariant numMatches == |printed| < Limit(maxMatches)
        {
          var checkName := group[ci].0;
          var items := group[ci].1;
          ChecksStep(f, group, ci);
          var checkOk := SliceContains(f.checks, checkName);
          if checkOk {
            var stopped;
            ghost var stopAt;
            printed, numMatches, stopped, stopAt := PrintItems(f, items, printed, numMatches, maxMatches);
            if stopped {                               // break outer
              StopIsPrefix(f, data, gi, ci, stopAt);
              return;
            }
          }
          ci := ci + 1;
        }
        assert group[..ci] == group;
      }
      gi := gi + 1;
    }
    assert data[..gi] == data;
  }

  /** An item is a match of one check exactly when it is one of its items that the type and status filters accept. */
  lemma {:induction false} ItemsMatchingMembers(f: Filters, items: seq<History.Item>)
    ensures forall x :: x in ItemsMatching(f, items) <==> x in items && ItemSelected(f, x)
  {
    if |items| > 0 {
      ItemsMatchingMembers(f, items[..|items| - 1]);
      assert items == items[..|items| - 1] + [items[|items| - 1]];
    }
  }

  /** A match of a group comes from a check the check filter accepts. */
  lemma {:induction false} ChecksMatchingMembers(f: Filters, checks: seq<CheckItems>)
    ensures forall x :: x in ChecksMatching(f, checks) <==>
              exists ci | 0 <= ci < |checks| :: Accepts(f.checks, checks[ci].0) && x in checks[ci].1 && ItemSelected(f, x)
  {
    if |checks| > 0 {
      var init := checks[..|checks| - 1];
      var last := checks[|checks| - 1];
      ChecksMatchingMembers(f, init);
      ItemsMatchingMembers(f, last.1);
      forall x ensures x in ChecksMatching(f, checks) <==>
                 exists ci | 0 <= ci < |checks| :: Accepts(f.checks, checks[ci].0) && x in checks[ci].1 && ItemSelected(f, x)
      {
        if exists ci | 0 <= ci < |checks| :: Accepts(f.checks, checks[ci].0) && x in checks[ci].1 && ItemSelected(f, x) {
          var ci :| 0 <= ci < |checks| && Accepts(f.checks, checks[ci].0) && x in checks[ci].1 && ItemSelected(f, x);
          if ci < |checks| - 1 {
            assert init[ci] == checks[ci];
          }
        }
        if x in ChecksMatching(f, init) {
          var ci :| 0 <= ci < |init| && Accepts(f.checks, init[ci].0) && x in init[ci].1 && ItemSelected(f, x);
          assert checks[ci] == init[ci];
        }
      }
    }
  }

  /**
   * An item is printed only if the group, check, type and status filters
   * all accept it, and every such item is a match.
   */
  lemma {:induction false} MatchingMembers(f: Filters, data: seq<GroupItems>)
    ensures forall x :: x in Matching(f, data) <==>
              exists gi, ci | 0 <= gi < |data| && 0 <= ci < |data[gi].1| ::
                Accepts(f.groups, data[gi].0) && Accepts(f.checks, data[gi].1[ci].0) && x in data[gi].1[ci].1 && ItemSelected(f, x)
  {
    if |data| > 0 {
      var init := data[..|data| - 1];
      var last := data[|data| - 1];
      MatchingMembers(f, init);
      ChecksMatchingMembers(f, last.1);
      forall x ensures x in Matching(f, data) <==>
                 exists gi, ci | 0 <= gi < |data| && 0 <= ci < |data[gi].1| ::
                   Accepts(f.groups, data[gi].0) && Accepts(f.checks, data[gi].1[ci].0) && x in data[gi].1[ci].1 && ItemSelected(f, x)
      {
        if exists gi, ci | 0 <= gi < |data| && 0 <= ci < |data[gi].1| ::
             Accepts(f.groups, data[gi].0) && Accepts(f.checks, data[gi].1[ci].0) && x in data[gi].1[ci].1 && ItemSelected(f, x) {
          var gi, ci :| 0 <= gi < |data| && 0 <= ci < |data[gi].1| &&
                        Accepts(f.groups, data[gi].0) && Accepts(f.checks, data[gi].1[ci].0) && x in data[gi].1[ci].1 && ItemSelected(f, x);
          if gi < |data| - 1 {
            assert init[gi] == data[gi];
          } else {
            assert x in ChecksMatching(f, last.1);
          }
        }
        if x in Matching(f, init) {
          var gi, ci :| 0 <= gi < |init| && 0 <= ci < |init[gi].1| &&
                        Accepts(f.groups, init[gi].0) && Accepts(f.checks, init[gi].1[ci].0) && x in init[gi].1[ci].1 && ItemSelected(f, x);
          assert data[gi] == init[gi];
        }
        if Accepts(f.groups, last.0) && x in ChecksMatching(f, last.1) {
          var ci :| 0 <= ci < |last.1| && Accepts(f.checks, last.1[ci].0) && x in last.1[ci].1 && ItemSelected(f, x);
          assert data[|data| - 1] == last;
        }
      }
    }
  }
}
