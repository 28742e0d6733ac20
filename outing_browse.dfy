/** The browse list of past outings, as the outing browser orders it: by
    outing date, newest first. The comparison the browser hands to the
    array sort is `dateB - dateA`, and the array sort keeps equal entries in
    the order the server sent them, so outings on the same day stay in the
    server's order. Dates are day numbers. */
module OutingBrowse {

  /** One entry of the browse list: the outing's id and its date. */
  datatype OutingEntry = OutingEntry(outingId: int, day: int)

  /** Every entry is at least as recent as every entry after it. */
  predicate NewestFirst(s: seq<OutingEntry>) {
    forall i, j :: 0 <= i < j < |s| ==> s[i].day >= s[j].day
  }

  /** `x` put in front of the first entry that is not more recent than it. */
  function Insert(x: OutingEntry, s: seq<OutingEntry>): (r: seq<OutingEntry>)
    requires NewestFirst(s)
    ensures NewestFirst(r) && multiset(r) == multiset(s) + multiset{x} && |r| == |s| + 1
    ensures r[0] == x || (s != [] && r[0] == s[0])
  {
    if s == [] || s[0].day <= x.day then [x] + s
    else
      var rest := Insert(x, s[1..]);
      assert s[0].day >= rest[0].day;
      assert s == [s[0]] + s[1..];
      [s[0]] + rest
  }

  /** The list ordered newest first: a sorted permutation of what the
      server sent. */
  function SortNewestFirst(s: seq<OutingEntry>): (r: seq<OutingEntry>)
    ensures NewestFirst(r) && multiset(r) == multiset(s) && |r| == |s|
  {
    if s == [] then []
    else
      assert s == [s[0]] + s[1..];
      Insert(s[0], SortNewestFirst(s[1..]))
  }

  /** The entries dated `day`, in order. */
  function OnDay(s: seq<OutingEntry>, day: int): (r: seq<OutingEntry>)
    ensures |r| <= |s|
  {
    if s == [] then []
    else (if s[0].day == day then [s[0]] else []) + OnDay(s[1..], day)
  }

  /** Inserting never reorders the entries of one day: `x` lands before
      every entry of its own day, and other days are untouched. */
  lemma {:induction false} InsertOnDay(x: OutingEntry, s: seq<OutingEntry>, day: int)
    requires NewestFirst(s)
    ensures OnDay(Insert(x, s), day) == (if x.day == day then [x] else []) + OnDay(s, day)
  {
    if s == [] || s[0].day <= x.day {
      var r := [x] + s;
      assert r[0] == x && r[1..] == s;
      if x.day == day && s != [] && s[0].day < x.day {
        BeforeDay(s, day);
      }
    } else {
      var rest := Insert(x, s[1..]);
      InsertOnDay(x, s[1..], day);
      var r := [s[0]] + rest;
      assert r[0] == s[0] && r[1..] == rest;
      if x.day == day {
        assert s[0].day > day;
      }
    }
  }

  /** No entry of a newest-first list is dated `day` when its first entry
      is older than `day`. */
  lemma {:induction false} BeforeDay(s: seq<OutingEntry>, day: int)
    requires NewestFirst(s) && s != [] && s[0].day < day
    ensures OnDay(s, day) == []
  {
    if |s| > 1 {
      assert s[1] == s[1..][0];
      BeforeDay(s[1..], day);
    }
  }

  /** The sort is stable: the outings of each day keep the server's order. */
  lemma {:induction false} SortKeepsDayOrder(s: seq<OutingEntry>, day: int)
    ensures OnDay(SortNewestFirst(s), day) == OnDay(s, day)
  {
    if s != [] {
      SortKeepsDayOrder(s[1..], day);
      InsertOnDay(s[0], SortNewestFirst(s[1..]), day);
    }
  }

  /** A list already newest first is left as it is. */
  lemma {:induction false} SortedUnchanged(s: seq<OutingEntry>)
    requires NewestFirst(s)
    ensures SortNewestFirst(s) == s
  {
    if s != [] {
      var t := s[1..];
      assert NewestFirst(t) by {
        forall i, j | 0 <= i < j < |t| ensures t[i].day >= t[j].day {
          assert t[i] == s[i + 1] && t[j] == s[j + 1];
        }
      }
      SortedUnchanged(t);
      assert SortNewestFirst(s) == Insert(s[0], t);
      assert t == [] || t[0].day <= s[0].day;
      assert s == [s[0]] + t;
    }
  }
}
