/** The admin dashboard (Dashboard): a fixed table of complaint rows filtered by the
    selected status tab, with a colour badge per status and per priority. */
module Board {

  datatype Complaint = Complaint(id: string, kind: string, location: string, date: string, status: string, priority: string)

  /** The rows the table is built from. */
  const MockComplaints: seq<Complaint> := [
    Complaint("CC-102", "Pothole", "Sector 14, Pune", "Jan 28, 2026", "Pending", "High"),
    Complaint("CC-105", "Street Light", "Baner Road", "Jan 29, 2026", "In Progress", "Medium"),
    Complaint("CC-108", "Waste Pile", "Viman Nagar", "Jan 30, 2026", "Completed", "Low"),
    Complaint("CC-112", "Water Leak", "Kothrud", "Jan 30, 2026", "In Progress", "High"),
    Complaint("CC-115", "Broken Pipe", "Aundh", "Jan 30, 2026", "Pending", "Medium")
  ]

  /** The tab labels, in the order the tab strip shows them. */
  const Tabs: seq<string> := ["All", "Pending", "In Progress", "Completed"]

  /** The statuses a row can have: every tab but "All". */
  predicate IsStatus(s: string) {
    s == "Pending" || s == "In Progress" || s == "Completed"
  }

  /** The row filter: tab "All" passes every row, any other tab the rows with that status. */
  predicate Shown(c: Complaint, tab: string) {
    tab == "All" || c.status == tab
  }

  /** rows.filter(c => Shown(c, tab)). */
  function FilterByTab(rows: seq<Complaint>, tab: string): (r: seq<Complaint>)
    ensures |r| <= |rows|
    ensures forall i :: 0 <= i < |r| ==> Shown(r[i], tab) && r[i] in rows
  {
    if rows == [] then []
    else (if Shown(rows[0], tab) then [rows[0]] else []) + FilterByTab(rows[1..], tab)
  }

  /** a is a subsequence of b: b with some elements left out, order kept. */
  predicate IsSubsequence(a: seq<Complaint>, b: seq<Complaint>)
    decreases |b|
  {
    a == [] || (b != [] && ((a[0] == b[0] && IsSubsequence(a[1..], b[1..])) || IsSubsequence(a, b[1..])))
  }

  /** Tab "All" yields every row, in the original order. */
  lemma {:induction false} FilterAllKeepsEveryRow(rows: seq<Complaint>)
    ensures FilterByTab(rows, "All") == rows
  {
    if rows != [] {
      FilterAllKeepsEveryRow(rows[1..]);
      assert rows == [rows[0]] + rows[1..];
    }
  }

  /** The filtered rows keep their original relative order. */
  lemma {:induction false} FilterIsSubsequence(rows: seq<Complaint>, tab: string)
    ensures IsSubsequence(FilterByTab(rows, tab), rows)
  {
    if rows != [] {
      FilterIsSubsequence(rows[1..], tab);
      var rest := FilterByTab(rows[1..], tab);
      if Shown(rows[0], tab) {
        var r := FilterByTab(rows, tab);
        assert r == [rows[0]] + rest;
        assert r[0] == rows[0] && r[1..] == rest;
      } else {
        assert FilterByTab(rows, tab) == rest;
      }
    }
  }

  /** No row is lost or duplicated: a row occurs in the result exactly as often as in
      the table when the tab shows it, and not at all otherwise. */
  lemma {:induction false} FilterKeepsEveryMatch(rows: seq<Complaint>, tab: string, c: Complaint)
    ensures multiset(FilterByTab(rows, tab))[c] == if Shown(c, tab) then multiset(rows)[c] else 0
  {
    if rows != [] {
      var x, tail := rows[0], rows[1..];
      var rest := FilterByTab(tail, tab);
      FilterKeepsEveryMatch(tail, tab, c);
      assert [x] + tail == rows;
      CountAfterHead(x, tail, c);
      if Shown(x, tab) {
        assert FilterByTab(rows, tab) == [x] + rest;
        CountAfterHead(x, rest, c);
      } else {
        assert FilterByTab(rows, tab) == rest;
      }
    }
  }

  /** The count of c in a sequence with one row in front of rest. */
  lemma CountAfterHead(x: Complaint, rest: seq<Complaint>, c: Complaint)
    ensures multiset([x] + rest)[c] == (if x == c then 1 else 0) + multiset(rest)[c]
  {
    assert multiset([x] + rest) == multiset([x]) + multiset(rest);
  }

  /** One row value's count, split over the three status tabs. */
  lemma StatusCountsAddUp(rows: seq<Complaint>, c: Complaint)
    requires forall i :: 0 <= i < |rows| ==> IsStatus(rows[i].status)
    ensures multiset(FilterByTab(rows, "Pending"))[c] + multiset(FilterByTab(rows, "In Progress"))[c]
          + multiset(FilterByTab(rows, "Completed"))[c] == multiset(rows)[c]
  {
    FilterKeepsEveryMatch(rows, "Pending", c);
    FilterKeepsEveryMatch(rows, "In Progress", c);
    FilterKeepsEveryMatch(rows, "Completed", c);
    if c in rows {
      var i :| 0 <= i < |rows| && rows[i] == c;
      assert IsStatus(c.status);
    } else {
      assert multiset(rows)[c] == 0;
    }
  }

  /** When every row has one of the three statuses, the Pending, In Progress and
      Completed tabs split the table: together they hold every row exactly once. */
  lemma StatusTabsPartition(rows: seq<Complaint>)
    requires forall i :: 0 <= i < |rows| ==> IsStatus(rows[i].status)
    ensures multiset(FilterByTab(rows, "Pending")) + multiset(FilterByTab(rows, "In Progress"))
          + multiset(FilterByTab(rows, "Completed")) == multiset(rows)
    ensures |FilterByTab(rows, "Pending")| + |FilterByTab(rows, "In Progress")|
          + |FilterByTab(rows, "Completed")| == |rows|
  {
    var p, q, d := FilterByTab(rows, "Pending"), FilterByTab(rows, "In Progress"), FilterByTab(rows, "Completed");
    forall c
      ensures (multiset(p) + multiset(q) + multiset(d))[c] == multiset(rows)[c]
    {
      StatusCountsAddUp(rows, c);
    }
    assert multiset(p) + multiset(q) + multiset(d) == multiset(rows);
    assert |multiset(p) + multiset(q) + multiset(d)| == |p| + |q| + |d|;
  }

  /** Facts about the fixed table: every status is a tab, the ids are pairwise distinct
      (they key the table rows), and each status tab selects the rows it should. */
  lemma MockComplaintsFacts()
    ensures forall i :: 0 <= i < |MockComplaints| ==> IsStatus(MockComplaints[i].status)
    ensures forall i, j :: 0 <= i < j < |MockComplaints| ==> MockComplaints[i].id != MockComplaints[j].id
    ensures FilterByTab(MockComplaints, "Pending") == [MockComplaints[0], MockComplaints[4]]
    ensures FilterByTab(MockComplaints, "In Progress") == [MockComplaints[1], MockComplaints[3]]
    ensures FilterByTab(MockComplaints, "Completed") == [MockComplaints[2]]
  {
    var m := MockComplaints;
    assert m[1..][1..][1..][1..][1..] == [];
    assert m[1..][1..][1..][1..] == [m[4]];
    assert m[1..][1..][1..] == [m[3], m[4]];
    assert m[1..][1..] == [m[2], m[3], m[4]];
    assert m[1..] == [m[1], m[2], m[3], m[4]];
  }

  datatype Tone = Amber | Blue | Green | Red

  /** The status badge colour: Pending is amber, In Progress is blue, anything else green. */
  function StatusBadge(status: string): (t: Tone)
    ensures t == Amber <==> status == "Pending"
    ensures t == Blue <==> status == "In Progress"
    ensures t == Green <==> status != "Pending" && status != "In Progress"
  {
    if status == "Pending" then Amber else if status == "In Progress" then Blue else Green
  }

  /** The priority dot colour: High is red, Medium is amber, anything else blue. */
  function PriorityDot(priority: string): (t: Tone)
    ensures t == Red <==> priority == "High"
    ensures t == Amber <==> priority == "Medium"
    ensures t == Blue <==> priority != "High" && priority != "Medium"
  {
    if priority == "High" then Red else if priority == "Medium" then Amber else Blue
  }

  /** The three statuses get three different badges, so the badge tells the status apart. */
  lemma StatusBadgeDistinguishesTabs(s1: string, s2: string)
    requires IsStatus(s1) && IsStatus(s2) && s1 != s2
    ensures StatusBadge(s1) != StatusBadge(s2)
  {
  }

  class Dashboard {
    var activeTab: string

    ghost predicate Valid()
      reads this
    {
      activeTab in Tabs
    }

    constructor ()
      ensures Valid() && activeTab == "All"
    {
      activeTab := "All";
    }

    /** The rows the table currently shows: rows of the fixed table that pass the
        active tab, all of them under "All". */
    function VisibleRows(): (rows: seq<Complaint>)
      reads this
      ensures forall i :: 0 <= i < |rows| ==> Shown(rows[i], activeTab) && rows[i] in MockComplaints
      ensures activeTab == "All" ==> rows == MockComplaints
    {
      FilterAllKeepsEveryRow(MockComplaints);
      FilterByTab(MockComplaints, activeTab)
    }

    /** A click on one of the four tab buttons. */
    method SelectTab(tab: string)
      requires tab in Tabs
      modifies this
      ensures Valid() && activeTab == tab
      ensures VisibleRows() == FilterByTab(MockComplaints, tab)
    {
      activeTab := tab;
    }
  }
}
