/** The complaint tracker (TrackIssue): a search box whose submission starts a
    simulated lookup; when the lookup's timer fires, a fixed result carrying the
    upper-cased id is shown with a fixed status timeline. */
module Tracker {
  import opened Text

  datatype Option<T> = None | Some(value: T)

  /** The record a finished lookup shows. */
  datatype Lookup = Lookup(id: string, category: string, location: string, description: string, status: string)

  /** The lookup result for an id typed as `typed`: every field but the id is fixed. */
  function LookupFor(typed: string): (r: Lookup)
    ensures r.id == ToUpper(typed) && |r.id| == |typed|
    ensures r.status == "In Progress"
  {
    Lookup(ToUpper(typed), "Garbage Management", "MG Road, Pune, Maharashtra",
      "Large pile of waste accumulation near the main junction causing odor and traffic issues.",
      "In Progress")
  }

  datatype Panel = ResultPanel | HintPanel | EmptyPrompt

  /** The area under the search box: the result when there is one; otherwise the
      "Click Track Status" hint while not searching with a non-empty id; otherwise
      the empty prompt. */
  function SelectPanel(result: Option<Lookup>, isSearching: bool, complaintId: string): (p: Panel)
    ensures p == ResultPanel <==> result.Some?
    ensures p == HintPanel <==> result.None? && !isSearching && complaintId != ""
    ensures p == EmptyPrompt <==> result.None? && (isSearching || complaintId == "")
  {
    if result.Some? then ResultPanel
    else if !isSearching && complaintId != "" then HintPanel
    else EmptyPrompt
  }

  datatype TimelineEntry = TimelineEntry(id: int, caption: string, date: string, time: string, completed: bool, current: bool)

  /** The status timeline every result shows. */
  const MockStatus: seq<TimelineEntry> := [
    TimelineEntry(1, "Submitted", "Jan 28, 2026", "10:30 AM", true, false),
    TimelineEntry(2, "Under Review", "Jan 29, 2026", "02:15 PM", true, false),
    TimelineEntry(3, "In Progress", "Jan 30, 2026", "09:00 AM", true, true),
    TimelineEntry(4, "Resolved", "--", "--", false, false)
  ]

  datatype Connector = GreenLine | PlainLine

  /** The line drawn below entry `index`: none below the last entry, green when this
      entry and the next are both completed, plain otherwise. */
  function ConnectorAfter(timeline: seq<TimelineEntry>, index: nat): (c: Option<Connector>)
    requires index < |timeline|
    ensures c == None <==> index == |timeline| - 1
    ensures c == Some(GreenLine) <==> index < |timeline| - 1 && timeline[index].completed && timeline[index + 1].completed
  {
    if index < |timeline| - 1 then
      Some(if timeline[index].completed && timeline[index + 1].completed then GreenLine else PlainLine)
    else None
  }

  /** On the fixed timeline the first two connectors are green, the third is plain
      (it leads to the unfinished "Resolved" entry) and the last entry has none. */
  lemma MockTimelineConnectors()
    ensures ConnectorAfter(MockStatus, 0) == Some(GreenLine)
    ensures ConnectorAfter(MockStatus, 1) == Some(GreenLine)
    ensures ConnectorAfter(MockStatus, 2) == Some(PlainLine)
    ensures ConnectorAfter(MockStatus, 3) == None
  {
  }

  class TrackIssue {
    var complaintId: string
    var isSearching: bool
    var result: Option<Lookup>
    /** The id captured by the outstanding lookup timer, if one is running. */
    var pending: Option<string>

    /** A timer is outstanding exactly while searching, and it holds a non-empty id. */
    ghost predicate Valid()
      reads this
    {
      (isSearching <==> pending.Some?) && (pending.Some? ==> pending.value != "")
    }

    constructor ()
      ensures Valid()
      ensures complaintId == "" && !isSearching && result == None && pending == None
    {
      complaintId := "";
      isSearching := false;
      result := None;
      pending := None;
    }

    /** The area under the search box, as the component renders it now. */
    function CurrentPanel(): (p: Panel)
      reads this
      ensures p == ResultPanel <==> result.Some?
      ensures p == HintPanel <==> result.None? && !isSearching && complaintId != ""
    {
      SelectPanel(result, isSearching, complaintId)
    }

    /** The submit button is disabled while a lookup runs. */
    predicate SubmitEnabled()
      reads this
    {
      !isSearching
    }

    /** Typing in the search box. */
    method SetComplaintId(s: string)
      requires Valid()
      modifies this
      ensures Valid()
      ensures complaintId == s
      ensures isSearching == old(isSearching) && result == old(result) && pending == old(pending)
    {
      complaintId := s;
    }

    /** handleSearch: an empty id is ignored; otherwise the lookup starts and its
        timer captures the id as it is now. */
    method Search()
      requires Valid() && SubmitEnabled()
      modifies this
      ensures Valid()
      ensures complaintId == old(complaintId) && result == old(result)
      ensures old(complaintId) == "" ==> !isSearching && pending == None
      ensures old(complaintId) != "" ==> isSearching && pending == Some(old(complaintId))
      ensures old(complaintId) != "" && result == None ==> CurrentPanel() == EmptyPrompt
    {
      if complaintId == "" {
        return;
      }
      isSearching := true;
      pending := Some(complaintId);
    }

    /** The lookup timer fires: the result for the captured id is shown and the
        search ends, whatever has been typed since. */
    method Complete()
      requires Valid() && pending.Some?
      modifies this
      ensures Valid()
      ensures result == Some(LookupFor(old(pending).value))
      ensures result.value.id == ToUpper(old(pending).value) && result.value.id != ""
      ensures result.value.status == "In Progress"
      ensures !isSearching && pending == None && complaintId == old(complaintId)
      ensures CurrentPanel() == ResultPanel
    {
      result := Some(LookupFor(pending.value));
      isSearching := false;
      pending := None;
    }
  }
}
