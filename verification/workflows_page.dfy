/**
  The workflow list page (frontend/src/pages/Workflows.jsx): the fetched workflows, a
  search term matched case-insensitively against name and description, a status filter,
  and a delete handler that asks for confirmation and drops the deleted workflow from the
  list once the backend has removed it.
*/
module WorkflowsPage {
  import opened Wrappers
  import opened Text

  /** The fields of a listed workflow the page reads; the description is always a string here. */
  datatype WorkflowItem = WorkflowItem(id: int, name: string, description: string, isValid: bool)

  /** The message shown when the backend refuses a delete. */
  const DeleteAlert := "Error deleting workflow"

  // ---------------------------------------------------------------------------
  // Filtering

  /** The search half of the filter: the lowercased term occurs in the lowercased name or description. */
  predicate MatchesSearch(w: WorkflowItem, searchTerm: string) {
    Contains(ToLower(w.name), ToLower(searchTerm)) || Contains(ToLower(w.description), ToLower(searchTerm))
  }

  /** The status half: "all" keeps every workflow, "valid" and "invalid" the matching flag, anything else none. */
  predicate MatchesFilter(w: WorkflowItem, filterStatus: string) {
    filterStatus == "all" || (filterStatus == "valid" && w.isValid) || (filterStatus == "invalid" && !w.isValid)
  }

  function Keeps(searchTerm: string, filterStatus: string): WorkflowItem -> bool {
    (w: WorkflowItem) => MatchesSearch(w, searchTerm) && MatchesFilter(w, filterStatus)
  }

  /** `filteredWorkflows`. */
  function FilteredWorkflows(ws: seq<WorkflowItem>, searchTerm: string, filterStatus: string): (r: seq<WorkflowItem>)
    ensures |r| <= |ws|
    ensures forall k :: 0 <= k < |r| ==> MatchesSearch(r[k], searchTerm) && MatchesFilter(r[k], filterStatus)
  {
    Filter(ws, Keeps(searchTerm, filterStatus))
  }

  /** The shown list keeps the fetched order and only drops workflows. */
  lemma FilteredIsOrderedSublist(ws: seq<WorkflowItem>, searchTerm: string, filterStatus: string)
    ensures IsSublist(FilteredWorkflows(ws, searchTerm, filterStatus), ws)
  {
    FilterIsSublist(ws, Keeps(searchTerm, filterStatus));
  }

  /** A workflow is shown exactly when it is listed and passes both the search and the status filter. */
  lemma FilteredMembership(ws: seq<WorkflowItem>, searchTerm: string, filterStatus: string, w: WorkflowItem)
    ensures w in FilteredWorkflows(ws, searchTerm, filterStatus) <==>
      w in ws && MatchesSearch(w, searchTerm) && MatchesFilter(w, filterStatus)
  {
    FilterMembership(ws, Keeps(searchTerm, filterStatus), w);
  }

  /** The empty search matches every string. */
  lemma EmptySearchMatches(w: WorkflowItem)
    ensures MatchesSearch(w, "")
  {
    assert ToLower("") == "";
    EmptyIsContained(ToLower(w.name));
  }

  /** With an empty search and the filter "all", the whole list is shown. */
  lemma InitialFilterShowsAll(ws: seq<WorkflowItem>)
    ensures FilteredWorkflows(ws, "", "all") == ws
  {
    forall k | 0 <= k < |ws| ensures Keeps("", "all")(ws[k]) {
      EmptySearchMatches(ws[k]);
    }
    FilterKeepsAll(ws, Keeps("", "all"));
  }

  /** A filter value other than "all", "valid" or "invalid" shows nothing. */
  lemma UnknownFilterShowsNone(ws: seq<WorkflowItem>, searchTerm: string, filterStatus: string)
    requires filterStatus != "all" && filterStatus != "valid" && filterStatus != "invalid"
    ensures FilteredWorkflows(ws, searchTerm, filterStatus) == []
  {
    FilterKeepsNone(ws, Keeps(searchTerm, filterStatus));
  }

  // ---------------------------------------------------------------------------
  // Deleting

  /** A workflow's id, the key `deleteWorkflow` filters on. */
  function WorkflowId(w: WorkflowItem): int {
    w.id
  }

  // ---------------------------------------------------------------------------
  // The page

  /** The page's state cells. */
  class WorkflowsPageState {
    var workflows: seq<WorkflowItem>
    var loading: bool
    var searchTerm: string
    var filterStatus: string

    /** The first render: nothing fetched yet, loading, empty search, filter "all". */
    constructor()
      ensures workflows == [] && loading && searchTerm == "" && filterStatus == "all"
    {
      workflows := [];
      loading := true;
      searchTerm := "";
      filterStatus := "all";
    }

    /** The list the page renders. */
    function Shown(): seq<WorkflowItem>
      reads this
    {
      FilteredWorkflows(workflows, searchTerm, filterStatus)
    }

    /** `fetchWorkflows`: a reply replaces the list, a failure keeps it; loading ends either way. */
    method FetchWorkflows(reply: Result<seq<WorkflowItem>, string>)
      modifies this
      ensures reply.Success? ==> workflows == reply.value
      ensures reply.Failure? ==> workflows == old(workflows)
      ensures !loading && searchTerm == old(searchTerm) && filterStatus == old(filterStatus)
    {
      if reply.Success? {
        workflows := reply.value;
      }
      loading := false;
    }

    /** The search box's change handler. */
    method SetSearchTerm(text: string)
      modifies this
      ensures searchTerm == text
      ensures workflows == old(workflows) && loading == old(loading) && filterStatus == old(filterStatus)
    {
      searchTerm := text;
    }

    /** The status select's change handler. */
    method SetFilterStatus(value: string)
      modifies this
      ensures filterStatus == value
      ensures workflows == old(workflows) && loading == old(loading) && searchTerm == old(searchTerm)
    {
      filterStatus := value;
    }

    /**
      `deleteWorkflow`: nothing happens unless the user confirms; a confirmed delete the
      backend accepts drops every workflow with that id, and one it refuses leaves the
      list as it was and raises the alert.
    */
    method DeleteWorkflow(id: int, confirmed: bool, reply: Result<(), string>) returns (alert: Option<string>)
      modifies this
      ensures confirmed && reply.Success? ==> workflows == WithoutKey(old(workflows), WorkflowId, id) && alert.None?
      ensures confirmed && reply.Failure? ==> workflows == old(workflows) && alert == Some(DeleteAlert)
      ensures !confirmed ==> workflows == old(workflows) && alert.None?
      ensures loading == old(loading) && searchTerm == old(searchTerm) && filterStatus == old(filterStatus)
    {
      alert := None;
      if !confirmed {
        return;
      }
      if reply.Success? {
        workflows := WithoutKey(workflows, WorkflowId, id);
      } else {
        alert := Some(DeleteAlert);
      }
    }
  }
}
