/**
 * The popup (popup.js): a probe that gates the form, the saved form defaults,
 * and the two click handlers that validate the form, store a query and open
 * the results page.
 */
module Popup {
  import opened Common
  import opened Request
  import opened Queries

  const DefaultProject := "Sunshine"
  const DefaultUser := "nyx.linden"
  const ResultsPageUrl := "ticketQuery.html"
  const NeedProject := "Please enter a project."
  const NeedDays := "Please enter a number of days."
  const NeedUser := "Please enter a user."

  /** `loadOptions`: the stored project and user, each falling back to its default. */
  function LoadOptions(storedProject: Option<string>, storedUser: Option<string>): (r: (string, string))
    ensures r.0 == (if storedProject.Some? then storedProject.value else DefaultProject)
    ensures r.1 == (if storedUser.Some? then storedUser.value else DefaultUser)
  {
    var project := match storedProject case Some(p) => p case None => DefaultProject;
    var user := match storedUser case Some(u) => u case None => DefaultUser;
    (project, user)
  }

  /**
   * The ticket-status handler's checks, in the handler's order: the project
   * first, then the number of days. The status is never checked.
   */
  function TicketQueryFromForm(project: string, status: string, inStatusFor: string): (r: Result<Query, string>)
    ensures r.Ok? <==> project != "" && inStatusFor != ""
    ensures r.Ok? ==> r.value == TicketStatus(project, status, inStatusFor)
    ensures r.Err? ==> r.error == (if project == "" then NeedProject else NeedDays)
  {
    if project == "" then Err(NeedProject)
    else if inStatusFor == "" then Err(NeedDays)
    else Ok(TicketStatus(project, status, inStatusFor))
  }

  /** The activity handler's only check: a non-empty user. */
  function ActivityQueryFromForm(user: string): (r: Result<Query, string>)
    ensures r.Ok? <==> user != ""
    ensures r.Ok? ==> r.value == Activity(Some(user))
    ensures r.Err? ==> r.error == NeedUser
  {
    if user == "" then Err(NeedUser) else Ok(Activity(Some(user)))
  }

  /** The project check comes first: with both fields empty, the user is asked for the project. */
  lemma ProjectCheckedFirst(status: string)
    ensures TicketQueryFromForm("", status, "") == Err(NeedProject)
  {
  }

  /** The status select never decides whether a ticket query is accepted, nor which message is shown. */
  lemma StatusNeverValidated(project: string, s1: string, s2: string, inStatusFor: string)
    ensures TicketQueryFromForm(project, s1, inStatusFor).Ok? == TicketQueryFromForm(project, s2, inStatusFor).Ok?
    ensures TicketQueryFromForm(project, s1, inStatusFor).Err? ==>
      TicketQueryFromForm(project, s1, inStatusFor) == TicketQueryFromForm(project, s2, inStatusFor)
  {
  }

  /** Every record the popup can store is one the results page routes to a flow, with the user present. */
  lemma StoredQueriesWellFormed(project: string, status: string, inStatusFor: string, user: string)
    ensures TicketQueryFromForm(project, status, inStatusFor).Ok? ==>
      var q := TicketQueryFromForm(project, status, inStatusFor).value;
      q.TicketStatus? && q.project != "" && q.inStatusFor != ""
    ensures ActivityQueryFromForm(user).Ok? ==>
      var q := ActivityQueryFromForm(user).value;
      q.Activity? && q.user.Some? && q.user.value != ""
  {
  }

  /** The popup page: its form, its status line, the stored query slot and the tabs it opened. */
  class PopupPage {
    var projectInput: string
    var statusSelect: string
    var daysPast: string
    var userInput: string
    var statusText: string
    var statusHidden: bool
    /** The click handlers are installed only once the probe has resolved. */
    var listening: bool
    /** The `query` key of the extension's synchronised storage. */
    var storedQuery: Option<Query>
    /** The pages opened in new tabs, oldest first. */
    var openedTabs: seq<string>

    /** A freshly loaded popup, with whatever query an earlier popup stored. */
    constructor (previous: Option<Query>, status: string, days: string)
      ensures projectInput == "" && userInput == "" && statusSelect == status && daysPast == days
      ensures statusText == "" && statusHidden && !listening
      ensures storedQuery == previous && openedTabs == []
    {
      projectInput, userInput, statusSelect, daysPast := "", "", status, days;
      statusText, statusHidden, listening := "", true, false;
      storedQuery, openedTabs := previous, [];
    }

    /** The user edits the form. */
    method Fill(project: string, status: string, days: string, user: string)
      modifies this
      ensures projectInput == project && statusSelect == status && daysPast == days && userInput == user
      ensures statusText == old(statusText) && statusHidden == old(statusHidden) && listening == old(listening)
      ensures storedQuery == old(storedQuery) && openedTabs == old(openedTabs)
    {
      projectInput, statusSelect, daysPast, userInput := project, status, days, user;
    }

    /** Writes the status element and shows it. */
    method ShowStatus(text: string)
      modifies this`statusText, this`statusHidden
      ensures statusText == text && !statusHidden
    {
      statusText, statusHidden := text, false;
    }

    /**
     * The DOMContentLoaded handler: when the probe of the project endpoint resolves,
     * the saved options fill the form and the click handlers are installed; when it
     * is rejected, its reason is shown and the form stays unwired.
     */
    method Setup<T>(probe: Settled<T>, storedProject: Option<string>, storedUser: Option<string>)
      modifies this
      ensures probe.Resolved? ==>
        && (projectInput, userInput) == LoadOptions(storedProject, storedUser)
        && listening
        && statusText == old(statusText) && statusHidden == old(statusHidden)
      ensures probe.Rejected? ==>
        && statusText == ErrorStatus(ReasonText(probe.reason)) && !statusHidden
        && projectInput == old(projectInput) && userInput == old(userInput)
        && listening == old(listening)
      ensures statusSelect == old(statusSelect) && daysPast == old(daysPast)
      ensures storedQuery == old(storedQuery) && openedTabs == old(openedTabs)
    {
      match probe
      case Resolved(_) =>
        var options := LoadOptions(storedProject, storedUser);
        projectInput, userInput := options.0, options.1;
        listening := true;
      case Rejected(reason) =>
        ShowStatus(ErrorStatus(ReasonText(reason)));
    }

    /**
     * The ticket-status button: a failed check shows its message and stores nothing;
     * a valid form overwrites the stored query and opens the results page.
     */
    method OnQueryClick()
      modifies this
      ensures var r := TicketQueryFromForm(old(projectInput), old(statusSelect), old(daysPast));
        if !old(listening) then
          statusText == old(statusText) && statusHidden == old(statusHidden)
          && storedQuery == old(storedQuery) && openedTabs == old(openedTabs)
        else if r.Err? then
          statusText == r.error && !statusHidden
          && storedQuery == old(storedQuery) && openedTabs == old(openedTabs)
        else
          storedQuery == Some(r.value) && openedTabs == old(openedTabs) + [ResultsPageUrl]
          && statusText == old(statusText) && statusHidden == old(statusHidden)
      ensures projectInput == old(projectInput) && statusSelect == old(statusSelect)
      ensures daysPast == old(daysPast) && userInput == old(userInput) && listening == old(listening)
    {
      if !listening {
        return;
      }
      var r := TicketQueryFromForm(projectInput, statusSelect, daysPast);
      match r
      case Err(message) =>
        ShowStatus(message);
      case Ok(query) =>
        storedQuery := Some(query);
        openedTabs := openedTabs + [ResultsPageUrl];
    }

    /**
     * The activity-feed button: an empty user shows its message and stores nothing;
     * otherwise the activity query overwrites the stored one and the results page opens.
     */
    method OnFeedClick()
      modifies this
      ensures var r := ActivityQueryFromForm(old(userInput));
        if !old(listening) then
          statusText == old(statusText) && statusHidden == old(statusHidden)
          && storedQuery == old(storedQuery) && openedTabs == old(openedTabs)
        else if r.Err? then
          statusText == r.error && !statusHidden
          && storedQuery == old(storedQuery) && openedTabs == old(openedTabs)
        else
          storedQuery == Some(r.value) && openedTabs == old(openedTabs) + [ResultsPageUrl]
          && statusText == old(statusText) && statusHidden == old(statusHidden)
      ensures projectInput == old(projectInput) && statusSelect == old(statusSelect)
      ensures daysPast == old(daysPast) && userInput == old(userInput) && listening == old(listening)
    {
      if !listening {
        return;
      }
      var r := ActivityQueryFromForm(userInput);
      match r
      case Err(message) =>
        ShowStatus(message);
      case Ok(query) =>
        storedQuery := Some(query);
        openedTabs := openedTabs + [ResultsPageUrl];
    }
  }
}
