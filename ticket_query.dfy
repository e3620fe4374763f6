/**
 * The results page (ticketQuery.js): it reads the stored query, builds the JIRA
 * URL for it, and renders either the issues found or the user's activity feed
 * into a status line and a result region.
 *
 * Markup is modelled as the strings the page assigns; parsing the feed and the
 * title fragments, and formatting dates, are the `Environment`'s business.
 */
module TicketQuery {
  import opened Common
  import opened Request
  import opened Queries
  import opened JsNumber

  // ---------------------------------------------------------------------------
  // The search URL (buildJQL)
  // ---------------------------------------------------------------------------

  const SearchBase := "https://jira.secondlife.com/rest/api/2/search?jql="
  const SearchFields := "&fields=id,status,key,assignee,summary&maxresults=100"

  /**
   * The search expression: project equals the project, status equals the status,
   * and the status changed to it more than the given number of days ago.
   */
  function Jql(q: Query): string
    requires q.TicketStatus?
  {
    "project=" + q.project + StatusPart(q.status, q.inStatusFor)
  }

  function StatusPart(status: string, days: string): string
  {
    "+and+status=" + status + ChangedPart(status, days)
  }

  function ChangedPart(status: string, days: string): string
  {
    ChangedLead(status) + days + "d"
  }

  function ChangedLead(status: string): string
  {
    "+and+" + ChangedTo(status) + "+" + "before+-"
  }

  function ChangedTo(status: string): string
  {
    "status+changed+to+" + status
  }

  /**
   * The search URL for a ticket-status query: project, status (twice) and days are
   * spliced in as they are, with no encoding.
   */
  function BuildJQL(q: Query): (url: string)
    requires q.TicketStatus?
    ensures SearchBase <= url
    ensures EndsWith(url, SearchFields)
  {
    Peeled(SearchBase, Jql(q), SearchFields);
    Framed(SearchBase, Jql(q), SearchFields);
    SearchBase + Jql(q) + SearchFields
  }

  /** Whatever occurs in the search expression occurs in the URL, shifted past the base. */
  lemma InSearchUrl(q: Query, t: string, k: nat)
    requires q.TicketStatus? && OccursAt(Jql(q), t, k)
    ensures OccursAt(BuildJQL(q), t, |SearchBase| + k)
    ensures Contains(BuildJQL(q), t)
  {
    OccursAfter(SearchBase, Jql(q), t, k);
    OccursBefore(SearchBase + Jql(q), SearchFields, t, |SearchBase| + k);
  }

  /** Whatever occurs in the status part occurs in the search expression, shifted past the project. */
  lemma InStatusPart(q: Query, t: string, k: nat)
    requires q.TicketStatus? && OccursAt(StatusPart(q.status, q.inStatusFor), t, k)
    ensures Contains(BuildJQL(q), t)
  {
    OccursAfter("project=" + q.project, StatusPart(q.status, q.inStatusFor), t, k);
    InSearchUrl(q, t, |"project=" + q.project| + k);
  }

  /** The project is spliced in verbatim after `project=`. */
  lemma BuildJQLSplicesProject(q: Query)
    requires q.TicketStatus?
    ensures Contains(BuildJQL(q), "project=" + q.project)
  {
    Spliced("", "project=" + q.project, StatusPart(q.status, q.inStatusFor));
    assert Jql(q) == "" + ("project=" + q.project) + StatusPart(q.status, q.inStatusFor);
    InSearchUrl(q, "project=" + q.project, 0);
  }

  /** The status is spliced in verbatim after `status=`. */
  lemma BuildJQLSplicesStatus(q: Query)
    requires q.TicketStatus?
    ensures Contains(BuildJQL(q), "status=" + q.status)
  {
    var s := q.status;
    var head := "+and+status=" + s;
    assert head == "+and+" + ("status=" + s) + "";
    Spliced("+and+", "status=" + s, "");
    OccursBefore(head, ChangedPart(s, q.inStatusFor), "status=" + s, 5);
    InStatusPart(q, "status=" + s, 5);
  }

  /** The status is spliced in verbatim a second time, after `status+changed+to+`. */
  lemma BuildJQLSplicesChangedTo(q: Query)
    requires q.TicketStatus?
    ensures Contains(BuildJQL(q), "status+changed+to+" + q.status)
  {
    var s, d := q.status, q.inStatusFor;
    var changed := ChangedTo(s);
    Spliced("+and+", changed, "+before+-");
    OccursBefore(ChangedLead(s), d, changed, 5);
    OccursBefore(ChangedLead(s) + d, "d", changed, 5);
    OccursAfter("+and+status=" + s, ChangedPart(s, d), changed, 5);
    InStatusPart(q, changed, |"+and+status=" + s| + 5);
  }

  /** The number of days is spliced in verbatim between `before+-` and `d`. */
  lemma BuildJQLSplicesDays(q: Query)
    requires q.TicketStatus?
    ensures Contains(BuildJQL(q), "before+-" + q.inStatusFor + "d")
  {
    var s, d := q.status, q.inStatusFor;
    var before := "before+-" + d + "d";
    var lead := "+and+" + ChangedTo(s) + "+";
    assert ChangedPart(s, d) == lead + before + "";
    Spliced(lead, before, "");
    OccursAfter("+and+status=" + s, ChangedPart(s, d), before, |lead|);
    InStatusPart(q, before, |"+and+status=" + s| + |lead|);
  }

  /**
   * Reads a ticket-status query back out of a search URL, taking the project and
   * the status each up to the next '+'.
   */
  function ParseJQL(url: string): (q: Option<Query>)
    ensures q.Some? ==> q.value.TicketStatus? && '+' !in q.value.project && '+' !in q.value.status
  {
    if !(|SearchBase| + |SearchFields| <= |url| && SearchBase <= url && EndsWith(url, SearchFields)) then None
    else
      var jql := url[|SearchBase|..|url| - |SearchFields|];
      if !("project=" <= jql) then None
      else
        var (project, r1) := SplitBefore(jql[|"project="|..], '+');
        if !("+and+status=" <= r1) then None
        else
          var (status, r2) := SplitBefore(r1[|"+and+status="|..], '+');
          var lead := ChangedLead(status);
          if !(|lead| < |r2| && lead <= r2 && r2[|r2| - 1] == 'd') then None
          else Some(TicketStatus(project, status, r2[|lead|..|r2| - 1]))
  }

  /** With no '+' in the project or the status, the URL determines the query it was built from. */
  lemma JqlRoundTrip(q: Query)
    requires q.TicketStatus? && '+' !in q.project && '+' !in q.status
    ensures ParseJQL(BuildJQL(q)) == Some(q)
  {
    var p, s, d := q.project, q.status, q.inStatusFor;
    var url := BuildJQL(q);
    Framed(SearchBase, Jql(q), SearchFields);
    assert url[|SearchBase|..|url| - |SearchFields|] == Jql(q);
    Peeled("project=", p, StatusPart(s, d));
    Peeled("+and+status=", s, ChangedPart(s, d));
    SplitBeforeJoin(p, '+', StatusPart(s, d));
    Peeled("+and+status+changed+to+", s, "+before+-");
    SplitBeforeJoin(s, '+', ChangedPart(s, d));
    Peeled(ChangedLead(s), d, "d");
    Framed(ChangedLead(s), d, "d");
  }

  /**
   * Without encoding, two different queries can share one URL: a project that
   * carries the clauses of a first status, or days that carry those of a second.
   */
  lemma JqlCollision(p: string, s: string, t: string, d: string)
    ensures var q1 := TicketStatus(p, s, StatusClauses(t) + d);
      var q2 := TicketStatus(p + StatusClauses(s), t, d);
      q1 != q2 && BuildJQL(q1) == BuildJQL(q2)
  {
    var c1, c2 := StatusClauses(s), StatusClauses(t);
    var q1 := TicketStatus(p, s, c2 + d);
    var q2 := TicketStatus(p + c1, t, d);
    ClausesThenDays(s, c2 + d);
    ClausesThenDays(t, d);
    Regrouped("project=", p, c1, c2, d, "d");
    assert |q2.project| > |q1.project|;
  }

  /** The two status clauses for a status, as `buildJQL` writes them before the number of days. */
  function StatusClauses(status: string): string
  {
    "+and+status=" + status + ChangedLead(status)
  }

  /** The status part is the status clauses followed by the days and `d`. */
  lemma ClausesThenDays(status: string, days: string)
    ensures StatusPart(status, days) == StatusClauses(status) + days + "d"
  {
  }

  lemma Regrouped(a: string, b: string, c: string, e: string, f: string, g: string)
    ensures a + b + (c + (e + f) + g) == a + (b + c) + (e + f + g)
  {
  }

  // ---------------------------------------------------------------------------
  // The activity-feed URL (getJIRAFeed)
  // ---------------------------------------------------------------------------

  const FeedSite := "https://jira.secondlife.com/activity?maxResults=50&"
  const FeedStream := "streams=user+IS+"
  const FeedBase := FeedSite + FeedStream
  const FeedProviders := "&providers=issues"
  const UnknownUser := "Unknown user"

  /** The feed URL for a user: 50 results, the user's stream, the issues provider. */
  function FeedUrl(user: string): (url: string)
    ensures FeedBase <= url && EndsWith(url, FeedProviders)
    ensures |url| == |FeedBase| + |user| + |FeedProviders|
  {
    assert (FeedBase + user + FeedProviders)[..|FeedBase|] == FeedBase;
    assert (FeedBase + user + FeedProviders)[|FeedBase + user|..] == FeedProviders;
    FeedBase + user + FeedProviders
  }

  /** `getJIRAFeed`'s check: a missing user is refused before any URL is built. */
  function GetJIRAFeed(user: Option<string>): (r: Result<string, string>)
    ensures r.Err? <==> user.None?
    ensures r.Err? ==> r.error == UnknownUser
    ensures r.Ok? ==> r.value == FeedUrl(user.value)
  {
    match user
    case None => Err(UnknownUser)
    case Some(u) => Ok(FeedUrl(u))
  }

  /** The user a feed URL asks for, if it is one. */
  function FeedUserOf(url: string): (user: Option<string>)
    ensures user.Some? ==> |url| == |FeedBase| + |user.value| + |FeedProviders|
    ensures user.Some? ==> url == FeedUrl(user.value)
  {
    assert |FeedBase| + |FeedProviders| <= |url| && FeedBase <= url && EndsWith(url, FeedProviders) ==>
      url == url[..|FeedBase|] + url[|FeedBase|..|url| - |FeedProviders|] + url[|url| - |FeedProviders|..];
    if |FeedBase| + |FeedProviders| <= |url| && FeedBase <= url && EndsWith(url, FeedProviders)
    then Some(url[|FeedBase|..|url| - |FeedProviders|])
    else None
  }

  /** Any user, whatever characters it holds, is read back unchanged from its feed URL. */
  lemma FeedUrlRoundTrip(user: string)
    ensures FeedUserOf(FeedUrl(user)) == Some(user)
  {
    var url := FeedUrl(user);
    assert url == FeedBase + user + FeedProviders;
    assert url[|FeedBase|..|url| - |FeedProviders|] == user;
  }

  /** The user is spliced verbatim into the stream filter, right before the provider. */
  lemma FeedUrlSplicesUser(user: string)
    ensures Contains(FeedUrl(user), FeedStream + user + FeedProviders)
  {
    var filter := FeedStream + user + FeedProviders;
    assert FeedUrl(user) == FeedSite + filter + "";
    Spliced(FeedSite, filter, "");
  }

  // ---------------------------------------------------------------------------
  // The status label
  // ---------------------------------------------------------------------------

  /** The ticket-status label: 'Open' for status 1, 'In Progress' for everything else. */
  function StatusLabel(status: string): (name: string)
    ensures name == "Open" || name == "In Progress"
    ensures name == "Open" <==> LooselyEqualsOne(status)
  {
    if LooselyEqualsOne(status) then "Open" else "In Progress"
  }

  /** The status select's two values get the two labels. */
  lemma StatusLabelOfSelect()
    ensures StatusLabel("1") == "Open" && StatusLabel("2") == "In Progress"
  {
    SelectOpen();
    SelectInProgress();
  }

  // ---------------------------------------------------------------------------
  // Issue lines (displayTicketStatus)
  // ---------------------------------------------------------------------------

  /** An issue as the search answers it: its id, its summary, and its assignee's display name if any. */
  datatype Issue = Issue(id: string, summary: string, assignee: Option<string>)

  /** The search answer: the total count and the issues returned. */
  datatype SearchResult = SearchResult(total: int, issues: seq<Issue>)

  const NotAssigned := "Not assigned"

  function AssigneeText(assignee: Option<string>): (t: string)
    ensures assignee.Some? ==> t == assignee.value
    ensures assignee.None? ==> t == NotAssigned
  {
    match assignee
    case Some(name) => name
    case None => NotAssigned
  }

  /** One list item: id, assignee or 'Not assigned', and summary, separated by " | ". */
  function IssueLine(issue: Issue): (line: string)
    ensures issue.id + " | " <= line
    ensures EndsWith(line, " | " + issue.summary)
    ensures |line| == |issue.id| + 3 + |AssigneeText(issue.assignee)| + 3 + |issue.summary|
    ensures line[|issue.id + " | "|..|line| - |" | " + issue.summary|] == AssigneeText(issue.assignee)
  {
    var head, tail := issue.id + " | ", " | " + issue.summary;
    Peeled(head, AssigneeText(issue.assignee), tail);
    Framed(head, AssigneeText(issue.assignee), tail);
    head + AssigneeText(issue.assignee) + tail
  }

  /** Splits off the text before the first " | " of a string, and what follows that separator. */
  function SplitField(s: string): Option<(string, string)>
  {
    var (a, rest) := SplitBefore(s, '|');
    if |a| > 0 && a[|a| - 1] == ' ' && "| " <= rest then Some((a[..|a| - 1], rest[2..])) else None
  }

  /** A field without a '|' is split off again, and the rest is given back unchanged. */
  lemma FieldRoundTrip(field: string, rest: string)
    requires '|' !in field
    ensures SplitField(field + " | " + rest) == Some((field, rest))
  {
    var tail := "| " + rest;
    assert field + " | " + rest == (field + " ") + tail;
    SplitBeforeJoin(field + " ", '|', tail);
    assert (field + " ")[..|field|] == field;
    assert tail[2..] == rest;
  }

  /** Splits an item back into id, assignee text and summary at its first two " | " separators. */
  function ParseIssueLine(line: string): Option<(string, string, string)>
  {
    match SplitField(line)
    case None => None
    case Some((id, rest)) =>
      match SplitField(rest)
      case None => None
      case Some((who, summary)) => Some((id, who, summary))
  }

  /** When neither the id nor the assignee text holds a '|', an item gives back its three fields. */
  lemma IssueLineRoundTrip(issue: Issue)
    requires '|' !in issue.id && '|' !in AssigneeText(issue.assignee)
    ensures ParseIssueLine(IssueLine(issue)) == Some((issue.id, AssigneeText(issue.assignee), issue.summary))
  {
    var id, who, summary := issue.id, AssigneeText(issue.assignee), issue.summary;
    var rest := who + " | " + summary;
    assert IssueLine(issue) == id + " | " + rest;
    FieldRoundTrip(id, rest);
    FieldRoundTrip(who, summary);
  }

  /** The items of the issue list: one per issue, in the order the search returned them. */
  function IssueLines(issues: seq<Issue>): (lines: seq<string>)
    ensures |lines| == |issues|
    ensures forall i :: 0 <= i < |issues| ==> lines[i] == IssueLine(issues[i])
  {
    if issues == [] then [] else [IssueLine(issues[0])] + IssueLines(issues[1..])
  }

  /** The `forEach` that appends one item per issue. */
  method IssueItems(issues: seq<Issue>) returns (items: seq<string>)
    ensures items == IssueLines(issues)
  {
    items := [];
    var i := 0;
    while i < |issues|
      invariant 0 <= i <= |issues|
      invariant |items| == i
      invariant forall j :: 0 <= j < i ==> items[j] == IssueLine(issues[j])
    {
      items := items + [IssueLine(issues[i])];
      i := i + 1;
    }
  }

  /** An issue with no assignee shows 'Not assigned' as its middle field. */
  lemma UnassignedIssueLine(id: string, summary: string)
    requires '|' !in id
    ensures ParseIssueLine(IssueLine(Issue(id, summary, None))) == Some((id, NotAssigned, summary))
  {
    assert '|' !in NotAssigned;
    IssueLineRoundTrip(Issue(id, summary, None));
  }

  // ---------------------------------------------------------------------------
  // Activity lines (displayActivity)
  // ---------------------------------------------------------------------------

  /**
   * An `entry` element of the feed: the inner markup of its first `title` and of
   * its first `updated` element, each absent when the entry has none.
   */
  datatype Entry = Entry(title: Option<string>, updated: Option<string>)

  /** A `feed` element with its `entry` descendants in document order. */
  datatype Feed = Feed(entries: seq<Entry>)

  /** The parsed response document, with its `feed` elements in document order. */
  datatype FeedDocument = FeedDocument(feeds: seq<Feed>)

  predicate Complete(e: Entry)
  {
    e.title.Some? && e.updated.Some?
  }

  /**
   * One activity item: the update time as the viewer's locale shows it, " - ",
   * and the title's text with its markup taken out.
   */
  function EntryLine(e: Entry, showDate: string -> string, textOf: string -> string): (line: string)
    requires Complete(e)
    ensures showDate(e.updated.value) + " - " <= line
    ensures EndsWith(line, " - " + textOf(e.title.value))
    ensures |line| == |showDate(e.updated.value)| + 3 + |textOf(e.title.value)|
  {
    var line := showDate(e.updated.value) + " - " + textOf(e.title.value);
    assert line[..|showDate(e.updated.value) + " - "|] == showDate(e.updated.value) + " - ";
    assert line[|line| - |" - " + textOf(e.title.value)|..] == " - " + textOf(e.title.value);
    line
  }

  /** The activity items: one per entry, in document order. */
  function EntryLines(entries: seq<Entry>, showDate: string -> string, textOf: string -> string): (lines: seq<string>)
    requires forall i :: 0 <= i < |entries| ==> Complete(entries[i])
    ensures |lines| == |entries|
    ensures forall i :: 0 <= i < |entries| ==> lines[i] == EntryLine(entries[i], showDate, textOf)
  {
    if entries == [] then []
    else [EntryLine(entries[0], showDate, textOf)] + EntryLines(entries[1..], showDate, textOf)
  }

  /**
   * The `for` loop over the entries. An entry without a `title` or an `updated`
   * element makes the loop throw, which is `None` here.
   */
  method ActivityItems(entries: seq<Entry>, showDate: string -> string, textOf: string -> string)
    returns (items: Option<seq<string>>)
    ensures items.Some? <==> forall i :: 0 <= i < |entries| ==> Complete(entries[i])
    ensures items.Some? ==> items.value == EntryLines(entries, showDate, textOf)
  {
    var lines: seq<string> := [];
    var i := 0;
    while i < |entries|
      invariant 0 <= i <= |entries|
      invariant forall j :: 0 <= j < i ==> Complete(entries[j])
      invariant |lines| == i
      invariant forall j :: 0 <= j < i ==> lines[j] == EntryLine(entries[j], showDate, textOf)
    {
      if !Complete(entries[i]) {
        return None;
      }
      lines := lines + [EntryLine(entries[i], showDate, textOf)];
      i := i + 1;
    }
    return Some(lines);
  }

  // ---------------------------------------------------------------------------
  // The page
  // ---------------------------------------------------------------------------

  /** What the result region holds: nothing yet, a list of items, or a fixed fragment. */
  datatype Region = Blank | Items(items: seq<string>) | Markup(html: string)

  /** A request the page sent: its URL and its response type. */
  datatype Fetch = Fetch(url: string, responseType: string)

  /** The page as the user sees it, plus the requests it has sent. */
  datatype Page = Page(status: string, statusHidden: bool, result: Region, resultHidden: bool, fetches: seq<Fetch>)

  /**
   * Everything outside the page: how each request settles, the locale's date
   * formatting, the text of a title fragment, and the text of the error thrown
   * when a search resolves with no body.
   */
  datatype Environment = Environment(
    search: string -> Settled<SearchResult>,
    feed: string -> Settled<FeedDocument>,
    showDate: string -> string,
    textOf: string -> string,
    nullResultsError: string)

  const Unprocessable := "Error - unable to process query."

  function NoResultsMarkup(project: string): string
  {
    "<p>There are no results for project: " + project + "</p>"
  }

  function NoActivityMessage(user: string): string
  {
    "There are no activity results for user " + user + "."
  }

  function TicketHeading(q: Query): string
    requires q.TicketStatus?
  {
    "Displaying results for project " + q.project + " with ticket status of " + StatusLabel(q.status)
  }

  function ActivityHeading(user: Option<string>): string
  {
    "Displaying Jira activity for user " + OrUndefined(user)
  }

  /** What the result region shows for a search answer. */
  function TicketRegion(project: string, results: SearchResult): (r: Region)
    ensures results.total > 0 ==> r.Items? && |r.items| == |results.issues|
    ensures results.total > 0 ==> forall i :: 0 <= i < |results.issues| ==> r.items[i] == IssueLine(results.issues[i])
    ensures results.total <= 0 ==> r == Markup("<p>There are no results for project: " + project + "</p>")
  {
    if results.total > 0 then Items(IssueLines(results.issues)) else Markup(NoResultsMarkup(project))
  }

  function Shown(v: Page, text: string): Page
  {
    v.(status := text, statusHidden := false)
  }

  function TicketDisplayed(v: Page, q: Query, results: SearchResult): Page
    requires q.TicketStatus?
  {
    Shown(v, TicketHeading(q)).(result := TicketRegion(q.project, results), resultHidden := false)
  }

  function TicketLoaded(v: Page, q: Query, env: Environment): Page
    requires q.TicketStatus?
  {
    var url := BuildJQL(q);
    var sent := v.(fetches := v.fetches + [Fetch(url, "json")]);
    match env.search(url)
    case Rejected(reason) => Shown(sent, ErrorStatus(ReasonText(reason)))
    case Resolved(None) => Shown(sent, ErrorStatus(env.nullResultsError))
    case Resolved(Some(body)) => TicketDisplayed(sent, q, body.content)
  }

  /**
   * The feed callback. A document with no `feed` element, or an entry missing a
   * field, makes it throw before it writes anything.
   */
  function ActivityDisplayed(v: Page, user: string, doc: FeedDocument, showDate: string -> string,
                             textOf: string -> string): Page
  {
    if |doc.feeds| == 0 then v
    else
      var entries := doc.feeds[0].entries;
      if !(forall i :: 0 <= i < |entries| ==> Complete(entries[i])) then v
      else if |entries| > 0 then v.(result := Items(EntryLines(entries, showDate, textOf)), resultHidden := false)
      else Shown(v, NoActivityMessage(user)).(resultHidden := false)
  }

  /** How the feed request's settlement changes the page; a missing document throws in the callback. */
  function ActivityAnswered(v: Page, user: string, outcome: Settled<FeedDocument>, env: Environment): Page
  {
    match outcome
    case Rejected(reason) => Shown(v, ErrorStatus(ReasonText(reason)))
    case Resolved(None) => v
    case Resolved(Some(body)) => ActivityDisplayed(v, user, body.content, env.showDate, env.textOf)
  }

  /**
   * `loadActivity` as written: the missing-user error is reported synchronously,
   * then overwritten by the heading; the request's answer arrives after the heading.
   */
  function ActivityLoadedAsWritten(v: Page, q: Query, env: Environment): Page
    requires q.Activity?
  {
    var requested := match GetJIRAFeed(q.user)
      case Err(message) => Shown(v, ErrorStatus(message))
      case Ok(url) => v.(fetches := v.fetches + [Fetch(url, "")]);
    var headed := Shown(requested, ActivityHeading(q.user));
    match GetJIRAFeed(q.user)
    case Err(_) => headed
    case Ok(url) => ActivityAnswered(headed, q.user.value, env.feed(url), env)
  }

  /** `loadActivity` with the heading written first, so that a missing user's error stays visible. */
  function ActivityLoaded(v: Page, q: Query, env: Environment): Page
    requires q.Activity?
  {
    var headed := Shown(v, ActivityHeading(q.user));
    match GetJIRAFeed(q.user)
    case Err(message) => Shown(headed, ErrorStatus(message))
    case Ok(url) => ActivityAnswered(headed.(fetches := headed.fetches + [Fetch(url, "")]), q.user.value, env.feed(url), env)
  }

  /** Which flow the stored query selects. */
  datatype Flow = TicketFlow | ActivityFlow | NoFlow

  /** The dispatch on the stored query's type: a missing query or any other type selects no flow. */
  function Route(stored: Option<Query>): (f: Flow)
    ensures f == TicketFlow <==> stored.Some? && stored.value.TicketStatus?
    ensures f == ActivityFlow <==> stored.Some? && stored.value.Activity?
    ensures f == NoFlow <==> stored.None? || stored.value.Unrecognized?
  {
    match stored
    case Some(TicketStatus(_, _, _)) => TicketFlow
    case Some(Activity(_)) => ActivityFlow
    case _ => NoFlow
  }

  /** The page after the load handler, as written. */
  function Dispatched(v: Page, stored: Option<Query>, env: Environment): Page
  {
    match Route(stored)
    case TicketFlow => TicketLoaded(v, stored.value, env)
    case ActivityFlow => ActivityLoadedAsWritten(v, stored.value, env)
    case NoFlow => Shown(v, Unprocessable)
  }

  /** The page after the load handler, with the corrected activity flow. */
  function DispatchedCorrected(v: Page, stored: Option<Query>, env: Environment): Page
  {
    match Route(stored)
    case TicketFlow => TicketLoaded(v, stored.value, env)
    case ActivityFlow => ActivityLoaded(v, stored.value, env)
    case NoFlow => Shown(v, Unprocessable)
  }

  /** On every record the popup can store, the load handler and its correction agree. */
  lemma CorrectionKeepsStoredQueries(v: Page, project: string, status: string, inStatusFor: string, user: string,
                                     env: Environment)
    ensures Dispatched(v, Some(TicketStatus(project, status, inStatusFor)), env)
         == DispatchedCorrected(v, Some(TicketStatus(project, status, inStatusFor)), env)
    ensures Dispatched(v, Some(Activity(Some(user))), env) == DispatchedCorrected(v, Some(Activity(Some(user))), env)
  {
    CorrectionKeepsDefinedUsers(v, Activity(Some(user)), env);
  }

  /** Without a usable query the page shows exactly the fixed error, sends nothing and fills no region. */
  lemma UnprocessableQueryShowsError(v: Page, stored: Option<Query>, env: Environment)
    requires stored.None? || stored.value.Unrecognized?
    ensures var w := Dispatched(v, stored, env);
      w.status == Unprocessable && !w.statusHidden && w.result == v.result && w.resultHidden == v.resultHidden
      && w.fetches == v.fetches
  {
  }

  /** A ticket query sends exactly its search URL, as JSON. */
  lemma TicketQuerySendsSearch(v: Page, q: Query, env: Environment)
    requires q.TicketStatus?
    ensures Dispatched(v, Some(q), env).fetches == v.fetches + [Fetch(BuildJQL(q), "json")]
  {
  }

  /** A failed search shows 'ERROR. ' and the reason, and leaves the result region as it was. */
  lemma TicketFailureShowsError(v: Page, q: Query, env: Environment)
    requires q.TicketStatus? && env.search(BuildJQL(q)).Rejected?
    ensures var w := Dispatched(v, Some(q), env);
      w.status == "ERROR. " + ReasonText(env.search(BuildJQL(q)).reason) && !w.statusHidden
      && w.result == v.result && w.resultHidden == v.resultHidden
  {
  }

  /** A failed feed request shows 'ERROR. ' and the reason, and leaves the result region as it was. */
  lemma ActivityFailureShowsError(v: Page, user: string, env: Environment)
    requires env.feed(FeedUrl(user)).Rejected?
    ensures var w := Dispatched(v, Some(Activity(Some(user))), env);
      && w.status == "ERROR. " + ReasonText(env.feed(FeedUrl(user)).reason) && !w.statusHidden
      && w.result == v.result && w.resultHidden == v.resultHidden
      && w.fetches == v.fetches + [Fetch(FeedUrl(user), "")]
  {
  }

  /** A search with results lists one item per returned issue, in order, under the project's heading. */
  lemma TicketResultsListed(v: Page, q: Query, env: Environment, body: Body<SearchResult>)
    requires q.TicketStatus? && env.search(BuildJQL(q)) == Resolved(Some(body)) && body.content.total > 0
    ensures var w := Dispatched(v, Some(q), env);
      && w.status == "Displaying results for project " + q.project + " with ticket status of " + StatusLabel(q.status)
      && !w.statusHidden
      && w.result.Items? && |w.result.items| == |body.content.issues| && !w.resultHidden
      && forall i :: 0 <= i < |body.content.issues| ==> w.result.items[i] == IssueLine(body.content.issues[i])
  {
  }

  /** A feed with no entries replaces the heading with the no-activity message and fills no list. */
  lemma EmptyFeedKeepsRegion(v: Page, user: string, env: Environment, body: Body<FeedDocument>)
    requires env.feed(FeedUrl(user)) == Resolved(Some(body))
    requires |body.content.feeds| > 0 && body.content.feeds[0].entries == []
    ensures var w := Dispatched(v, Some(Activity(Some(user))), env);
      w.status == "There are no activity results for user " + user + "." && !w.statusHidden && w.result == v.result
      && !w.resultHidden && w.fetches == v.fetches + [Fetch(FeedUrl(user), "")]
  {
  }

  /** A feed with entries lists one item per entry, in document order, under the user's heading. */
  lemma FeedEntriesListed(v: Page, user: string, env: Environment, body: Body<FeedDocument>)
    requires env.feed(FeedUrl(user)) == Resolved(Some(body)) && |body.content.feeds| > 0
    requires var es := body.content.feeds[0].entries; |es| > 0 && forall i :: 0 <= i < |es| ==> Complete(es[i])
    ensures var w := Dispatched(v, Some(Activity(Some(user))), env);
      var es := body.content.feeds[0].entries;
      && w.status == "Displaying Jira activity for user " + user
      && w.result.Items? && |w.result.items| == |es|
      && forall i :: 0 <= i < |es| ==> w.result.items[i] == EntryLine(es[i], env.showDate, env.textOf)
  {
  }

  /** As written, a missing user's error is hidden behind the heading, which prints 'undefined'. */
  lemma UnknownUserOverwritten(v: Page, env: Environment)
    ensures var w := ActivityLoadedAsWritten(v, Activity(None), env);
      w.status == "Displaying Jira activity for user undefined" && w.status != ErrorStatus(UnknownUser)
      && w.fetches == v.fetches
  {
  }

  /** Corrected, a missing user leaves 'ERROR. Unknown user' on the page and sends nothing. */
  lemma UnknownUserReported(v: Page, env: Environment)
    ensures var w := ActivityLoaded(v, Activity(None), env);
      w.status == "ERROR. Unknown user" && !w.statusHidden && w.fetches == v.fetches && w.result == v.result
  {
  }

  /** The correction changes nothing when the user is present. */
  lemma CorrectionKeepsDefinedUsers(v: Page, q: Query, env: Environment)
    requires q.Activity? && q.user.Some?
    ensures ActivityLoaded(v, q, env) == ActivityLoadedAsWritten(v, q, env)
  {
  }

  /** The results page's two regions and the requests it has sent. */
  class ResultsPage {
    var status: string
    var statusHidden: bool
    var result: Region
    var resultHidden: bool
    var fetches: seq<Fetch>

    ghost function View(): Page
      reads this
    {
      Page(status, statusHidden, result, resultHidden, fetches)
    }

    /** A freshly opened results page: both regions empty and hidden, nothing sent. */
    constructor ()
      ensures View() == Page("", true, Blank, true, [])
    {
      status, statusHidden, result, resultHidden, fetches := "", true, Blank, true, [];
    }

    /** Writes the status element and shows it. */
    method ShowStatus(text: string)
      modifies this
      ensures View() == Shown(old(View()), text)
    {
      status, statusHidden := text, false;
    }

    /** `displayTicketStatus`: the heading, then the issue list or the no-results fragment. */
    method DisplayTicketStatus(q: Query, results: SearchResult)
      requires q.TicketStatus?
      modifies this
      ensures View() == TicketDisplayed(old(View()), q, results)
    {
      var ticketStatus := StatusLabel(q.status);
      ShowStatus("Displaying results for project " + q.project + " with ticket status of " + ticketStatus);
      if results.total > 0 {
        var items := IssueItems(results.issues);
        result := Items(items);
      } else {
        result := Markup(NoResultsMarkup(q.project));
      }
      resultHidden := false;
    }

    /** `loadTicketStatus`: send the search, then render its answer or its failure. */
    method LoadTicketStatus(q: Query, env: Environment)
      requires q.TicketStatus?
      modifies this
      ensures View() == TicketLoaded(old(View()), q, env)
    {
      var url := BuildJQL(q);
      fetches := fetches + [Fetch(url, "json")];
      match env.search(url)
      case Rejected(reason) =>
        ShowStatus(ErrorStatus(ReasonText(reason)));
      case Resolved(None) =>
        ShowStatus(ErrorStatus(env.nullResultsError));
      case Resolved(Some(body)) =>
        DisplayTicketStatus(q, body.content);
    }

    /** `displayActivity`: the entry list, or the no-activity message when there are no entries. */
    method DisplayActivity(user: string, doc: FeedDocument, showDate: string -> string, textOf: string -> string)
      modifies this
      ensures View() == ActivityDisplayed(old(View()), user, doc, showDate, textOf)
    {
      if |doc.feeds| == 0 {
        return;
      }
      var items := ActivityItems(doc.feeds[0].entries, showDate, textOf);
      if items.None? {
        return;
      }
      if |items.value| > 0 {
        result := Items(items.value);
      } else {
        ShowStatus(NoActivityMessage(user));
      }
      resultHidden := false;
    }

    /** Applies the feed request's settlement. */
    method AnswerActivity(user: string, outcome: Settled<FeedDocument>, env: Environment)
      modifies this
      ensures View() == ActivityAnswered(old(View()), user, outcome, env)
    {
      match outcome
      case Rejected(reason) =>
        ShowStatus(ErrorStatus(ReasonText(reason)));
      case Resolved(None) =>
      case Resolved(Some(body)) =>
        DisplayActivity(user, body.content, env.showDate, env.textOf);
    }

    /** `loadActivity` in the order the source runs it. */
    method LoadActivityAsWritten(q: Query, env: Environment)
      requires q.Activity?
      modifies this
      ensures View() == ActivityLoadedAsWritten(old(View()), q, env)
    {
      var feed := GetJIRAFeed(q.user);
      match feed {
        case Err(message) =>
          ShowStatus(ErrorStatus(message));
        case Ok(url) =>
          fetches := fetches + [Fetch(url, "")];
      }
      ShowStatus(ActivityHeading(q.user));
      if feed.Ok? {
        AnswerActivity(q.user.value, env.feed(feed.value), env);
      }
    }

    /** `loadActivity` with the heading first, so the missing-user error is the last word. */
    method LoadActivity(q: Query, env: Environment)
      requires q.Activity?
      modifies this
      ensures View() == ActivityLoaded(old(View()), q, env)
    {
      ShowStatus(ActivityHeading(q.user));
      var feed := GetJIRAFeed(q.user);
      match feed
      case Err(message) =>
        ShowStatus(ErrorStatus(message));
      case Ok(url) =>
        fetches := fetches + [Fetch(url, "")];
        AnswerActivity(q.user.value, env.feed(url), env);
    }

    /** The DOMContentLoaded handler: dispatch on the stored query's type. */
    method OnContentLoaded(stored: Option<Query>, env: Environment)
      modifies this
      ensures View() == Dispatched(old(View()), stored, env)
    {
      match Route(stored)
      case TicketFlow =>
        LoadTicketStatus(stored.value, env);
      case ActivityFlow =>
        LoadActivityAsWritten(stored.value, env);
      case NoFlow =>
        ShowStatus(Unprocessable);
    }

    /** The DOMContentLoaded handler with the corrected activity flow. */
    method OnContentLoadedCorrected(stored: Option<Query>, env: Environment)
      modifies this
      ensures View() == DispatchedCorrected(old(View()), stored, env)
    {
      match Route(stored)
      case TicketFlow =>
        LoadTicketStatus(stored.value, env);
      case ActivityFlow =>
        LoadActivity(stored.value, env);
      case NoFlow =>
        ShowStatus(Unprocessable);
    }
  }
}
