/**
 * The public-event search page: the list request built from the search box
 * (name search or upcoming events), the loading flag around the request,
 * and the text shown when the list comes back empty.
 */
module Search {
  import opened Strings
  import opened Wrappers
  import opened Landing

  const PublicClause: string := "visibility = \"public\""

  /** What the page asks for: events whose name matches the trimmed query,
      or, for a blank query, the upcoming public events. */
  datatype SearchKind = NameSearch(term: string) | Upcoming

  function KindOf(query: string): (k: SearchKind)
    ensures k.NameSearch? <==> !IsBlank(query)
    ensures k.NameSearch? ==> k.term == Trim(query) && k.term != ""
  {
    var term := Trim(query);
    if term != "" then NameSearch(term) else Upcoming
  }

  /** The search is about what is typed, not about the spaces around it. */
  lemma KindIgnoresPadding(query: string)
    ensures KindOf(Trim(query)) == KindOf(query)
  {
    TrimIdempotent(query);
  }

  /** The `getList` arguments: filter, sort key and page size. */
  datatype ListRequest = ListRequest(filter: string, sort: string, perPage: nat)

  /** The request `fetchEvents` builds, `nowIso` standing for the current
      time as an ISO string. The filter always starts with the public
      clause; a name search adds a `name ~` clause on the trimmed query and
      lists 50 events, newest first; otherwise only events starting from now
      are listed, 5 of them, soonest first. */
  method BuildRequest(query: string, nowIso: string) returns (r: ListRequest)
    ensures StartsWith(r.filter, PublicClause)
    ensures KindOf(query).NameSearch? ==>
              r == ListRequest(PublicClause + (" && name ~ \"" + KindOf(query).term + "\""), "-start_date", 50)
    ensures KindOf(query).Upcoming? ==>
              r == ListRequest(PublicClause + (" && start_date >= \"" + nowIso + "\""), "start_date", 5)
  {
    var filter := PublicClause;
    var sort := "start_date";
    var perPage := 50;
    var clause;
    if Trim(query) != "" {
      clause := " && name ~ \"" + Trim(query) + "\"";
      sort := "-start_date";
    } else {
      clause := " && start_date >= \"" + nowIso + "\"";
      perPage := 5;
    }
    PrefixOfAppend(filter, clause);
    filter := filter + clause;
    r := ListRequest(filter, sort, perPage);
  }

  const NoMatchMessage: string := "No events found matching your search."
  const NoUpcomingMessage: string := "No upcoming public events found."

  /** The empty-list text as the page chooses it: from whether the raw,
      untrimmed query is non-empty. */
  function EmptyMessageAsWritten(query: string): (m: string)
    ensures m == NoMatchMessage <==> query != ""
    ensures m == NoUpcomingMessage <==> query == ""
  {
    if query != "" then NoMatchMessage else NoUpcomingMessage
  }

  /** A query of one space lists the upcoming events, yet an empty result
      is reported as a failed name search. */
  lemma EmptyMessageMismatch()
    ensures KindOf(" ").Upcoming?
    ensures EmptyMessageAsWritten(" ") == NoMatchMessage
  {
    assert IsWhitespace(" "[0]);
  }

  /** The empty-list text chosen by the same test as the request. */
  function EmptyMessage(query: string): (m: string)
    ensures m == NoMatchMessage <==> KindOf(query).NameSearch?
    ensures m == NoUpcomingMessage <==> KindOf(query).Upcoming?
  {
    if Trim(query) != "" then NoMatchMessage else NoUpcomingMessage
  }

  /** Both texts agree whenever the query has no surrounding blanks. */
  lemma EmptyMessagesAgreeOnTrimmed(query: string)
    requires Trim(query) == query
    ensures EmptyMessage(query) == EmptyMessageAsWritten(query)
  {
  }

  /** What the result area shows. */
  datatype ResultsView = ShowLoading | ShowEvents(events: seq<EventRecord>) | ShowEmpty(message: string)

  class SearchPage {
    var query: string
    var events: seq<EventRecord>
    var loading: bool

    constructor ()
      ensures query == "" && events == [] && loading
    {
      query := "";
      events := [];
      loading := true;
    }

    /** Typing into the search box; the debounced fetch follows. */
    method SetQuery(q: string)
      modifies this`query
      ensures query == q
    {
      query := q;
    }

    /** The start of `fetchEvents`: loading is shown and the request built
        from the current query is returned. */
    method StartFetch(nowIso: string) returns (request: ListRequest)
      modifies this`loading
      ensures loading
      ensures StartsWith(request.filter, PublicClause)
      ensures KindOf(query).NameSearch? <==> request.sort == "-start_date"
      ensures KindOf(query).NameSearch? ==>
                request == ListRequest(PublicClause + (" && name ~ \"" + KindOf(query).term + "\""), "-start_date", 50)
      ensures KindOf(query).Upcoming? ==>
                request == ListRequest(PublicClause + (" && start_date >= \"" + nowIso + "\""), "start_date", 5)
    {
      loading := true;
      request := BuildRequest(query, nowIso);
    }

    /** The end of `fetchEvents`: the events replace the list when the
        request succeeded (`None` when it failed); loading ends either way. */
    method CompleteFetch(result: Option<seq<EventRecord>>)
      modifies this`events, this`loading
      ensures !loading
      ensures result.Some? ==> events == result.value
      ensures result.None? ==> events == old(events)
    {
      if result.Some? {
        events := result.value;
      }
      loading := false;
    }

    /** The result area: loading first, then the events, then the empty
        text (chosen by the same test as the request). */
    function View(): (v: ResultsView)
      reads this
      ensures loading <==> v.ShowLoading?
      ensures !loading && events != [] ==> v == ShowEvents(events)
      ensures !loading && events == [] ==> v == ShowEmpty(EmptyMessage(query))
      ensures !loading && events == [] && Trim(query) == query ==> v == ShowEmpty(EmptyMessageAsWritten(query))
    {
      if loading then ShowLoading
      else if |events| > 0 then ShowEvents(events)
      else ShowEmpty(EmptyMessage(query))
    }
  }
}
