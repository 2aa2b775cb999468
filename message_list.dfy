/**
 * The message list of one tab: a client-side search over the question and response of
 * the messages already fetched, and the choice between spinner, empty state and cards.
 */
module MessageList {
  import opened MessageTypes
  import Seqs
  import Strings

  /** A message matches an already lower-cased query when its lower-cased question or response contains it. */
  function Matches(m: Message, query: string): (r: bool)
    ensures query == "" ==> r
    ensures r ==> |query| <= |m.question| || |query| <= |m.response|
  {
    assert query == "" ==> Strings.OccursAt(Strings.ToLower(m.question), query, 0);
    Strings.Contains(Strings.ToLower(m.question), query) || Strings.Contains(Strings.ToLower(m.response), query)
  }

  /**
   * The messages the list shows for a search query. A query that is blank after trimming
   * shows the whole list; any other query is lower-cased, but not trimmed, and keeps the
   * messages that match it, in their order.
   */
  function SearchFilter(messages: seq<Message>, searchQuery: string): (r: seq<Message>)
    ensures Strings.AllSpace(searchQuery) ==> r == messages
    ensures Seqs.SubsequenceOf(r, messages)
    ensures !Strings.AllSpace(searchQuery) ==>
      forall i :: 0 <= i < |r| ==> Matches(r[i], Strings.ToLower(searchQuery))
    ensures !Strings.AllSpace(searchQuery) ==>
      forall i :: 0 <= i < |messages| && Matches(messages[i], Strings.ToLower(searchQuery)) ==> messages[i] in r
    ensures !Strings.AllSpace(searchQuery) ==> forall x ::
      multiset(r)[x] == if Matches(x, Strings.ToLower(searchQuery)) then multiset(messages)[x] else 0
  {
    if Strings.Trim(searchQuery) == "" then
      Seqs.SubsequenceRefl(messages);
      messages
    else
      var query := Strings.ToLower(searchQuery);
      Seqs.FilterMultiset(messages, (m: Message) => Matches(m, query));
      Seqs.Filter(messages, (m: Message) => Matches(m, query))
  }

  /**
   * Because the query is not trimmed for matching, a query holding a space only keeps
   * messages whose question or response holds a space too.
   */
  lemma SpacesInQueryMustOccur(messages: seq<Message>, searchQuery: string, k: nat)
    requires !Strings.AllSpace(searchQuery) && k < |searchQuery| && searchQuery[k] == ' '
    ensures forall m :: m in SearchFilter(messages, searchQuery) ==>
      ' ' in Strings.ToLower(m.question) || ' ' in Strings.ToLower(m.response)
  {
    var query := Strings.ToLower(searchQuery);
    assert query[k] == ' ';
    forall m | m in SearchFilter(messages, searchQuery)
      ensures ' ' in Strings.ToLower(m.question) || ' ' in Strings.ToLower(m.response)
    {
      var r := SearchFilter(messages, searchQuery);
      var i :| 0 <= i < |r| && r[i] == m;
      assert Matches(m, query);
      if Strings.Contains(Strings.ToLower(m.question), query) {
        Strings.ContainsChars(Strings.ToLower(m.question), query, k);
      } else {
        Strings.ContainsChars(Strings.ToLower(m.response), query, k);
      }
    }
  }

  /** The status a list is for: one of the four, or all of them. */
  datatype ListStatus = OneStatus(status: Status) | AllStatuses

  /** The status as the list's prop spells it. */
  function ListStatusName(s: ListStatus): (r: string)
    ensures s.OneStatus? ==> r == StatusName(s.status)
    ensures r == "ALL" <==> s.AllStatuses?
  {
    match s
    case OneStatus(st) => StatusName(st)
    case AllStatuses => "ALL"
  }

  /** The text of the empty state: a search miss when any query text was typed, else "no <status> messages". */
  function EmptyStateText(searchQuery: string, status: ListStatus): (r: string)
    ensures searchQuery != "" ==> r == "No messages match your search"
    ensures searchQuery == "" ==> r == "No " + Strings.ToLower(ListStatusName(status)) + " messages found"
  {
    if searchQuery != "" then "No messages match your search"
    else "No " + Strings.ToLower(ListStatusName(status)) + " messages found"
  }

  /** What the list renders. */
  datatype ListScreen = Spinner | EmptyState(text: string) | Cards(shown: seq<Message>)

  /** Loading wins; then an empty filtered list shows the empty state; otherwise one card per shown message. */
  function ListView(loading: bool, filteredMessages: seq<Message>, searchQuery: string, status: ListStatus): (r: ListScreen)
    ensures loading ==> r == Spinner
    ensures !loading && filteredMessages == [] ==> r == EmptyState(EmptyStateText(searchQuery, status))
    ensures !loading && filteredMessages != [] ==> r == Cards(filteredMessages)
  {
    if loading then Spinner
    else if filteredMessages == [] then EmptyState(EmptyStateText(searchQuery, status))
    else Cards(filteredMessages)
  }

  /**
   * A query of spaces filters nothing out, yet on an empty list it still reports a search
   * miss rather than "no messages", because the empty-state text tests the untrimmed query.
   */
  lemma BlankQueryEmptyState(searchQuery: string, status: ListStatus)
    requires searchQuery != "" && Strings.AllSpace(searchQuery)
    ensures SearchFilter([], searchQuery) == []
    ensures ListView(false, SearchFilter([], searchQuery), searchQuery, status) == EmptyState("No messages match your search")
  {
  }

  /** The list's own state: the search box and the messages it currently shows. */
  class ListState {
    var searchQuery: string
    var filteredMessages: seq<Message>

    /** Mounted with an empty query, showing the messages it was given. */
    constructor (messages: seq<Message>)
      ensures searchQuery == "" && filteredMessages == messages
    {
      searchQuery := "";
      filteredMessages := messages;
    }

    /** `handleSearchChange`: only the query changes; the effect below recomputes the list. */
    method HandleSearchChange(value: string)
      modifies this`searchQuery
      ensures searchQuery == value
    {
      searchQuery := value;
    }

    /** The effect run when the query or the messages change. */
    method Refresh(messages: seq<Message>)
      modifies this`filteredMessages
      ensures filteredMessages == SearchFilter(messages, searchQuery)
    {
      if Strings.Trim(searchQuery) == "" {
        filteredMessages := messages;
      } else {
        var query := Strings.ToLower(searchQuery);
        filteredMessages := Seqs.Filter(messages, (m: Message) => Matches(m, query));
      }
    }
  }
}
