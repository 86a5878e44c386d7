/**
 * The admin dashboard page: per-contest counting over the fetched registrations,
 * the client-side search and contest filter, and the page state that ties them
 * together (sign-in, card and filter selection, CSV export parameters).
 */
module Dashboard {
  import opened Wrappers
  import opened Sequences
  import opened Text
  import opened Types
  import opened Store
  import AdminApi

  /** The contest selector and the stat cards: every contest, or one of them. */
  datatype ContestChoice = All | Only(contest: Contest)

  /** `{ total, byContest }`, where `byContest` holds only the contests that occurred. */
  datatype Stats = Stats(total: nat, byContest: map<Contest, nat>)

  /** The number of registrations in `data` for contest `c`, counted from the end. */
  function Count(data: seq<Registration>, c: Contest): nat
  {
    if data == [] then 0
    else Count(data[..|data| - 1], c) + (if data[|data| - 1].contest == c then 1 else 0)
  }

  /** `stats` is the tally of `data`: its length, and the count of every contest that occurs. */
  predicate Describes(stats: Stats, data: seq<Registration>)
  {
    stats.total == |data|
    && (forall c :: c in stats.byContest <==> Count(data, c) > 0)
    && (forall c :: c in stats.byContest ==> stats.byContest[c] == Count(data, c))
  }

  /** The count a card shows: `stats.byContest[c] || 0`. */
  function Shown(stats: Stats, c: Contest): nat
  {
    if c in stats.byContest then stats.byContest[c] else 0
  }

  /** `calculateStats`: folds the registrations into a map from contest to count. */
  method CalculateStats(data: seq<Registration>) returns (stats: Stats)
    ensures Describes(stats, data)
  {
    var acc: map<Contest, nat> := map[];
    for i := 0 to |data|
      invariant forall c :: c in acc <==> Count(data[..i], c) > 0
      invariant forall c :: c in acc ==> acc[c] == Count(data[..i], c)
    {
      var c := data[i].contest;
      var prev := if c in acc then acc[c] else 0;
      acc := acc[c := prev + 1];
      assert data[..i + 1][..i] == data[..i];
    }
    assert data[..|data|] == data;
    stats := Stats(|data|, acc);
  }

  /** A card shows the number of registrations for its contest, zero included. */
  lemma {:induction false} ShownIsCount(stats: Stats, data: seq<Registration>, c: Contest)
    requires Describes(stats, data)
    ensures Shown(stats, c) == Count(data, c)
  {
  }

  /** The tally of a list is unique. */
  lemma {:induction false} DescribesUnique(s1: Stats, s2: Stats, data: seq<Registration>)
    requires Describes(s1, data) && Describes(s2, data)
    ensures s1 == s2
  {
    assert s1.byContest == s2.byContest;
  }

  /** Every registration is counted under exactly one contest. */
  lemma {:induction false} CountsPartition(data: seq<Registration>)
    ensures Count(data, NONE) + Count(data, SUPERMOM) + Count(data, CUTESTBABY)
            + Count(data, SENIORCITIZEN) + Count(data, GENERAL) == |data|
  {
    if data != [] {
      CountsPartition(data[..|data| - 1]);
    }
  }

  /** The sum of the four contest cards the page renders: SUPERMOM, CUTESTBABY, SENIORCITIZEN and GENERAL. */
  function CardSum(stats: Stats): nat
  {
    Shown(stats, SUPERMOM) + Shown(stats, CUTESTBABY) + Shown(stats, SENIORCITIZEN) + Shown(stats, GENERAL)
  }

  /**
   * There is no NONE card, so the four contest cards fall short of the total card by
   * the registrations without a contest, and add up to it exactly when there are none.
   */
  lemma {:induction false} ShownSumToTotal(stats: Stats, data: seq<Registration>)
    requires Describes(stats, data)
    ensures CardSum(stats) + Count(data, NONE) == stats.total
    ensures CardSum(stats) == stats.total <==> Count(data, NONE) == 0
  {
    CountsPartition(data);
  }

  // ---------------------------------------------------------------- filtering

  /**
   * The search box: no term matches everything; otherwise the name or the email
   * (when present and non-empty) ignoring case, or the WhatsApp number exactly.
   */
  predicate MatchesSearch(r: Registration, term: string)
  {
    term == ""
    || IncludesIgnoringCase(r.name, term)
    || Includes(r.whatsapp, term)
    || (r.email.Some? && r.email.value != "" && IncludesIgnoringCase(r.email.value, term))
  }

  predicate MatchesContest(r: Registration, choice: ContestChoice)
  {
    choice.All? || r.contest == choice.contest
  }

  predicate Shows(term: string, choice: ContestChoice, r: Registration)
  {
    MatchesSearch(r, term) && MatchesContest(r, choice)
  }

  /** `filteredRegistrations`: the full list when it is non-empty, else the last fetched list, filtered. */
  function Filtered(all: seq<Registration>, fetched: seq<Registration>, term: string,
                    choice: ContestChoice): (shown: seq<Registration>)
    ensures var source := if |all| > 0 then all else fetched;
      forall r :: multiset(shown)[r] == (if Shows(term, choice, r) then multiset(source)[r] else 0)
  {
    var p := (r: Registration) => Shows(term, choice, r);
    FilterMultiset(if |all| > 0 then all else fetched, p);
    Filter(if |all| > 0 then all else fetched, p)
  }

  /** With no search term and every contest selected, the whole list is shown. */
  lemma {:induction false} FilteredUnfiltered(all: seq<Registration>, fetched: seq<Registration>)
    ensures Filtered(all, fetched, "", All) == if |all| > 0 then all else fetched
  {
    FilterKeepsAll(if |all| > 0 then all else fetched, (r: Registration) => Shows("", All, r));
  }

  /** The shown list keeps the order of the list it is taken from, and each entry passes both filters. */
  lemma {:induction false} FilteredIsSubsequence(all: seq<Registration>, fetched: seq<Registration>, term: string,
                              choice: ContestChoice)
    ensures IsSubsequence(Filtered(all, fetched, term, choice), if |all| > 0 then all else fetched)
    ensures forall i :: 0 <= i < |Filtered(all, fetched, term, choice)| ==>
      var r := Filtered(all, fetched, term, choice)[i];
      MatchesSearch(r, term) && (choice.Only? ==> r.contest == choice.contest)
  {
    FilterIsSubsequence(if |all| > 0 then all else fetched, (r: Registration) => Shows(term, choice, r));
  }

  /** A newest-first list stays newest first once filtered. */
  lemma {:induction false} FilteredNewestFirst(all: seq<Registration>, term: string, choice: ContestChoice)
    requires NewestFirst(all)
    ensures NewestFirst(Filtered(all, [], term, choice))
  {
    var p := (r: Registration) => Shows(term, choice, r);
    FilterNewestFirst(all, p);
  }

  lemma {:induction false} FilterNewestFirst(s: seq<Registration>, p: Registration -> bool)
    requires NewestFirst(s)
    ensures NewestFirst(Filter(s, p))
  {
    if s != [] {
      FilterNewestFirst(s[1..], p);
      FilterNoNewer(s[1..], p, s[0].createdAt.millis);
    }
  }

  /** Filtering records none newer than `m` leaves records none newer than `m`. */
  lemma {:induction false} FilterNoNewer(s: seq<Registration>, p: Registration -> bool, m: nat)
    requires forall i :: 0 <= i < |s| ==> s[i].createdAt.millis <= m
    ensures forall j :: 0 <= j < |Filter(s, p)| ==> Filter(s, p)[j].createdAt.millis <= m
  {
    if s != [] {
      FilterNoNewer(s[1..], p, m);
    }
  }

  // ---------------------------------------------------------------- agreement with the server

  /** The `contest` parameter of the export request: absent for `ALL`. */
  function ContestParam(choice: ContestChoice): Option<string>
  {
    if choice.All? then None else Some(Key(choice.contest))
  }

  /** The `search` parameter of the export request: absent for an empty term. */
  function SearchParam(term: string): Option<string>
  {
    if term == "" then None else Some(term)
  }

  /** An empty email never matches a non-empty term, so the page's email guard changes nothing. */
  lemma {:induction false} EmptyNeverIncludes(term: string)
    requires term != ""
    ensures !IncludesIgnoringCase("", term)
  {
  }

  /** The page's filter selects exactly the records the server's query selects for the export parameters. */
  lemma {:induction false} ShowsAgreesWithServer(term: string, choice: ContestChoice, r: Registration)
    ensures Shows(term, choice, r) == AdminApi.Selected(ContestParam(choice), SearchParam(term), r)
  {
    if term != "" {
      EmptyNeverIncludes(term);
    }
  }

  /**
   * The listing the server returns for the page's export parameters holds the same
   * registrations, with the same multiplicities, as the page shows when it holds the
   * whole store; the CSV export renders that listing.
   */
  lemma {:induction false} ExportMatchesView(password: string, secret: Option<string>, term: string,
                          choice: ContestChoice, todayIso: string, store: seq<Registration>)
    requires AdminApi.Authorized(Some(password), secret)
    ensures var json := AdminApi.Get(Some(password), secret, ContestParam(choice), SearchParam(term),
                                     None, todayIso, store);
      json.Listing? && multiset(json.data) == multiset(Filtered(store, [], term, choice))
  {
    var contest := ContestParam(choice);
    var search := SearchParam(term);
    var json := AdminApi.Get(Some(password), secret, contest, search, None, todayIso, store);
    if choice.Only? {
      ParseContestRoundTrip(choice.contest);
    }
    assert json.Listing?;
    AdminApi.ListingContents(Some(password), secret, contest, search, None, todayIso, store);
    var p := (r: Registration) => Shows(term, choice, r);
    FilterMultiset(store, p);
    forall r ensures multiset(json.data)[r] == multiset(Filtered(store, [], term, choice))[r] {
      ShowsAgreesWithServer(term, choice, r);
    }
  }

  // ---------------------------------------------------------------- the page

  /** The dashboard's state. */
  class AdminPage {
    var isAuthenticated: bool
    var password: string
    var registrations: seq<Registration>
    var allRegistrations: seq<Registration>
    var searchTerm: string
    var selectedContest: ContestChoice
    var activeCard: ContestChoice
    var stats: Stats
    var error: string

    /** The cards always count the full list, whatever the filters show. */
    ghost predicate Valid()
      reads this
    {
      Describes(stats, allRegistrations)
    }

    constructor()
      ensures Valid()
      ensures !isAuthenticated && password == "" && registrations == [] && allRegistrations == []
      ensures searchTerm == "" && selectedContest == All && activeCard == All && error == ""
      ensures stats == Stats(0, map[])
    {
      isAuthenticated := false;
      password := "";
      registrations := [];
      allRegistrations := [];
      searchTerm := "";
      selectedContest := All;
      activeCard := All;
      stats := Stats(0, map[]);
      error := "";
    }

    /** The password field. */
    method SetPassword(p: string)
      modifies this
      requires Valid()
      ensures Valid()
      ensures password == p
      ensures isAuthenticated == old(isAuthenticated) && stats == old(stats)
      ensures allRegistrations == old(allRegistrations) && registrations == old(registrations)
      ensures searchTerm == old(searchTerm) && selectedContest == old(selectedContest)
      ensures activeCard == old(activeCard) && error == old(error)
    {
      password := p;
    }

    /**
     * `authenticate`: nothing happens without a password; otherwise the answer to the
     * unfiltered request made with the password as the secret header is taken in. A
     * successful answer fills both lists and the stats; any other sets the error.
     */
    method Authenticate(response: AdminApi.AdminResponse)
      modifies this
      requires Valid()
      ensures Valid()
      ensures password == old(password) && searchTerm == old(searchTerm)
      ensures selectedContest == old(selectedContest) && activeCard == old(activeCard)
      ensures old(password) == "" ==> unchanged(this)
      ensures old(password) != "" && response.Listing? ==>
        isAuthenticated && allRegistrations == response.data && registrations == response.data
        && error == old(error)
      ensures old(password) != "" && !response.Listing? ==>
        error == "Invalid password"
        && isAuthenticated == old(isAuthenticated) && allRegistrations == old(allRegistrations)
        && registrations == old(registrations) && stats == old(stats)
    {
      if password == "" {
        return;
      }
      if response.Listing? {
        registrations := response.data;
        allRegistrations := response.data;
        isAuthenticated := true;
        stats := CalculateStats(response.data);
      } else {
        error := "Invalid password";
      }
    }

    /** A stat card or the contest selector picks a contest; the cards keep their counts. */
    method SelectContest(choice: ContestChoice, fromCard: bool)
      modifies this
      requires Valid()
      ensures Valid()
      ensures selectedContest == choice
      ensures activeCard == if fromCard then choice else old(activeCard)
      ensures stats == old(stats) && allRegistrations == old(allRegistrations)
      ensures registrations == old(registrations) && searchTerm == old(searchTerm)
      ensures isAuthenticated == old(isAuthenticated) && password == old(password) && error == old(error)
    {
      selectedContest := choice;
      if fromCard {
        activeCard := choice;
      }
    }

    /** The search box; the cards keep their counts. */
    method SetSearchTerm(term: string)
      modifies this
      requires Valid()
      ensures Valid()
      ensures searchTerm == term
      ensures stats == old(stats) && allRegistrations == old(allRegistrations)
      ensures registrations == old(registrations) && selectedContest == old(selectedContest)
      ensures activeCard == old(activeCard)
      ensures isAuthenticated == old(isAuthenticated) && password == old(password) && error == old(error)
    {
      searchTerm := term;
    }

    /** The table's rows. */
    function Visible(): seq<Registration>
      reads this
    {
      Filtered(allRegistrations, registrations, searchTerm, selectedContest)
    }
  }
}
