/**
 * The admin registrations endpoint: a shared-secret gate, a query built from the
 * `contest` and `search` parameters, the store's newest-first listing, and either a
 * JSON listing or a CSV export of the same rows.
 */
module AdminApi {
  import opened Wrappers
  import opened Sequences
  import opened Text
  import opened Types
  import opened Store

  // ---------------------------------------------------------------- the gate

  /**
   * The `x-admin-secret` header against the configured secret, compared with `!==`:
   * an absent header (`null`) never equals an unset secret (`undefined`).
   */
  predicate Authorized(header: Option<string>, secret: Option<string>): (ok: bool)
    ensures ok <==> header.Some? && header == secret
    ensures secret.None? ==> !ok
  {
    header.Some? && secret.Some? && header.value == secret.value
  }

  // ---------------------------------------------------------------- the query

  /** The `where` clause handed to the store: an optional contest and an optional search text. */
  datatype Where = Where(contest: Option<string>, search: Option<string>)

  /** Keeps `contest` unless it is missing, empty or `ALL`; keeps `search` unless it is missing or empty. */
  function BuildWhere(contest: Option<string>, search: Option<string>): (w: Where)
    ensures w.contest.Some? ==> w.contest == contest && w.contest.value != "" && w.contest.value != "ALL"
    ensures w.search.Some? ==> w.search == search && w.search.value != ""
    ensures forall r :: Matches(w, r) <==> Selected(contest, search, r)
  {
    Where(
      if contest.Some? && contest.value != "" && contest.value != "ALL" then contest else None,
      if search.Some? && search.value != "" then search else None)
  }

  /** The three `OR` alternatives: name and email ignoring case, WhatsApp number exactly. */
  predicate SearchHit(r: Registration, q: string)
  {
    IncludesIgnoringCase(r.name, q) || Includes(r.whatsapp, q)
    || (r.email.Some? && IncludesIgnoringCase(r.email.value, q))
  }

  /** A record satisfies a `where` clause. */
  predicate Matches(w: Where, r: Registration)
  {
    (w.contest.None? || Key(r.contest) == w.contest.value)
    && (w.search.None? || SearchHit(r, w.search.value))
  }

  /**
   * `findMany` with `orderBy: { createdAt: 'desc' }`. A contest that is not a member of
   * the enum makes the store reject the query.
   */
  function FindMany(store: seq<Registration>, w: Where): (r: Option<seq<Registration>>)
    ensures r.None? <==> w.contest.Some? && ParseContest(w.contest.value).None?
    ensures r.Some? ==> NewestFirst(r.value)
    ensures r.Some? ==> forall i :: 0 <= i < |r.value| ==> Matches(w, r.value[i])
  {
    if w.contest.Some? && ParseContest(w.contest.value).None? then None
    else
      var p := (r: Registration) => Matches(w, r);
      var hits := Filter(store, p);
      var sorted := SortNewestFirst(hits);
      PermutationKeeps(hits, sorted, p);
      Some(sorted)
  }

  // ---------------------------------------------------------------- CSV rendering

  const CSV_HEADERS: seq<string> := [
    "ID", "Name", "Age", "WhatsApp", "Email", "Contest", "Message",
    "Number of Children", "Photo URL", "Video URL", "Registration Date", "IP Address"]

  /** `value || ''` on an optional text column. */
  function TextOrEmpty(v: Option<string>): string
  {
    v.GetOr("")
  }

  /** `value || ''` on an optional number column: absent and zero both print as nothing. */
  function NumberOrEmpty(v: Option<int>): string
  {
    if v.None? || v.value == 0 then "" else IntToString(v.value)
  }

  /** A number column is empty exactly when the value is absent or zero, and otherwise parses back to it. */
  lemma {:induction false} NumberOrEmptyReadsBack(v: Option<int>)
    ensures NumberOrEmpty(v) == "" <==> v.None? || v.value == 0
    ensures NumberOrEmpty(v) != "" ==> ParseInt(NumberOrEmpty(v)) == Some(v.value)
  {
    if v.Some? && v.value != 0 {
      ParseIntRoundTrip(v.value);
    }
  }

  /** The twelve fields of one record, in the order of `CSV_HEADERS`. */
  function CsvFields(r: Registration): (fs: seq<string>)
    ensures |fs| == |CSV_HEADERS|
  {
    [r.id, r.name, NumberOrEmpty(r.age), r.whatsapp, TextOrEmpty(r.email), Key(r.contest),
     TextOrEmpty(r.message), NumberOrEmpty(r.numberOfChildren), TextOrEmpty(r.photoUrl),
     TextOrEmpty(r.videoUrl), r.createdAt.iso, TextOrEmpty(r.ipAddress)]
  }

  /** What a column with the given header means for a record, looked up by the header's name. */
  function ColumnValue(header: string, r: Registration): string
  {
    match header
    case "ID" => r.id
    case "Name" => r.name
    case "Age" => NumberOrEmpty(r.age)
    case "WhatsApp" => r.whatsapp
    case "Email" => TextOrEmpty(r.email)
    case "Contest" => Key(r.contest)
    case "Message" => TextOrEmpty(r.message)
    case "Number of Children" => NumberOrEmpty(r.numberOfChildren)
    case "Photo URL" => TextOrEmpty(r.photoUrl)
    case "Video URL" => TextOrEmpty(r.videoUrl)
    case "Registration Date" => r.createdAt.iso
    case "IP Address" => TextOrEmpty(r.ipAddress)
    case _ => ""
  }

  /** Every field sits under the header that names it. */
  lemma {:induction false} CsvFieldsFollowHeader(r: Registration)
    ensures forall k :: 0 <= k < |CSV_HEADERS| ==> CsvFields(r)[k] == ColumnValue(CSV_HEADERS[k], r)
  {
    forall k | 0 <= k < |CSV_HEADERS|
      ensures CsvFields(r)[k] == ColumnValue(CSV_HEADERS[k], r)
    {
      ColumnFollowsHeader(r, k);
    }
  }

  lemma {:induction false} ColumnFollowsHeader(r: Registration, k: nat)
    requires k < |CSV_HEADERS|
    ensures CsvFields(r)[k] == ColumnValue(CSV_HEADERS[k], r)
  {
    if k == 0 { Column0(r); }
    else if k == 1 { Column1(r); }
    else if k == 2 { Column2(r); }
    else if k == 3 { Column3(r); }
    else if k == 4 { Column4(r); }
    else if k == 5 { Column5(r); }
    else if k == 6 { Column6(r); }
    else if k == 7 { Column7(r); }
    else if k == 8 { Column8(r); }
    else if k == 9 { Column9(r); }
    else if k == 10 { Column10(r); }
    else { Column11(r); }
  }

  lemma {:induction false} Column0(r: Registration)
    ensures CsvFields(r)[0] == ColumnValue("ID", r) && CSV_HEADERS[0] == "ID"
  {
  }

  lemma {:induction false} Column1(r: Registration)
    ensures CsvFields(r)[1] == ColumnValue("Name", r) && CSV_HEADERS[1] == "Name"
  {
  }

  lemma {:induction false} Column2(r: Registration)
    ensures CsvFields(r)[2] == ColumnValue("Age", r) && CSV_HEADERS[2] == "Age"
  {
  }

  lemma {:induction false} Column3(r: Registration)
    ensures CsvFields(r)[3] == ColumnValue("WhatsApp", r) && CSV_HEADERS[3] == "WhatsApp"
  {
  }

  lemma {:induction false} Column4(r: Registration)
    ensures CsvFields(r)[4] == ColumnValue("Email", r) && CSV_HEADERS[4] == "Email"
  {
  }

  lemma {:induction false} Column5(r: Registration)
    ensures CsvFields(r)[5] == ColumnValue("Contest", r) && CSV_HEADERS[5] == "Contest"
  {
  }

  lemma {:induction false} Column6(r: Registration)
    ensures CsvFields(r)[6] == ColumnValue("Message", r) && CSV_HEADERS[6] == "Message"
  {
  }

  lemma {:induction false} Column7(r: Registration)
    ensures CsvFields(r)[7] == ColumnValue("Number of Children", r) && CSV_HEADERS[7] == "Number of Children"
  {
  }

  lemma {:induction false} Column8(r: Registration)
    ensures CsvFields(r)[8] == ColumnValue("Photo URL", r) && CSV_HEADERS[8] == "Photo URL"
  {
  }

  lemma {:induction false} Column9(r: Registration)
    ensures CsvFields(r)[9] == ColumnValue("Video URL", r) && CSV_HEADERS[9] == "Video URL"
  {
  }

  lemma {:induction false} Column10(r: Registration)
    ensures CsvFields(r)[10] == ColumnValue("Registration Date", r) && CSV_HEADERS[10] == "Registration Date"
  {
  }

  lemma {:induction false} Column11(r: Registration)
    ensures CsvFields(r)[11] == ColumnValue("IP Address", r) && CSV_HEADERS[11] == "IP Address"
  {
  }

  /** `"${field}"`: the field between double quotes, with nothing escaped. */
  function Quote(field: string): string
  {
    ['"'] + field + ['"']
  }

  function QuoteAll(fields: seq<string>): (q: seq<string>)
    ensures |q| == |fields|
  {
    seq(|fields|, i requires 0 <= i < |fields| => Quote(fields[i]))
  }

  /** One data line: the quoted fields joined by commas. */
  function CsvLine(r: Registration): string
  {
    Join(',', QuoteAll(CsvFields(r)))
  }

  function CsvLines(rs: seq<Registration>): (ls: seq<string>)
    ensures |ls| == |rs|
  {
    seq(|rs|, i requires 0 <= i < |rs| => CsvLine(rs[i]))
  }

  /** The whole export: the unquoted header line, then one line per record, joined by LF. */
  function CsvDocument(rs: seq<Registration>): (doc: string)
    ensures rs == [] ==> doc == Join(',', CSV_HEADERS)
    ensures rs != [] ==> doc == Join(',', CSV_HEADERS) + "\n" + Join('\n', CsvLines(rs))
  {
    var lines := [Join(',', CSV_HEADERS)] + CsvLines(rs);
    assert lines[1..] == CsvLines(rs);
    Join('\n', lines)
  }

  /** `registrations-<date>.csv`, the date being the part of today's ISO time before `T`. */
  function ExportFileName(todayIso: string): string
  {
    "registrations-" + Split('T', todayIso)[0] + ".csv"
  }

  lemma {:induction false} ExportFileNameIsDate(date: string, time: string)
    requires 'T' !in date
    ensures ExportFileName(date + "T" + time) == "registrations-" + date + ".csv"
  {
    var s := date + "T" + time;
    assert s[|date|] == 'T' && s[..|date|] == date;
    assert IndexOf(s, 'T') == |date|;
  }

  // ---------------------------------------------------------------- reading an export back

  /**
   * Reads a line of double-quoted fields separated by commas, where no field holds a
   * double quote; `None` when the line has another shape.
   */
  function ReadQuotedLine(line: string): Option<seq<string>>
    decreases |line|
  {
    if |line| < 2 || line[0] != '"' || '"' !in line[1..] then None
    else
      var j := IndexOf(line[1..], '"');
      var field := line[1..j + 1];
      var rest := line[j + 2..];
      if rest == [] then Some([field])
      else if rest[0] != ',' then None
      else match ReadQuotedLine(rest[1..])
        case None => None
        case Some(more) => Some([field] + more)
  }

  /** The reader takes one quoted field off the front of a line. */
  lemma {:induction false} ReadQuotedFirst(f: string, tail: string)
    requires '"' !in f
    ensures ReadQuotedLine(Quote(f) + tail) ==
      if tail == [] then Some([f])
      else if tail[0] != ',' then None
      else match ReadQuotedLine(tail[1..])
        case None => None
        case Some(more) => Some([f] + more)
  {
    var line := Quote(f) + tail;
    assert line[1..] == f + ['"'] + tail;
    assert line[1..][|f|] == '"' && line[1..][..|f|] == f;
    assert IndexOf(line[1..], '"') == |f|;
    assert line[1..|f| + 1] == f;
    assert line[|f| + 2..] == tail;
  }

  /** Reading a line of quoted fields gives the fields back, when none holds a double quote. */
  lemma {:induction false} ReadQuotedJoin(fields: seq<string>)
    requires |fields| >= 1
    requires forall k :: 0 <= k < |fields| ==> '"' !in fields[k]
    ensures ReadQuotedLine(Join(',', QuoteAll(fields))) == Some(fields)
  {
    var f := fields[0];
    if |fields| == 1 {
      QuotedJoinOne(fields);
      ReadQuotedFirst(f, "");
      assert [f] == fields;
    } else {
      var rest := Join(',', QuoteAll(fields[1..]));
      QuotedJoinStep(fields);
      ReadQuotedFirst(f, [','] + rest);
      assert ([','] + rest)[1..] == rest;
      ReadQuotedJoin(fields[1..]);
      assert [f] + fields[1..] == fields;
    }
  }

  lemma {:induction false} QuotedJoinOne(fields: seq<string>)
    requires |fields| == 1
    ensures Join(',', QuoteAll(fields)) == Quote(fields[0]) + ""
  {
    assert QuoteAll(fields)[0] == Quote(fields[0]);
  }

  lemma {:induction false} QuotedJoinStep(fields: seq<string>)
    requires |fields| >= 2
    ensures Join(',', QuoteAll(fields)) == Quote(fields[0]) + ([','] + Join(',', QuoteAll(fields[1..])))
  {
    var q := QuoteAll(fields);
    assert q[0] == Quote(fields[0]);
    assert q[1..] == QuoteAll(fields[1..]);
  }

  /** Quoting adds no character other than the double quote. */
  lemma {:induction false} QuoteAllCount(fields: seq<string>, c: char)
    requires c != '"'
    ensures CountIn(QuoteAll(fields), c) == CountIn(fields, c)
  {
    if fields != [] {
      assert QuoteAll(fields)[1..] == QuoteAll(fields[1..]);
      QuoteAllCount(fields[1..], c);
      assert multiset(Quote(fields[0])) == multiset(['"']) + multiset(fields[0]) + multiset(['"']);
    }
  }

  /** The line feeds held inside the fields of the records. */
  function EmbeddedLineFeeds(rs: seq<Registration>): nat
  {
    if rs == [] then 0 else CountIn(CsvFields(rs[0]), '\n') + EmbeddedLineFeeds(rs[1..])
  }

  /** A data line holds the line feeds of its fields and no others. */
  lemma {:induction false} CsvLineFeeds(r: Registration)
    ensures multiset(CsvLine(r))['\n'] == CountIn(CsvFields(r), '\n')
  {
    JoinCount(',', QuoteAll(CsvFields(r)), '\n');
    QuoteAllCount(CsvFields(r), '\n');
  }

  lemma {:induction false} CsvLinesLineFeeds(rs: seq<Registration>)
    ensures CountIn(CsvLines(rs), '\n') == EmbeddedLineFeeds(rs)
  {
    if rs != [] {
      assert CsvLines(rs)[1..] == CsvLines(rs[1..]);
      CsvLinesLineFeeds(rs[1..]);
      CsvLineFeeds(rs[0]);
    }
  }

  /** No header name holds a line feed. */
  lemma {:induction false} HeadersHaveNoLineFeed()
    ensures forall k :: 0 <= k < |CSV_HEADERS| ==> '\n' !in CSV_HEADERS[k]
  {
    forall k | 0 <= k < |CSV_HEADERS| ensures '\n' !in CSV_HEADERS[k] {
      var name := CSV_HEADERS[k];
      forall i | 0 <= i < |name| ensures name[i] != '\n' {
      }
    }
  }

  /** A join of parts free of `c` is free of `c`, when `c` is not the separator. */
  lemma {:induction false} JoinWithout(sep: char, parts: seq<string>, c: char)
    requires c != sep && |parts| >= 1
    requires forall k :: 0 <= k < |parts| ==> c !in parts[k]
    ensures multiset(Join(sep, parts))[c] == 0
  {
    JoinCount(sep, parts, c);
    CountInNone(parts, c);
  }

  lemma {:induction false} CountInNone(parts: seq<string>, c: char)
    requires forall k :: 0 <= k < |parts| ==> c !in parts[k]
    ensures CountIn(parts, c) == 0
  {
    if parts != [] {
      assert multiset(parts[0])[c] == 0;
      CountInNone(parts[1..], c);
    }
  }

  /**
   * Splitting an export at line feeds gives one line for the header, one per record and
   * one more for every line feed a field carries.
   */
  lemma {:induction false} CsvLineCount(rs: seq<Registration>)
    ensures |Split('\n', CsvDocument(rs))| == |rs| + 1 + EmbeddedLineFeeds(rs)
  {
    var parts := [Join(',', CSV_HEADERS)] + CsvLines(rs);
    JoinCount('\n', parts, '\n');
    assert parts[1..] == CsvLines(rs);
    HeadersHaveNoLineFeed();
    JoinWithout(',', CSV_HEADERS, '\n');
    CsvLinesLineFeeds(rs);
    SplitLength('\n', CsvDocument(rs));
  }

  /**
   * When no field holds a line feed or a double quote, the export reads back line by line:
   * the header, then each record's twelve fields in store order.
   */
  lemma {:induction false} CsvReadsBack(rs: seq<Registration>)
    requires forall i, k :: 0 <= i < |rs| && 0 <= k < |CSV_HEADERS| ==>
      '\n' !in CsvFields(rs[i])[k] && '"' !in CsvFields(rs[i])[k]
    ensures var lines := Split('\n', CsvDocument(rs));
      |lines| == |rs| + 1
      && lines[0] == Join(',', CSV_HEADERS)
      && forall i :: 0 <= i < |rs| ==> ReadQuotedLine(lines[i + 1]) == Some(CsvFields(rs[i]))
  {
    var parts := [Join(',', CSV_HEADERS)] + CsvLines(rs);
    HeaderLineHasNoLineFeed();
    forall i | 0 <= i < |rs|
      ensures '\n' !in CsvLine(rs[i])
      ensures ReadQuotedLine(CsvLine(rs[i])) == Some(CsvFields(rs[i]))
    {
      CsvLineReadsBack(rs[i]);
    }
    forall k | 0 <= k < |parts| ensures '\n' !in parts[k] {
      if k == 0 {
        assert parts[0] == Join(',', CSV_HEADERS);
      } else {
        CsvLinesAt(rs, k - 1);
      }
    }
    SplitJoin('\n', parts);
    forall i | 0 <= i < |rs| ensures parts[i + 1] == CsvLine(rs[i]) {
      CsvLinesAt(rs, i);
    }
  }

  lemma {:induction false} CsvLinesAt(rs: seq<Registration>, i: nat)
    requires i < |rs|
    ensures ([Join(',', CSV_HEADERS)] + CsvLines(rs))[i + 1] == CsvLines(rs)[i] == CsvLine(rs[i])
  {
  }

  /** The header line holds no line feed. */
  lemma {:induction false} HeaderLineHasNoLineFeed()
    ensures '\n' !in Join(',', CSV_HEADERS)
  {
    HeadersHaveNoLineFeed();
    JoinWithout(',', CSV_HEADERS, '\n');
  }

  /** A data line whose fields hold no line feed and no double quote is one line that reads back its fields. */
  lemma {:induction false} CsvLineReadsBack(r: Registration)
    requires forall k :: 0 <= k < |CSV_HEADERS| ==> '\n' !in CsvFields(r)[k] && '"' !in CsvFields(r)[k]
    ensures '\n' !in CsvLine(r)
    ensures ReadQuotedLine(CsvLine(r)) == Some(CsvFields(r))
  {
    CsvLineFeeds(r);
    CountInNone(CsvFields(r), '\n');
    ReadQuotedJoin(CsvFields(r));
  }

  // ---------------------------------------------------------------- the endpoint

  datatype AdminResponse =
    | Unauthorized
    | ServerError
    | CsvExport(fileName: string, content: string)
    | Listing(data: seq<Registration>, total: nat, contestFilter: Option<string>, searchFilter: Option<string>)

  function StatusCode(r: AdminResponse): nat
  {
    match r
    case Unauthorized => 401
    case ServerError => 500
    case _ => 200
  }

  /**
   * GET on the admin registrations endpoint, given the secret header, the configured
   * secret, the three query parameters, today's ISO time and the stored records.
   */
  function Get(header: Option<string>, secret: Option<string>, contest: Option<string>,
               search: Option<string>, format: Option<string>, todayIso: string,
               store: seq<Registration>): (resp: AdminResponse)
    ensures resp.Unauthorized? <==> !Authorized(header, secret)
    ensures resp.CsvExport? ==> format == Some("csv") && resp.fileName == ExportFileName(todayIso)
    ensures resp.Listing? ==> format != Some("csv") && resp.total == |resp.data| && NewestFirst(resp.data)
                              && resp.contestFilter == contest && resp.searchFilter == search
  {
    if !Authorized(header, secret) then Unauthorized
    else match FindMany(store, BuildWhere(contest, search))
      case None => ServerError
      case Some(rs) =>
        if format == Some("csv") then CsvExport(ExportFileName(todayIso), CsvDocument(rs))
        else Listing(rs, |rs|, contest, search)
  }

  /** The selection the parameters ask for, stated on the parameters themselves. */
  predicate Selected(contest: Option<string>, search: Option<string>, r: Registration)
  {
    (contest.None? || contest.value in {"", "ALL", Key(r.contest)})
    && (search.None? || search.value == "" || SearchHit(r, search.value))
  }

  /** Exactly the requests without the right secret are refused with 401. */
  lemma {:induction false} GetChecksSecret(header: Option<string>, secret: Option<string>, contest: Option<string>,
                        search: Option<string>, format: Option<string>, todayIso: string,
                        store: seq<Registration>)
    ensures var resp := Get(header, secret, contest, search, format, todayIso, store);
      (resp.Unauthorized? <==> !Authorized(header, secret))
      && (StatusCode(resp) == 401 <==> resp.Unauthorized?)
      && (secret.None? ==> resp.Unauthorized?)
  {
  }

  /** An authorized request naming a contest that does not exist fails with 500. */
  lemma {:induction false} GetUnknownContest(header: Option<string>, secret: Option<string>, c: string,
                          search: Option<string>, format: Option<string>, todayIso: string,
                          store: seq<Registration>)
    requires Authorized(header, secret)
    ensures Get(header, secret, Some(c), search, format, todayIso, store).ServerError?
      <==> c != "" && c != "ALL" && forall k :: Key(k) != c
  {
    if c != "" && c != "ALL" && ParseContest(c).Some? {
      assert Key(ParseContest(c).value) == c;
    }
  }

  /**
   * The listing holds each stored record the parameters select, as often as the store
   * holds it and newest first; `total` is its length and the filters echo the parameters.
   */
  lemma {:induction false} ListingContents(header: Option<string>, secret: Option<string>, contest: Option<string>,
                        search: Option<string>, format: Option<string>, todayIso: string,
                        store: seq<Registration>)
    requires Get(header, secret, contest, search, format, todayIso, store).Listing?
    ensures var resp := Get(header, secret, contest, search, format, todayIso, store);
      NewestFirst(resp.data)
      && resp.total == |resp.data|
      && resp.contestFilter == contest && resp.searchFilter == search
      && forall r :: multiset(resp.data)[r] == (if Selected(contest, search, r) then multiset(store)[r] else 0)
  {
    var w := BuildWhere(contest, search);
    var p := (r: Registration) => Matches(w, r);
    forall r ensures p(r) == Selected(contest, search, r) {}
    FilterMultiset(store, p);
  }

  /**
   * Without parameters, an authorized request lists the whole store newest first, and
   * any other request is refused.
   */
  lemma {:induction false} ListingUnfiltered(header: Option<string>, secret: Option<string>, todayIso: string,
                          store: seq<Registration>)
    ensures var resp := Get(header, secret, None, None, None, todayIso, store);
      if Authorized(header, secret) then
        resp.Listing? && multiset(resp.data) == multiset(store) && NewestFirst(resp.data)
      else resp.Unauthorized?
  {
    if Authorized(header, secret) {
      ListingContents(header, secret, None, None, None, todayIso, store);
    }
  }

  /** The CSV export holds exactly the rows the JSON listing would return, in the same order. */
  lemma {:induction false} ExportMatchesListing(header: Option<string>, secret: Option<string>, contest: Option<string>,
                             search: Option<string>, todayIso: string, store: seq<Registration>)
    ensures var json := Get(header, secret, contest, search, None, todayIso, store);
      var csv := Get(header, secret, contest, search, Some("csv"), todayIso, store);
      (json.Listing? <==> csv.CsvExport?)
      && (json.Listing? ==> csv.content == CsvDocument(json.data))
      && (json.Unauthorized? <==> csv.Unauthorized?)
  {
  }
}
