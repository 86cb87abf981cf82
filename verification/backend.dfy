/** The API's handlers (backend/app.py) over in-memory copies of the cve_changes
    and nvd_users tables. JWT signing and bcrypt stay abstract: a handler receives
    the claims auth.verify_access_token decoded (None when it rejected the token),
    login receives bcrypt's check as a function, and register receives the hash. */
module Backend {
  import opened Wrappers
  import opened Text
  import opened Records
  import Sorting

  /** Settings.max_page_size's default. */
  const MaxPageSize: nat := 10

  /** The payload of a token that auth.verify_access_token accepted. */
  datatype Claims = Claims(sub: string)

  /** What auth.create_access_token returns for the claims. */
  datatype AccessToken = AccessToken(claims: Claims)

  /** The tables a read-only handler sees. */
  datatype Tables = Tables(changes: seq<CveChange>, users: seq<User>)

  /** An exception raised inside a handler's try block: an HTTPException, or one
      raised by the database driver with its message. */
  datatype Fault = Raised(status: nat, detail: string) | DriverError(message: string)

  /** A response: a body with its status, or an HTTPException's status and detail. */
  datatype Response<+B> = Reply(status: nat, body: B) | Refused(status: nat, detail: string)

  /** str(e) for the caught exception; Starlette renders an HTTPException as "<status>: <detail>". */
  function Message(f: Fault): (m: string)
    ensures f.DriverError? ==> m == f.message
    ensures f.Raised? ==>
      var n := |m| - |f.detail| - 2;
      && 0 < n && m[n + 2..] == f.detail && m[n..n + 2] == ": " && ParseDecimal(m[..n]) == Some(f.status)
  {
    match f
    case Raised(status, detail) =>
      var digits := Decimal(status);
      var m := digits + ": " + detail;
      assert m[..|digits|] == digits;
      m
    case DriverError(message) => message
  }

  /** `try: ... except Exception as e: raise HTTPException(status_code=500, detail=str(e))`:
      whatever the body raised, 401 included, leaves the handler as a 500. */
  function Guard<B>(status: nat, inner: Result<B, Fault>): (r: Response<B>)
    ensures r.Reply? <==> inner.Ok?
    ensures r.Refused? ==> r.status == 500 && r.detail == Message(inner.error)
  {
    match inner
    case Ok(body) => Reply(status, body)
    case Err(f) => Refused(500, Message(f))
  }

  /** The 500 a rejected token turns into carries the text "401: Invalid token". */
  lemma InvalidTokenText()
    ensures Message(Raised(401, "Invalid token")) == "401: Invalid token"
  {
    StatusText401();
  }

  /** The status 401 is written out as the three digits "401". */
  lemma StatusText401()
    ensures Decimal(401) == "401"
  {
    var four, zero, one := DigitChar(4), DigitChar(0), DigitChar(1);
    assert Decimal(4) == [four];
    assert Decimal(40) == [four] + [zero];
    assert Decimal(401) == [four] + [zero] + [one];
  }

  /** `select(User).where(User.email == email)` followed by `.scalars().first()`. */
  function FindUser(users: seq<User>, email: string): (r: Option<User>)
    ensures r.Some? ==> r.value in users && r.value.email == email
    ensures r.None? ==> forall u :: u in users ==> u.email != email
  {
    if users == [] then None
    else if users[0].email == email then Some(users[0])
    else FindUser(users[1..], email)
  }

  /** The token check that opens /cves, /export and /stats. dbFault is the message of
      an exception the user lookup raised, if it raised one. */
  function Authenticate(users: seq<User>, claims: Option<Claims>, dbFault: Option<string>): (r: Result<User, Fault>)
    ensures r.Ok? <==> claims.Some? && dbFault.None? && FindUser(users, claims.value.sub).Some?
    ensures r.Ok? ==> r.value in users && r.value.email == claims.value.sub
    ensures claims.None? ==> r == Err(Raised(401, "Invalid token"))
    ensures claims.Some? && dbFault.None? && !r.Ok? ==> r == Err(Raised(401, "Unauthorized"))
    ensures claims.Some? && dbFault.Some? ==> r == Err(DriverError(dbFault.value))
  {
    if claims.None? then Err(Raised(401, "Invalid token"))
    else if dbFault.Some? then Err(DriverError(dbFault.value))
    else
      match FindUser(users, claims.value.sub)
      case None => Err(Raised(401, "Unauthorized"))
      case Some(u) => Ok(u)
  }

  // ----- Filtering, ordering, paging -----

  /** The WHERE clauses of /cves: `ILIKE '%value%'` on each given parameter. */
  predicate ListMatch(c: CveChange, cveId: Option<string>, eventName: Option<string>)
  {
    && (Truthy(cveId) ==> ILike(c.cveId, cveId.value))
    && (Truthy(eventName) ==> ILike(c.eventName, eventName.value))
  }

  /** The WHERE clauses of /export: cve_id by equality, event_name by ILIKE. */
  predicate ExportMatch(c: CveChange, cveId: Option<string>, eventName: Option<string>)
  {
    && (Truthy(cveId) ==> c.cveId == cveId.value)
    && (Truthy(eventName) ==> ILike(c.eventName, eventName.value))
  }

  /** The rows of s that keep accepts, in their order. */
  function Select<T(==,!new)>(s: seq<T>, keep: T -> bool): (r: seq<T>)
    ensures |r| <= |s|
    ensures forall x :: multiset(r)[x] == if keep(x) then multiset(s)[x] else 0
  {
    if s == [] then []
    else
      assert s == [s[0]] + s[1..];
      if keep(s[0]) then [s[0]] + Select(s[1..], keep) else Select(s[1..], keep)
  }

  predicate NewerFirst(a: CveChange, b: CveChange) { NotAfter(b.created, a.created) }

  lemma NewerFirstTotal()
    ensures forall a, b :: NewerFirst(a, b) || NewerFirst(b, a)
  {
  }

  /** ORDER BY created DESC: the same rows, newest first. */
  function NewestFirst(rs: seq<CveChange>): (r: seq<CveChange>)
    ensures multiset(r) == multiset(rs)
    ensures forall i :: 0 < i < |r| ==> NotAfter(r[i].created, r[i - 1].created)
  {
    NewerFirstTotal();
    Sorting.InsertionSortSorted(rs, NewerFirst);
    Sorting.InsertionSort(rs, NewerFirst)
  }

  /** The rows /cves pages through: the matching rows, newest first. */
  function ListSelection(changes: seq<CveChange>, cveId: Option<string>, eventName: Option<string>): (r: seq<CveChange>)
    ensures forall c :: c in r <==> c in changes && ListMatch(c, cveId, eventName)
    ensures forall c :: multiset(r)[c] == if ListMatch(c, cveId, eventName) then multiset(changes)[c] else 0
    ensures forall i :: 0 < i < |r| ==> NotAfter(r[i].created, r[i - 1].created)
  {
    var r := NewestFirst(Select(changes, c => ListMatch(c, cveId, eventName)));
    assert forall c :: c in r <==> multiset(r)[c] > 0;
    assert forall c :: c in changes <==> multiset(changes)[c] > 0;
    r
  }

  /** The rows /export writes: the matching rows, newest first. */
  function ExportSelection(changes: seq<CveChange>, cveId: Option<string>, eventName: Option<string>): (r: seq<CveChange>)
    ensures forall c :: c in r <==> c in changes && ExportMatch(c, cveId, eventName)
    ensures forall c :: multiset(r)[c] == if ExportMatch(c, cveId, eventName) then multiset(changes)[c] else 0
    ensures forall i :: 0 < i < |r| ==> NotAfter(r[i].created, r[i - 1].created)
  {
    var r := NewestFirst(Select(changes, c => ExportMatch(c, cveId, eventName)));
    assert forall c :: c in r <==> multiset(r)[c] > 0;
    assert forall c :: c in changes <==> multiset(changes)[c] > 0;
    r
  }

  /** Export matches exactly what the list matches by substring, so every row exported
      under a filter is also listed under it. */
  lemma ExportWithinList(c: CveChange, cveId: Option<string>, eventName: Option<string>)
    requires ExportMatch(c, cveId, eventName)
    ensures ListMatch(c, cveId, eventName)
  {
    if Truthy(cveId) {
      ContainsInfix(FoldString(c.cveId), FoldString(cveId.value), 0);
    }
  }

  function Min(a: int, b: int): int { if a <= b then a else b }

  /** The number of rows before a page: `(page - 1) * page_size`. */
  function Offset(page: nat): nat
    requires page >= 1
  {
    (page - 1) * MaxPageSize
  }

  /** `.offset((page - 1) * page_size).limit(page_size)`. */
  function PageSlice<T>(s: seq<T>, page: nat): (r: seq<T>)
    requires page >= 1
    ensures |r| == if Offset(page) < |s| then Min(MaxPageSize, |s| - Offset(page)) else 0
    ensures forall i :: 0 <= i < |r| ==> r[i] == s[Offset(page) + i]
  {
    if Offset(page) >= |s| then [] else s[Offset(page)..Min(Offset(page) + MaxPageSize, |s|)]
  }

  /** `(total + page_size - 1) // page_size`: the number of pages needed for total rows. */
  function TotalPages(total: nat): (t: nat)
    ensures t == 0 <==> total == 0
    ensures t > 0 ==> (t - 1) * MaxPageSize < total <= t * MaxPageSize
  {
    (total + MaxPageSize - 1) / MaxPageSize
  }

  /** Page p holds rows exactly when 1 <= p <= total_pages. */
  lemma PageHasRows<T>(s: seq<T>, page: nat)
    requires page >= 1
    ensures |PageSlice(s, page)| > 0 <==> page <= TotalPages(|s|)
  {
  }

  // ----- GET /cves -----

  datatype ListParams = ListParams(page: int, cveId: Option<string>, eventName: Option<string>)

  /** FastAPI's reading of /cves's query: `page` defaults to 1 and must be an integer
      >= 1 (None: the request fails validation with 422). */
  function ReadListParams(q: Query): (r: Option<ListParams>)
    ensures r.Some? ==> r.value.page >= 1 && r.value.cveId == Param(q, "cve_id") && r.value.eventName == Param(q, "event_name")
    ensures Param(q, "page").None? ==> r.Some? && r.value.page == 1
    ensures Param(q, "page").Some? ==>
      (r.Some? <==> ParseDecimal(Param(q, "page").value).Some? && ParseDecimal(Param(q, "page").value).value >= 1)
    ensures r.Some? && Param(q, "page").Some? ==> ParseDecimal(Param(q, "page").value) == Some(r.value.page)
  {
    var page := match Param(q, "page") case None => Some(1) case Some(s) => ParseDecimal(s);
    if page.Some? && page.value >= 1 then Some(ListParams(page.value, Param(q, "cve_id"), Param(q, "event_name")))
    else None
  }

  /** The body of a 200 from /cves. */
  datatype CvePage = CvePage(page: int, pageSize: nat, totalRecords: nat, totalPages: nat, cves: seq<CveChange>)

  /** The body of a 200 from /cves: the count of all matching rows, the page count
      that covers them, and the rows of the requested page. */
  function ListPage(db: Tables, p: ListParams): (body: CvePage)
    requires p.page >= 1
    ensures body.page == p.page && body.pageSize == MaxPageSize
    ensures body.totalRecords == |ListSelection(db.changes, p.cveId, p.eventName)|
    ensures body.totalPages == 0 <==> body.totalRecords == 0
    ensures body.totalPages > 0 ==> (body.totalPages - 1) * MaxPageSize < body.totalRecords <= body.totalPages * MaxPageSize
    ensures |body.cves| <= MaxPageSize
    ensures |body.cves| > 0 <==> body.page <= body.totalPages
  {
    var rows := ListSelection(db.changes, p.cveId, p.eventName);
    PageHasRows(rows, p.page);
    CvePage(p.page, MaxPageSize, |rows|, TotalPages(|rows|), PageSlice(rows, p.page))
  }

  /** A page holds rows of the whole sequence, in the same order. */
  lemma PageSliceOrdered(rows: seq<CveChange>, page: nat)
    requires page >= 1
    requires forall i :: 0 < i < |rows| ==> NotAfter(rows[i].created, rows[i - 1].created)
    ensures forall c :: c in PageSlice(rows, page) ==> c in rows
    ensures var r := PageSlice(rows, page);
            forall i :: 0 < i < |r| ==> NotAfter(r[i].created, r[i - 1].created)
  {
    var r := PageSlice(rows, page);
    forall i | 0 < i < |r| ensures NotAfter(r[i].created, r[i - 1].created) {
      assert r[i] == rows[Offset(page) + i] && r[i - 1] == rows[Offset(page) + i - 1];
    }
    forall c | c in r ensures c in rows {
      var i :| 0 <= i < |r| && r[i] == c;
      assert rows[Offset(page) + i] == c;
    }
  }

  /** The rows of a page are matching rows of the table, newest first, and are the
      page-th run of page_size rows of the whole selection. */
  lemma ListPageRows(db: Tables, p: ListParams)
    requires p.page >= 1
    ensures var rows := ListSelection(db.changes, p.cveId, p.eventName);
            var cves := ListPage(db, p).cves;
            && (forall i :: 0 <= i < |cves| ==> cves[i] == rows[Offset(p.page) + i])
            && (forall c :: c in cves ==> c in db.changes && ListMatch(c, p.cveId, p.eventName))
            && (forall i :: 0 < i < |cves| ==> NotAfter(cves[i].created, cves[i - 1].created))
  {
    var rows := ListSelection(db.changes, p.cveId, p.eventName);
    assert ListPage(db, p).cves == PageSlice(rows, p.page);
    PageSliceOrdered(rows, p.page);
  }

  /** GET /cves. dbFault is the message of an exception the user lookup raises, and
      countFault and pageFault those of the count and page statements, if they raise one. */
  function GetCves(db: Tables, claims: Option<Claims>, dbFault: Option<string>,
                   countFault: Option<string>, pageFault: Option<string>, q: Query): (r: Response<CvePage>)
    ensures ReadListParams(q).None? ==> r.Refused? && r.status == 422
    ensures r.Reply? <==>
      ReadListParams(q).Some? && Authenticate(db.users, claims, dbFault).Ok? && countFault.None? && pageFault.None?
    ensures r.Reply? ==> r.status == 200 && r.body == ListPage(db, ReadListParams(q).value)
    ensures ReadListParams(q).Some? && Authenticate(db.users, claims, dbFault).Err? ==>
      r == Refused(500, Message(Authenticate(db.users, claims, dbFault).error))
    ensures ReadListParams(q).Some? && Authenticate(db.users, claims, dbFault).Ok? && countFault.Some? ==>
      r == Refused(500, countFault.value)
    ensures ReadListParams(q).Some? && Authenticate(db.users, claims, dbFault).Ok? && countFault.None? && pageFault.Some? ==>
      r == Refused(500, pageFault.value)
    ensures ReadListParams(q).Some? && claims.None? ==> r == Refused(500, Message(Raised(401, "Invalid token")))
  {
    match ReadListParams(q)
    case None => Refused(422, "request validation failed")
    case Some(p) =>
      Guard(200, match Authenticate(db.users, claims, dbFault)
                 case Err(f) => Err(f)
                 case Ok(_) =>
                   if countFault.Some? then Err(DriverError(countFault.value))
                   else if pageFault.Some? then Err(DriverError(pageFault.value))
                   else Ok(ListPage(db, p)))
  }

  // ----- GET /export -----

  /** A CSV cell as handed to csv.writer; its textual rendering is the csv module's. */
  datatype Cell = IdCell(id: int) | TextCell(text: string) | CreatedCell(created: Stamp) | DetailsRepr(details: seq<Detail>)

  type Row = seq<Cell>

  const Header: Row := [TextCell("ID"), TextCell("CVE ID"), TextCell("Event Name"),
                        TextCell("Source Identifier"), TextCell("Created"), TextCell("Details")]

  function CsvRow(c: CveChange): (row: Row)
    ensures |row| == |Header|
  {
    [IdCell(c.id), TextCell(c.cveId), TextCell(c.eventName), TextCell(c.sourceIdentifier),
     CreatedCell(c.created), DetailsRepr(c.details)]
  }

  /** The writer loop: the header, then one row per change in order. */
  method WriteRows(cves: seq<CveChange>) returns (rows: seq<Row>)
    ensures |rows| == |cves| + 1 && rows[0] == Header
    ensures forall i :: 0 <= i < |cves| ==> rows[i + 1] == CsvRow(cves[i])
  {
    rows := [Header];
    var k := 0;
    while k < |cves|
      invariant 0 <= k <= |cves|
      invariant |rows| == k + 1 && rows[0] == Header
      invariant forall i :: 0 <= i < k ==> rows[i + 1] == CsvRow(cves[i])
    {
      rows := rows + [CsvRow(cves[k])];
      k := k + 1;
    }
  }

  /** GET /export. dbFault is the message of an exception the user lookup raises, and
      queryFault that of the export statement, if it raises one. */
  method ExportCves(db: Tables, claims: Option<Claims>, dbFault: Option<string>, queryFault: Option<string>, q: Query)
    returns (r: Response<seq<Row>>)
    ensures r.Reply? <==> Authenticate(db.users, claims, dbFault).Ok? && queryFault.None?
    ensures Authenticate(db.users, claims, dbFault).Err? ==>
      r == Refused(500, Message(Authenticate(db.users, claims, dbFault).error))
    ensures Authenticate(db.users, claims, dbFault).Ok? && queryFault.Some? ==> r == Refused(500, queryFault.value)
    ensures r.Reply? ==>
      var rows := ExportSelection(db.changes, Param(q, "cve_id"), Param(q, "event_name"));
      && r.status == 200
      && |r.body| == |rows| + 1 && r.body[0] == Header
      && forall i :: 0 <= i < |rows| ==> r.body[i + 1] == CsvRow(rows[i])
  {
    var user := Authenticate(db.users, claims, dbFault);
    if user.Err? {
      return Refused(500, Message(user.error));
    }
    if queryFault.Some? {
      return Refused(500, Message(DriverError(queryFault.value)));
    }
    var cves := ExportSelection(db.changes, Param(q, "cve_id"), Param(q, "event_name"));
    var rows := WriteRows(cves);
    r := Reply(200, rows);
  }

  // ----- GET /stats -----

  function Sum(e: Entries): int
  {
    if e == [] then 0 else e[0].1 + Sum(e[1..])
  }

  /** Adds one to k's count, appending k with count 1 when it is new. */
  function Bump(e: Entries, k: string): (r: Entries)
    ensures Keys(r) == if k in Keys(e) then Keys(e) else Keys(e) + [k]
    ensures Sum(r) == Sum(e) + 1
  {
    if e == [] then
      var r := [(k, 1)];
      KeysCons((k, 1), []);
      assert r[1..] == [];
      r
    else
      var h, rest := e[0], e[1..];
      assert e == [h] + rest;
      KeysCons(h, rest);
      if h.0 == k then
        var r := [(k, h.1 + 1)] + rest;
        KeysCons((k, h.1 + 1), rest);
        assert r[1..] == rest;
        r
      else
        var t := Bump(rest, k);
        var r := [h] + t;
        KeysCons(h, t);
        assert r[1..] == t;
        r
  }

  /** Bump raises k's count by one and leaves every other key's count alone. */
  lemma {:induction false} BumpLookup(e: Entries, k: string, j: string)
    ensures j != k ==> Lookup(Bump(e, k), j) == Lookup(e, j)
    ensures j == k ==> Lookup(Bump(e, k), j) == Some(if Lookup(e, k).Some? then Lookup(e, k).value + 1 else 1)
  {
    if e == [] {
    } else if e[0].0 == k {
      BumpLookupFound(e[0].1, e[1..], k, j);
      assert e == [(k, e[0].1)] + e[1..];
    } else {
      BumpLookup(e[1..], k, j);
      BumpLookupPassed(e[0], e[1..], k, j);
      assert e == [e[0]] + e[1..];
    }
  }

  /** Bump at a list whose first key is the one counted. */
  lemma BumpLookupFound(n: int, rest: Entries, k: string, j: string)
    ensures Lookup(Bump([(k, n)] + rest, k), j) == if j == k then Some(n + 1) else Lookup(rest, j)
    ensures Lookup([(k, n)] + rest, j) == if j == k then Some(n) else Lookup(rest, j)
  {
    var e := [(k, n)] + rest;
    assert e[0] == (k, n) && e[1..] == rest;
    assert Bump(e, k) == [(k, n + 1)] + rest;
    BumpLookupHead(n + 1, rest, k, j);
    BumpLookupHead(n, rest, k, j);
  }

  /** Bump at a list whose first key is another one: it passes the head by. */
  lemma BumpLookupPassed(head: (string, int), rest: Entries, k: string, j: string)
    requires head.0 != k
    ensures Lookup(Bump([head] + rest, k), j) == if j == head.0 then Some(head.1) else Lookup(Bump(rest, k), j)
    ensures Lookup([head] + rest, j) == if j == head.0 then Some(head.1) else Lookup(rest, j)
  {
    var e := [head] + rest;
    assert e[0] == head && e[1..] == rest;
    assert Bump(e, k) == [head] + Bump(rest, k);
    assert head == (head.0, head.1);
    BumpLookupHead(head.1, Bump(rest, k), head.0, j);
    BumpLookupHead(head.1, rest, head.0, j);
  }

  /** Looking up in a list that starts with the entry (h, n). */
  lemma BumpLookupHead(n: int, rest: Entries, h: string, j: string)
    ensures Lookup([(h, n)] + rest, j) == if h == j then Some(n) else Lookup(rest, j)
  {
    assert ([(h, n)] + rest)[1..] == rest;
  }

  /** Bump keeps the keys distinct. */
  lemma BumpDistinct(e: Entries, k: string)
    requires DistinctKeys(e)
    ensures DistinctKeys(Bump(e, k))
  {
    var r := Bump(e, k);
    forall i, j | 0 <= i < j < |r| ensures r[i].0 != r[j].0 {
      assert r[i].0 == Keys(r)[i] && r[j].0 == Keys(r)[j];
      if k in Keys(e) {
        assert e[i].0 == Keys(e)[i] && e[j].0 == Keys(e)[j];
      } else if j < |e| {
        assert e[i].0 == Keys(e)[i] && e[j].0 == Keys(e)[j];
      } else {
        assert Keys(r)[i] == Keys(e)[i];
      }
    }
  }

  /** The count of each key in keys, keys in order of first appearance: a GROUP BY with
      count() turned into a dict. */
  function Tally(keys: seq<string>): (r: Entries)
    ensures DistinctKeys(r)
    ensures Sum(r) == |keys|
    ensures forall k :: Lookup(r, k) == if k in keys then Some(multiset(keys)[k]) else None
  {
    if keys == [] then []
    else
      var init, last := keys[..|keys| - 1], keys[|keys| - 1];
      assert keys == init + [last];
      var t := Tally(init);
      BumpDistinct(t, last);
      TallyStep(init, last, t);
      Bump(t, last)
  }

  lemma TallyStep(init: seq<string>, last: string, t: Entries)
    requires forall k :: Lookup(t, k) == if k in init then Some(multiset(init)[k]) else None
    ensures forall k :: Lookup(Bump(t, last), k) == if k in init + [last] then Some(multiset(init + [last])[k]) else None
  {
    forall k ensures Lookup(Bump(t, last), k) == if k in init + [last] then Some(multiset(init + [last])[k]) else None {
      TallyStepAt(init, last, t, k);
    }
  }

  /** One key's count after one more key is tallied. */
  lemma TallyStepAt(init: seq<string>, last: string, t: Entries, k: string)
    requires Lookup(t, k) == if k in init then Some(multiset(init)[k]) else None
    ensures Lookup(Bump(t, last), k) == if k in init + [last] then Some(multiset(init + [last])[k]) else None
  {
    BumpLookup(t, last, k);
    var m := multiset(init + [last]);
    assert m == multiset(init) + multiset{last};
    assert k in init + [last] <==> k in init || k == last;
    if k == last {
      assert m[k] == multiset(init)[k] + 1;
      if k !in init { assert multiset(init)[k] == 0; }
    } else {
      assert m[k] == multiset(init)[k];
    }
  }

  /** `strftime("%Y-%m")` of the month `date_trunc` puts t in. */
  function MonthKey(t: Stamp): (key: string)
    ensures var n := |key| - 3;
            && 0 < n && key[n] == '-'
            && ParseDecimal(key[..n]) == Some(t.year as nat) && ParseDecimal(key[n + 1..]) == Some(t.month as nat)
  {
    var year, month := Decimal(t.year), Pad2(t.month);
    var key := year + "-" + month;
    assert key[..|year|] == year && key[|year| + 1..] == month;
    key
  }

  /** From year 1000 on, a month key is seven characters and string order on month keys
      is chronological order on months. */
  lemma MonthKeyOrder(a: Stamp, b: Stamp)
    requires a.year >= 1000 && b.year >= 1000
    ensures |MonthKey(a)| == 7
    ensures LexLess(MonthKey(a), MonthKey(b)) <==> a.year < b.year || (a.year == b.year && a.month < b.month)
    ensures MonthKey(a) == MonthKey(b) <==> a.year == b.year && a.month == b.month
  {
    var ya, yb := Decimal(a.year), Decimal(b.year);
    var ma, mb := Pad2(a.month), Pad2(b.month);
    DecimalOfFourDigits(a.year);
    DecimalOfFourDigits(b.year);
    assert DigitsValue(ya) == a.year && DigitsValue(yb) == b.year;
    DigitsOrder(ya, yb);
    DigitsOrder(ma, mb);
    assert MonthKey(a) == ya + ("-" + ma) && MonthKey(b) == yb + ("-" + mb);
    LexLessConcat(ya, "-" + ma, yb, "-" + mb);
    LexLessConcat("-", ma, "-", mb);
    if MonthKey(a) == MonthKey(b) {
      assert ya == MonthKey(a)[..4] && yb == MonthKey(b)[..4];
      assert ma == MonthKey(a)[5..] && mb == MonthKey(b)[5..];
    }
  }

  function EventNames(changes: seq<CveChange>): seq<string>
  {
    seq(|changes|, i requires 0 <= i < |changes| => changes[i].eventName)
  }

  function Months(changes: seq<CveChange>): seq<string>
  {
    seq(|changes|, i requires 0 <= i < |changes| => MonthKey(changes[i].created))
  }

  /** The body of a 200 from /stats. */
  datatype Stats = Stats(cvesPerEvent: Entries, cvesOverTime: Entries)

  /** GET /stats. dbFault is the message of an exception the user lookup raises, and
      eventsFault and monthsFault those of the two GROUP BY statements, if they raise one. */
  function GetStats(db: Tables, claims: Option<Claims>, dbFault: Option<string>,
                    eventsFault: Option<string>, monthsFault: Option<string>): (r: Response<Stats>)
    ensures r.Reply? <==> Authenticate(db.users, claims, dbFault).Ok? && eventsFault.None? && monthsFault.None?
    ensures r.Refused? ==> r.status == 500
    ensures Authenticate(db.users, claims, dbFault).Err? ==>
      r == Refused(500, Message(Authenticate(db.users, claims, dbFault).error))
    ensures Authenticate(db.users, claims, dbFault).Ok? && eventsFault.Some? ==> r == Refused(500, eventsFault.value)
    ensures Authenticate(db.users, claims, dbFault).Ok? && eventsFault.None? && monthsFault.Some? ==>
      r == Refused(500, monthsFault.value)
    ensures r.Reply? ==>
      && r.status == 200
      && DistinctKeys(r.body.cvesPerEvent) && DistinctKeys(r.body.cvesOverTime)
      && Sum(r.body.cvesPerEvent) == |db.changes| && Sum(r.body.cvesOverTime) == |db.changes|
      && (forall e :: e in EventNames(db.changes) ==> Lookup(r.body.cvesPerEvent, e) == Some(multiset(EventNames(db.changes))[e]))
      && (forall e :: e !in EventNames(db.changes) ==> Lookup(r.body.cvesPerEvent, e).None?)
      && (forall m :: m in Months(db.changes) ==> Lookup(r.body.cvesOverTime, m) == Some(multiset(Months(db.changes))[m]))
      && (forall m :: m !in Months(db.changes) ==> Lookup(r.body.cvesOverTime, m).None?)
  {
    Guard(200, match Authenticate(db.users, claims, dbFault)
               case Err(f) => Err(f)
               case Ok(_) =>
                 if eventsFault.Some? then Err(DriverError(eventsFault.value))
                 else if monthsFault.Some? then Err(DriverError(monthsFault.value))
                 else Ok(Stats(Tally(EventNames(db.changes)), Tally(Months(db.changes)))))
  }

  // ----- POST /login -----

  /** The body of a 200 from /login. */
  datatype TokenBody = TokenBody(accessToken: AccessToken, tokenType: string)

  /** checkpw stands for auth.verify_password (bcrypt); dbFault is the message of an
      exception the user lookup raised, if it raised one. */
  function Login(users: seq<User>, username: string, password: string,
                 checkpw: (string, string) -> bool, dbFault: Option<string>): (r: Response<TokenBody>)
    ensures r.Reply? <==>
      dbFault.None? && FindUser(users, username).Some? && checkpw(password, FindUser(users, username).value.hashedPassword)
    ensures r.Reply? ==> r.status == 200 && r.body.accessToken.claims.sub == username && r.body.tokenType == "bearer"
    ensures r.Refused? ==> r.status == 500
    ensures dbFault.None? && r.Refused? ==> r.detail == Message(Raised(401, "Invalid credentials"))
    ensures dbFault.Some? ==> r == Refused(500, dbFault.value)
  {
    Guard(200,
      if dbFault.Some? then Err(DriverError(dbFault.value))
      else match FindUser(users, username)
        case None => Err(Raised(401, "Invalid credentials"))
        case Some(u) =>
          if checkpw(password, u.hashedPassword) then Ok(TokenBody(AccessToken(Claims(username)), "bearer"))
          else Err(Raised(401, "Invalid credentials")))
  }

  /** A token /login issued opens the data endpoints for as long as the user exists,
      given that auth.verify_access_token gives back the claims it was created with. */
  lemma {:induction false} IssuedTokenAuthenticates(users: seq<User>, username: string, password: string,
                                                    checkpw: (string, string) -> bool)
    requires Login(users, username, password, checkpw, None).Reply?
    ensures Authenticate(users, Some(Login(users, username, password, checkpw, None).body.accessToken.claims), None).Ok?
  {
  }

  // ----- POST /register -----

  /** The database session of one request: the committed users and the rows added
      since the last commit. */
  class Session {
    var users: seq<User>
    var added: seq<User>

    constructor (users: seq<User>)
      ensures this.users == users && added == []
    {
      this.users := users;
      added := [];
    }

    /** db.add */
    method Add(u: User)
      modifies this`added
      ensures added == old(added) + [u]
    {
      added := added + [u];
    }

    /** db.commit; failure is the message of the exception it raises, if it raises one. */
    method Commit(failure: Option<string>) returns (ok: bool)
      modifies this
      ensures ok <==> failure.None?
      ensures ok ==> users == old(users) + old(added) && added == []
      ensures !ok ==> users == old(users) && added == old(added)
    {
      ok := failure.None?;
      if ok {
        users := users + added;
        added := [];
      }
    }

    /** db.rollback */
    method Rollback()
      modifies this`added
      ensures added == []
    {
      added := [];
    }
  }

  /** POST /register. hashed stands for auth.hash_password(password); commitFailure
      and refreshFailure are the messages of the exceptions db.commit and db.refresh
      raise, if they raise one. A refresh that fails comes after the commit, so the
      user stays registered although the answer is a 500. */
  method Register(db: Session, email: string, hashed: string,
                  commitFailure: Option<string>, refreshFailure: Option<string>)
    returns (r: Response<string>)
    requires db.added == []
    modifies db
    ensures db.added == []
    ensures FindUser(old(db.users), email).Some? ==>
      r == Refused(409, "User already exists") && db.users == old(db.users)
    ensures FindUser(old(db.users), email).None? && commitFailure.Some? ==>
      r == Refused(500, commitFailure.value) && db.users == old(db.users)
    ensures FindUser(old(db.users), email).None? && commitFailure.None? ==>
      db.users == old(db.users) + [User(email, hashed)]
    ensures FindUser(old(db.users), email).None? && commitFailure.None? && refreshFailure.None? ==>
      r == Reply(201, "User registered successfully")
    ensures FindUser(old(db.users), email).None? && commitFailure.None? && refreshFailure.Some? ==>
      r == Refused(500, refreshFailure.value)
  {
    var existing := FindUser(db.users, email);
    if existing.Some? {
      return Refused(409, "User already exists");
    }
    db.Add(User(email, hashed));
    var committed := db.Commit(commitFailure);
    if committed && refreshFailure.None? {
      r := Reply(201, "User registered successfully");
    } else {
      db.Rollback();
      r := Refused(500, if committed then refreshFailure.value else commitFailure.value);
    }
  }
}
