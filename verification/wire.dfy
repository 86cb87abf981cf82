/** Where the pages meet the API: what the handlers read from the queries the
    dashboard sends, what the dashboard makes of the bodies the handlers return, and
    why the dashboard's plain string sort puts the API's month keys in calendar order. */
module Wire {
  import opened Wrappers
  import opened Text
  import opened Records
  import opened Browser
  import Backend
  import Dashboard

  // ----- Queries, as the API reads them -----

  /** /cves reads back the page the dashboard sent and the trimmed non-empty fields. */
  lemma ListQueryReadBack(page: int, f: Dashboard.Filter)
    requires page >= 1
    ensures var q := Dashboard.ListQuery(page, f);
            Backend.ReadListParams(q) == Some(Backend.ListParams(page, Param(q, "cve_id"), Param(q, "event_name")))
  {
    var q := Dashboard.ListQuery(page, f);
    Dashboard.ListQueryParams(page, f);
    assert ParseDecimal(Param(q, "page").value) == Some(page);
  }

  /** The filter a field turns on: a field that is empty or only spaces filters
      nothing, and any other field filters by its trimmed text. */
  predicate FieldAllows(field: string, value: string, exact: bool)
  {
    !Blank(field) ==> if exact then value == Trim(field) else ILike(value, Trim(field))
  }

  /** A record is listed under the applied filter exactly when each field allows it. */
  lemma ListFilterMeaning(page: int, f: Dashboard.Filter, c: CveChange)
    ensures var q := Dashboard.ListQuery(page, f);
            Backend.ListMatch(c, Param(q, "cve_id"), Param(q, "event_name")) <==>
              FieldAllows(f.cveId, c.cveId, false) && FieldAllows(f.eventName, c.eventName, false)
  {
    Dashboard.ListQueryParams(page, f);
    assert Blank("");
  }

  /** A record is exported under the applied filter exactly when each field allows
      it, the CVE ID by equality. */
  lemma ExportFilterMeaning(f: Dashboard.Filter, c: CveChange)
    ensures var q := Dashboard.ExportQuery(f);
            Backend.ExportMatch(c, Param(q, "cve_id"), Param(q, "event_name")) <==>
              FieldAllows(f.cveId, c.cveId, true) && FieldAllows(f.eventName, c.eventName, false)
  {
    Dashboard.ExportQueryParams(f);
    assert Blank("");
  }

  // ----- Bodies, as the dashboard reads them -----

  /** `response.ok`: a 2xx status. */
  predicate OkStatus(status: nat) { 200 <= status < 300 }

  /** The body of a /cves response, as the dashboard reads its fields. */
  function ListBody(r: Backend.Response<Backend.CvePage>): Dashboard.ListJson
  {
    match r
    case Reply(_, page) => Dashboard.ListJson(Some(page.cves), Some(page.totalPages))
    case Refused(_, _) => Dashboard.ListJson(None, None)
  }

  /** The body of a /stats response, as the dashboard reads its fields. */
  function StatsBody(r: Backend.Response<Backend.Stats>): Dashboard.StatsJson
  {
    match r
    case Reply(_, s) => Dashboard.StatsJson(Some(s.cvesPerEvent), Some(s.cvesOverTime), None)
    case Refused(_, detail) => Dashboard.StatsJson(None, None, Some(detail))
  }

  /** A /stats reply is drawn: one bar per event name with its count, the bars adding
      up to the number of records, and one point per month. */
  lemma StatsReplyDrawn(db: Backend.Tables, claims: Option<Backend.Claims>, dbFault: Option<string>,
                         eventsFault: Option<string>, monthsFault: Option<string>)
    requires Backend.GetStats(db, claims, dbFault, eventsFault, monthsFault).Reply?
    ensures var effect := Dashboard.Project(Some(StatsBody(Backend.GetStats(db, claims, dbFault, eventsFault, monthsFault))));
            && effect.Drawn?
            && |effect.bar.labels| == |effect.bar.data|
            && (forall i :: 0 <= i < |effect.bar.labels| ==>
                  effect.bar.labels[i] in Backend.EventNames(db.changes)
                  && effect.bar.data[i] == multiset(Backend.EventNames(db.changes))[effect.bar.labels[i]])
            && Backend.Sum(Backend.GetStats(db, claims, dbFault, eventsFault, monthsFault).body.cvesPerEvent) == |db.changes|
            && (forall i :: 0 <= i < |effect.line.labels| ==> effect.line.labels[i] in Backend.Months(db.changes))
  {
    var stats := Backend.GetStats(db, claims, dbFault, eventsFault, monthsFault).body;
    var effect := Dashboard.Project(Some(StatsBody(Backend.GetStats(db, claims, dbFault, eventsFault, monthsFault))));
    forall i | 0 <= i < |effect.bar.labels|
      ensures effect.bar.labels[i] in Backend.EventNames(db.changes)
      ensures effect.bar.data[i] == multiset(Backend.EventNames(db.changes))[effect.bar.labels[i]]
    {
      LookupAt(stats.cvesPerEvent, i);
    }
    forall i | 0 <= i < |effect.line.labels| ensures effect.line.labels[i] in Backend.Months(db.changes) {
      assert Lookup(stats.cvesOverTime, effect.line.labels[i]).Some?;
    }
  }

  /** A refused /stats request whose message is empty (a driver error with no text)
      passes the `detail` check and makes the chart effect throw. */
  lemma EmptyStatsFaultThrows(db: Backend.Tables, claims: Backend.Claims)
    ensures Backend.GetStats(db, Some(claims), Some(""), None, None) == Backend.Refused(500, "")
    ensures Dashboard.Project(Some(StatsBody(Backend.GetStats(db, Some(claims), Some(""), None, None)))) == Dashboard.ThrewBeforeBar
  {
  }

  // ----- Month order -----

  /** An ascending sequence is ordered pair by pair, not only neighbour by neighbour. */
  lemma {:induction false} AscendingPairwise(s: seq<string>, i: nat, j: nat)
    requires forall k :: 0 < k < |s| ==> LexLeq(s[k - 1], s[k])
    requires i <= j < |s|
    ensures LexLeq(s[i], s[j])
  {
    if i < j {
      AscendingPairwise(s, i, j - 1);
      if s[i] != s[j - 1] && s[j - 1] != s[j] {
        LexLessTransitive(s[i], s[j - 1], s[j]);
      }
    }
  }

  /** The line chart built from a /stats reply runs forward in time: from year 1000
      on, of two labels the later one never names an earlier month. */
  lemma LineChartChronological(db: Backend.Tables, claims: Option<Backend.Claims>, dbFault: Option<string>,
                               eventsFault: Option<string>, monthsFault: Option<string>,
                               i: nat, j: nat, a: CveChange, b: CveChange)
    requires Backend.GetStats(db, claims, dbFault, eventsFault, monthsFault).Reply?
    requires a.created.year >= 1000 && b.created.year >= 1000
    requires var line := Dashboard.LineChart(Backend.GetStats(db, claims, dbFault, eventsFault, monthsFault).body.cvesOverTime);
             && i < j < |line.labels|
             && Backend.MonthKey(a.created) == line.labels[i] && Backend.MonthKey(b.created) == line.labels[j]
    ensures a.created.year < b.created.year || (a.created.year == b.created.year && a.created.month <= b.created.month)
  {
    var line := Dashboard.LineChart(Backend.GetStats(db, claims, dbFault, eventsFault, monthsFault).body.cvesOverTime);
    AscendingPairwise(line.labels, i, j);
    Backend.MonthKeyOrder(a.created, b.created);
  }

  // ----- The dashboard against the API -----

  /** One list request from the dashboard answered by the API as written: the page's
      query is the one read, and a refusal still replaces the table and the page
      count, both with undefined, which leaves the next button enabled. */
  method DeliverList(home: Dashboard.Home, db: Backend.Tables, claims: Option<Backend.Claims>, dbFault: Option<string>,
                     countFault: Option<string>, pageFault: Option<string>)
    returns (r: Backend.Response<Backend.CvePage>)
    requires home.Valid() && home.token != ""
    modifies home`data, home`totalPages
    ensures home.Valid()
    ensures r == Backend.GetCves(db, claims, dbFault, countFault, pageFault, Dashboard.ListQuery(home.page, home.appliedFilter))
    ensures r.Reply? ==> home.data == Some(r.body.cves) && home.totalPages == Some(r.body.totalPages)
    ensures r.Refused? ==> home.data.None? && home.totalPages.None? && home.NextEnabled()
  {
    var q := Dashboard.ListQuery(home.page, home.appliedFilter);
    r := Backend.GetCves(db, claims, dbFault, countFault, pageFault, q);
    var sent := home.ListEffect(Responded(OkStatus(r.status), ListBody(r)));
  }
}
