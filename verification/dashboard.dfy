/** The dashboard page (frontend/src/app/page.tsx): the state of the Home component,
    the handlers and effects that move it, and the pure derivations it renders from
    (the request queries, the two charts and the details cell). Each request is one
    step that receives the outcome it settles with. */
module Dashboard {
  import opened Wrappers
  import opened Text
  import opened Records
  import opened Browser
  import Sorting

  // ----- Queries -----

  /** The draft and the applied filter, `{ cve_id, event_name }`. */
  datatype Filter = Filter(cveId: string, eventName: string)

  const NoFilter := Filter("", "")

  /** Number.prototype.toString on an integer. */
  function NumberText(n: int): (s: string)
    ensures n >= 0 ==> ParseDecimal(s) == Some(n)
  {
    if n >= 0 then Decimal(n) else "-" + Decimal(-n)
  }

  /** The spread entries `...(field && { key: field.trim() })`: the query of /export. */
  function ExportQuery(f: Filter): Query
  {
    var c: Query := if f.cveId != "" then [("cve_id", Trim(f.cveId))] else [];
    var e: Query := if f.eventName != "" then [("event_name", Trim(f.eventName))] else [];
    c + e
  }

  /** What the API reads from the export query: no page, and each field, trimmed,
      only when it is non-empty. */
  lemma ExportQueryParams(f: Filter)
    ensures var q := ExportQuery(f);
            && Param(q, "cve_id") == (if f.cveId != "" then Some(Trim(f.cveId)) else None)
            && Param(q, "event_name") == (if f.eventName != "" then Some(Trim(f.eventName)) else None)
            && Param(q, "page").None?
  {
    var c: Query := if f.cveId != "" then [("cve_id", Trim(f.cveId))] else [];
    var e: Query := if f.eventName != "" then [("event_name", Trim(f.eventName))] else [];
    assert ExportQuery(f) == c + e;
    ExportQueryParam(c, e, "cve_id");
    ExportQueryParam(c, e, "event_name");
    ExportQueryParam(c, e, "page");
  }

  /** One key of the spread query, read from its cve_id part c and its event_name part e. */
  lemma ExportQueryParam(c: Query, e: Query, key: string)
    requires c == [] || (|c| == 1 && c[0].0 == "cve_id")
    requires e == [] || (|e| == 1 && e[0].0 == "event_name")
    ensures Param(c + e, key) ==
              if e != [] && key == "event_name" then Some(e[0].1)
              else if c != [] && key == "cve_id" then Some(c[0].1)
              else None
  {
    ParamConcat(c, e, key);
    if c != [] { ParamSingle(c[0].0, c[0].1, key); assert c == [(c[0].0, c[0].1)]; }
    if e != [] { ParamSingle(e[0].0, e[0].1, key); assert e == [(e[0].0, e[0].1)]; }
  }

  /** The export query's keys, in order: cve_id when that field is filled, then
      event_name when that one is. */
  lemma ExportQueryKeys(f: Filter)
    ensures Keys(ExportQuery(f)) ==
              (if f.cveId != "" then ["cve_id"] else []) + (if f.eventName != "" then ["event_name"] else [])
  {
    var c: Query := if f.cveId != "" then [("cve_id", Trim(f.cveId))] else [];
    var e: Query := if f.eventName != "" then [("event_name", Trim(f.eventName))] else [];
    assert ExportQuery(f) == c + e;
    if c != [] {
      KeysCons(c[0], e);
      assert c + e == [c[0]] + e;
    }
    if e != [] {
      KeysCons(e[0], []);
      assert e == [e[0]] + [];
    }
  }

  /** The query of /cves: `page` first, then the export query's entries. */
  function ListQuery(page: int, f: Filter): Query
  {
    [("page", NumberText(page))] + ExportQuery(f)
  }

  /** What the API reads from the list query: the page's text, and each field,
      trimmed, only when it is non-empty. */
  lemma ListQueryParams(page: int, f: Filter)
    ensures var q := ListQuery(page, f);
            && Param(q, "page") == Some(NumberText(page))
            && Param(q, "cve_id") == (if f.cveId != "" then Some(Trim(f.cveId)) else None)
            && Param(q, "event_name") == (if f.eventName != "" then Some(Trim(f.eventName)) else None)
  {
    var head: Query := [("page", NumberText(page))];
    var rest := ExportQuery(f);
    ExportQueryParams(f);
    ParamConcat(head, rest, "page");
    ParamConcat(head, rest, "cve_id");
    ParamConcat(head, rest, "event_name");
  }

  /** The list query's keys, in order: page, then those of the export query. */
  lemma ListQueryKeys(page: int, f: Filter)
    ensures Keys(ListQuery(page, f)) == ["page"] + Keys(ExportQuery(f))
  {
    KeysCons(("page", NumberText(page)), ExportQuery(f));
  }

  /** The emptiness test runs before trim, so a field of spaces is sent, as "". */
  lemma BlankFieldSentEmpty(page: int, f: Filter)
    requires f.cveId != "" && Blank(f.cveId)
    ensures Param(ListQuery(page, f), "cve_id") == Some("")
    ensures Param(ExportQuery(f), "cve_id") == Some("")
  {
    ListQueryParams(page, f);
    ExportQueryParams(f);
  }

  // ----- Charts -----

  /** The labels and numbers handed to one chart. */
  datatype Chart = Chart(labels: seq<string>, data: seq<int>)

  /** The bar chart: Object.keys and Object.values of cves_per_event, pair by pair. */
  function BarChart(perEvent: Entries): (c: Chart)
    ensures |c.labels| == |c.data| == |perEvent|
    ensures forall i :: 0 <= i < |perEvent| ==> perEvent[i] == (c.labels[i], c.data[i])
  {
    Chart(Keys(perEvent), Values(perEvent))
  }

  /** `keys.map((k) => obj[k])` */
  function ValuesOf(e: Entries, ks: seq<string>): (vs: seq<int>)
    requires forall k :: k in ks ==> k in Keys(e)
    ensures |vs| == |ks|
    ensures forall i :: 0 <= i < |ks| ==> Lookup(e, ks[i]) == Some(vs[i])
  {
    if ks == [] then [] else [Lookup(e, ks[0]).value] + ValuesOf(e, ks[1..])
  }

  /** The line chart: the keys of cves_over_time in ascending string order (the
      default .sort()), each with its own count. */
  function LineChart(overTime: Entries): (c: Chart)
    ensures |c.labels| == |c.data| == |overTime|
    ensures multiset(c.labels) == multiset(Keys(overTime))
    ensures forall i :: 0 < i < |c.labels| ==> LexLeq(c.labels[i - 1], c.labels[i])
    ensures forall i :: 0 <= i < |c.labels| ==> Lookup(overTime, c.labels[i]) == Some(c.data[i])
  {
    LexLeqTotal();
    Sorting.InsertionSortSorted(Keys(overTime), LexLeq);
    var sorted := Sorting.InsertionSort(Keys(overTime), LexLeq);
    assert |sorted| == |multiset(sorted)| == |multiset(Keys(overTime))| == |overTime|;
    assert forall k :: k in sorted ==> k in Keys(overTime) by {
      forall k | k in sorted ensures k in Keys(overTime) {
        assert k in multiset(sorted);
      }
    }
    Chart(sorted, ValuesOf(overTime, sorted))
  }

  /** The fields of the JSON body the page reads from /stats; an error body carries
      only `detail`. */
  datatype StatsJson = StatsJson(cvesPerEvent: Option<Entries>, cvesOverTime: Option<Entries>, detail: Option<string>)

  /** What the chart effect does with the stats it sees. */
  datatype ChartEffect =
    | Skipped                       // returned early: no stats, or a truthy detail
    | ThrewBeforeBar                // Object.keys(undefined) on a missing cves_per_event
    | ThrewAfterBar(bar: Chart)     // the bar chart was set, then cves_over_time was missing
    | Drawn(bar: Chart, line: Chart)

  /** The chart effect as a value: it skips null stats and error bodies with a truthy
      detail, and otherwise projects both maps. */
  function Project(stats: Option<StatsJson>): (e: ChartEffect)
    ensures e.Skipped? <==> stats.None? || Truthy(stats.value.detail)
    ensures e.Drawn? <==>
      stats.Some? && !Truthy(stats.value.detail) && stats.value.cvesPerEvent.Some? && stats.value.cvesOverTime.Some?
    ensures e.ThrewBeforeBar? <==>
      stats.Some? && !Truthy(stats.value.detail) && stats.value.cvesPerEvent.None?
    ensures e.Drawn? ==>
      e.bar == BarChart(stats.value.cvesPerEvent.value) && e.line == LineChart(stats.value.cvesOverTime.value)
    ensures e.ThrewAfterBar? ==>
      stats.Some? && stats.value.cvesPerEvent.Some? && stats.value.cvesOverTime.None?
      && e.bar == BarChart(stats.value.cvesPerEvent.value)
  {
    if stats.None? || Truthy(stats.value.detail) then Skipped
    else match stats.value.cvesPerEvent
      case None => ThrewBeforeBar
      case Some(perEvent) =>
        match stats.value.cvesOverTime
        case None => ThrewAfterBar(BarChart(perEvent))
        case Some(overTime) => Drawn(BarChart(perEvent), LineChart(overTime))
  }

  // ----- The details cell -----

  const NoDetails := "No details found"

  /** A template literal's rendering of an optional string: undefined prints as "undefined". */
  function Shown(v: Option<string>): string
  {
    if v.Some? then v.value else "undefined"
  }

  /** `d.newValue || d.oldValue`: the new value when it is truthy, else the old one. */
  function ShownValue(d: Detail): (s: string)
    ensures Truthy(d.newValue) ==> s == d.newValue.value
    ensures !Truthy(d.newValue) ==> s == Shown(d.oldValue)
  {
    if Truthy(d.newValue) then d.newValue.value else Shown(d.oldValue)
  }

  /** `${d.action}: ${d.type} -> ${d.newValue || d.oldValue}` */
  function DetailLine(d: Detail): string
  {
    d.action + ": " + d.kind + " -> " + ShownValue(d)
  }

  function DetailLines(ds: seq<Detail>): (lines: seq<string>)
    ensures |lines| == |ds|
    ensures forall i :: 0 <= i < |ds| ==> lines[i] == DetailLine(ds[i])
  {
    seq(|ds|, i requires 0 <= i < |ds| => DetailLine(ds[i]))
  }

  /** The details cell: one line per detail joined by newlines, or "No details found"
      when there are none; a cell with details never reads "No details found". */
  function DetailsCell(ds: seq<Detail>): (s: string)
    ensures ds == [] <==> s == NoDetails
    ensures ds != [] ==> IsPrefix(DetailLine(ds[0]), s)
  {
    if ds == [] then NoDetails
    else
      var s := Join(DetailLines(ds), '\n');
      var first := DetailLine(ds[0]);
      assert first[|ds[0].action|] == ':';
      assert s[|ds[0].action|] == ':';
      assert forall j :: 0 <= j < |NoDetails| ==> NoDetails[j] != ':';
      s
  }

  /** When no field holds a newline, the cell splits back into exactly one line per
      detail, in order. */
  lemma DetailsCellLines(ds: seq<Detail>)
    requires ds != []
    requires forall i :: 0 <= i < |ds| ==> '\n' !in DetailLine(ds[i])
    ensures Split(DetailsCell(ds), '\n') == DetailLines(ds)
  {
    SplitJoin(DetailLines(ds), '\n');
  }

  // ----- The component -----

  /** The fields of the JSON body the page reads from /cves; an error body has neither. */
  datatype ListJson = ListJson(cves: Option<seq<CveChange>>, totalPages: Option<int>)

  /** A file the browser is asked to save. */
  datatype Download = Download(fileName: string, content: string)

  const ExportFileName := "cve_data.csv"

  class Home {
    /** sessionStorage */
    var storage: Storage
    /** The path the router shows. */
    var location: string
    var isAuthenticated: bool
    var token: string
    /** None stands for undefined, what an error body's missing `cves` leaves. */
    var data: Option<seq<CveChange>>
    var page: int
    /** None stands for undefined, what an error body's missing `total_pages` leaves. */
    var totalPages: Option<int>
    var filter: Filter
    var appliedFilter: Filter
    var isDownloading: bool
    var stats: Option<StatsJson>
    var barChartData: Option<Chart>
    var lineChartData: Option<Chart>
    var loading: bool

    /** The page number never drops below 1, and an authenticated page holds a token. */
    predicate Valid()
      reads this
    {
      page >= 1 && (isAuthenticated ==> token != "")
    }

    /** The useState initial values. */
    constructor (storage: Storage, location: string)
      ensures Valid()
      ensures this.storage == storage && this.location == location
      ensures !isAuthenticated && token == "" && data == Some([]) && page == 1 && totalPages == Some(1)
      ensures filter == NoFilter && appliedFilter == NoFilter && !isDownloading
      ensures stats.None? && barChartData.None? && lineChartData.None? && loading
    {
      this.storage := storage;
      this.location := location;
      isAuthenticated := false;
      token := "";
      data := Some([]);
      page := 1;
      totalPages := Some(1);
      filter := NoFilter;
      appliedFilter := NoFilter;
      isDownloading := false;
      stats := None;
      barChartData := None;
      lineChartData := None;
      loading := true;
    }

    /** The page renders its content only once authenticated. */
    predicate Renders()
      reads this
    {
      isAuthenticated
    }

    /** logout: drops the stored token and replaces the route with "/login"; the
        component's own state is left as it is. */
    method Logout()
      modifies this`storage, this`location
      ensures storage == old(storage) - {TokenKey} && location == "/login"
    {
      storage := storage - {TokenKey};
      location := "/login";
    }

    /** The mount effect: a truthy stored token is adopted, otherwise logout. */
    method Startup()
      requires Valid()
      modifies this`storage, this`location, this`token, this`isAuthenticated
      ensures Valid()
      ensures Truthy(GetItem(old(storage), TokenKey)) ==>
        && token == old(storage)[TokenKey] && isAuthenticated
        && storage == old(storage) && location == old(location)
      ensures !Truthy(GetItem(old(storage), TokenKey)) ==>
        && token == old(token) && isAuthenticated == old(isAuthenticated)
        && storage == old(storage) - {TokenKey} && location == "/login"
    {
      var stored := GetItem(storage, TokenKey);
      if !Truthy(stored) {
        Logout();
      } else {
        token := stored.value;
        isAuthenticated := true;
      }
    }

    /** fetchData: sends the list query and, whatever the status, replaces data and
        totalPages with the body's fields; a throw leaves both alone. */
    method FetchData(answer: Answer<ListJson>) returns (request: Query)
      requires Valid()
      modifies this`data, this`totalPages
      ensures Valid()
      ensures request == ListQuery(page, appliedFilter)
      ensures answer.Responded? ==> data == answer.body.cves && totalPages == answer.body.totalPages
      ensures answer.Threw? ==> data == old(data) && totalPages == old(totalPages)
    {
      request := ListQuery(page, appliedFilter);
      if answer.Responded? {
        data := answer.body.cves;
        totalPages := answer.body.totalPages;
      }
    }

    /** The effect on [page, appliedFilter, token]: fetches only with a token. */
    method ListEffect(answer: Answer<ListJson>) returns (request: Option<Query>)
      requires Valid()
      modifies this`data, this`totalPages
      ensures Valid()
      ensures token == "" ==> request.None? && data == old(data) && totalPages == old(totalPages)
      ensures token != "" ==> request == Some(ListQuery(page, appliedFilter))
      ensures token != "" && answer.Responded? ==> data == answer.body.cves && totalPages == answer.body.totalPages
      ensures token != "" && answer.Threw? ==> data == old(data) && totalPages == old(totalPages)
    {
      request := None;
      if token != "" {
        var q := FetchData(answer);
        request := Some(q);
      }
    }

    /** fetchStats: whatever the status, the body becomes the stats; a throw leaves
        them alone; loading ends false either way. */
    method FetchStats(answer: Answer<StatsJson>)
      requires Valid()
      modifies this`stats, this`loading
      ensures Valid()
      ensures !loading
      ensures answer.Responded? ==> stats == Some(answer.body)
      ensures answer.Threw? ==> stats == old(stats)
    {
      loading := true;
      if answer.Responded? {
        stats := Some(answer.body);
      }
      loading := false;
    }

    /** The effect on [token]: fetches the stats only with a token. */
    method StatsEffect(answer: Answer<StatsJson>) returns (sent: bool)
      requires Valid()
      modifies this`stats, this`loading
      ensures Valid()
      ensures sent <==> token != ""
      ensures !sent ==> stats == old(stats) && loading == old(loading)
      ensures sent ==> !loading && stats == if answer.Responded? then Some(answer.body) else old(stats)
    {
      sent := token != "";
      if sent {
        FetchStats(answer);
      }
    }

    /** The effect on [stats]: sets the chart data the projection computes; threw
        reports the effect throwing. */
    method DrawCharts() returns (threw: bool)
      requires Valid()
      modifies this`barChartData, this`lineChartData
      ensures Valid()
      ensures threw <==> Project(stats).ThrewBeforeBar? || Project(stats).ThrewAfterBar?
      ensures match Project(stats)
              case Skipped => barChartData == old(barChartData) && lineChartData == old(lineChartData)
              case ThrewBeforeBar => barChartData == old(barChartData) && lineChartData == old(lineChartData)
              case ThrewAfterBar(bar) => barChartData == Some(bar) && lineChartData == old(lineChartData)
              case Drawn(bar, line) => barChartData == Some(bar) && lineChartData == Some(line)
    {
      threw := false;
      match Project(stats) {
        case Skipped =>
        case ThrewBeforeBar =>
          threw := true;
        case ThrewAfterBar(bar) =>
          barChartData := Some(bar);
          threw := true;
        case Drawn(bar, line) =>
          barChartData := Some(bar);
          lineChartData := Some(line);
      }
    }

    /** applyFilters: the draft becomes the applied filter and paging restarts at 1. */
    method ApplyFilters()
      requires Valid()
      modifies this`appliedFilter, this`page
      ensures Valid()
      ensures appliedFilter == filter && page == 1
    {
      appliedFilter := filter;
      page := 1;
    }

    /** Typing in the CVE ID box. */
    method EditCveId(value: string)
      requires Valid()
      modifies this`filter
      ensures Valid()
      ensures filter == old(filter).(cveId := value)
    {
      filter := filter.(cveId := value);
    }

    /** Typing in the event name box. */
    method EditEventName(value: string)
      requires Valid()
      modifies this`filter
      ensures Valid()
      ensures filter == old(filter).(eventName := value)
    {
      filter := filter.(eventName := value);
    }

    /** The previous button is disabled on page 1. */
    predicate PrevEnabled()
      reads this
    {
      page != 1
    }

    /** The next button is disabled when `page >= totalPages`; a comparison with
        undefined is false, so it is enabled when totalPages is undefined. */
    predicate NextEnabled()
      reads this
    {
      !(totalPages.Some? && page >= totalPages.value)
    }

    /** A click on the previous button. */
    method PrevPage()
      requires Valid()
      modifies this`page
      ensures Valid()
      ensures old(PrevEnabled()) ==> page == old(page) - 1
      ensures !old(PrevEnabled()) ==> page == old(page)
    {
      if PrevEnabled() {
        page := page - 1;
      }
    }

    /** A click on the next button. */
    method NextPage()
      requires Valid()
      modifies this`page
      ensures Valid()
      ensures old(NextEnabled()) ==> page == old(page) + 1
      ensures !old(NextEnabled()) ==> page == old(page)
    {
      if NextEnabled() {
        page := page + 1;
      }
    }

    /** downloadCsv: sends the export query; an ok response is saved as
        "cve_data.csv", a non-ok one or a throw saves nothing; isDownloading is
        false again at the end. */
    method DownloadCsv(answer: Answer<string>) returns (request: Query, saved: Option<Download>)
      requires Valid()
      modifies this`isDownloading
      ensures Valid()
      ensures !isDownloading
      ensures request == ExportQuery(appliedFilter)
      ensures saved.Some? <==> answer.Responded? && answer.ok
      ensures saved.Some? ==> saved.value == Download(ExportFileName, answer.body)
    {
      isDownloading := true;
      request := ExportQuery(appliedFilter);
      match answer {
        case Responded(ok, body) =>
          saved := if ok then Some(Download(ExportFileName, body)) else None;
        case Threw(_) =>
          saved := None;
      }
      isDownloading := false;
    }
  }

  /** Opening the dashboard: the component mounts and runs its startup effect. It
      renders only with a truthy stored token, and otherwise sends the browser to
      "/login" without the token key. */
  method Open(storage: Storage, location: string) returns (home: Home)
    ensures fresh(home) && home.Valid()
    ensures home.Renders() <==> Truthy(GetItem(storage, TokenKey))
    ensures home.Renders() ==> home.token == storage[TokenKey] && home.location == location
    ensures !home.Renders() ==> home.location == "/login" && TokenKey !in home.storage
  {
    home := new Home(storage, location);
    home.Startup();
  }
}
