/** The shapes that travel between the API and the pages: the cve_changes rows
    (CVEChange.as_dict, backend/models.py), the nvd_users rows, JSON objects of
    counts, and query strings. */
module Records {
  import opened Wrappers

  type Year = y: int | 1 <= y <= 9999 witness 1970
  type MonthNumber = m: int | 1 <= m <= 12 witness 1
  type DayNumber = d: int | 1 <= d <= 31 witness 1

  /** A `created` timestamp: a calendar day and the microseconds since its midnight. */
  datatype Stamp = Stamp(year: Year, month: MonthNumber, day: DayNumber, micros: nat)

  /** Chronological order on timestamps: a is not later than b. */
  predicate NotAfter(a: Stamp, b: Stamp)
  {
    || a.year < b.year
    || (a.year == b.year && a.month < b.month)
    || (a.year == b.year && a.month == b.month && a.day < b.day)
    || (a.year == b.year && a.month == b.month && a.day == b.day && a.micros <= b.micros)
  }

  /** One entry of a change's `details` list: what changed, and the old and new value
      when the record carries them. */
  datatype Detail = Detail(action: string, kind: string, oldValue: Option<string>, newValue: Option<string>)

  /** A row of cve_changes, with the fields CVEChange.as_dict produces. */
  datatype CveChange = CveChange(
    id: int,
    cveId: string,
    eventName: string,
    sourceIdentifier: string,
    created: Stamp,
    details: seq<Detail>)

  /** A row of nvd_users. */
  datatype User = User(email: string, hashedPassword: string)

  /** A JSON object of numbers (a Python dict, a JavaScript Record<string, number>)
      as its entries in insertion order. Object.keys lists integer-like keys such as
      "12" first, in numeric order. Month keys ("YYYY-MM") and NVD's event names are
      not integer-like, so that rule is not modelled. */
  type Entries = seq<(string, int)>

  /** The keys of a list of pairs, in order. */
  function Keys<V>(e: seq<(string, V)>): seq<string>
  {
    seq(|e|, i requires 0 <= i < |e| => e[i].0)
  }

  /** The keys of a list that starts with h: h's key, then the rest's keys. */
  lemma KeysCons<V>(h: (string, V), t: seq<(string, V)>)
    ensures Keys([h] + t) == [h.0] + Keys(t)
  {
    var e := [h] + t;
    forall i | 0 < i < |e| ensures Keys(e)[i] == Keys(t)[i - 1] {
      assert e[i] == t[i - 1];
    }
  }

  function Values(e: Entries): seq<int>
  {
    seq(|e|, i requires 0 <= i < |e| => e[i].1)
  }

  predicate DistinctKeys(e: Entries)
  {
    forall i, j :: 0 <= i < j < |e| ==> e[i].0 != e[j].0
  }

  /** The value stored under k (obj[k]), None when k is not a key. */
  function Lookup(e: Entries, k: string): (r: Option<int>)
    ensures r.Some? <==> k in Keys(e)
    ensures r.Some? ==> (k, r.value) in e
  {
    if e == [] then None
    else
      assert Keys(e) == [e[0].0] + Keys(e[1..]);
      if e[0].0 == k then Some(e[0].1) else Lookup(e[1..], k)
  }

  /** With distinct keys, the entry at position i is what its key looks up. */
  lemma {:induction false} LookupAt(e: Entries, i: nat)
    requires DistinctKeys(e) && i < |e|
    ensures Lookup(e, e[i].0) == Some(e[i].1)
  {
    if i > 0 {
      assert e[0].0 != e[i].0;
      LookupAt(e[1..], i - 1);
    }
  }

  /** A query string or a form body (URLSearchParams) as its key/value pairs in order. */
  type Query = seq<(string, string)>

  /** The value the API reads for key: the last pair with that key, as Starlette's
      QueryParams and FormData give it; None when the key is absent. */
  function Param(q: Query, key: string): (r: Option<string>)
    ensures r.Some? ==> (key, r.value) in q
    ensures r.None? ==> forall i :: 0 <= i < |q| ==> q[i].0 != key
  {
    if q == [] then None
    else if q[|q| - 1].0 == key then Some(q[|q| - 1].1)
    else Param(q[..|q| - 1], key)
  }

  /** A repeated key reads as its last pair: the value read is that of a pair with
      the key after which no pair has it. */
  lemma {:induction false} ParamLast(q: Query, key: string)
    requires Param(q, key).Some?
    ensures exists i :: 0 <= i < |q| && q[i] == (key, Param(q, key).value) && forall j :: i < j < |q| ==> q[j].0 != key
  {
    if q[|q| - 1].0 == key {
      assert q[|q| - 1] == (key, Param(q, key).value);
    } else {
      var init := q[..|q| - 1];
      ParamLast(init, key);
      var i :| 0 <= i < |init| && init[i] == (key, Param(init, key).value) && forall j :: i < j < |init| ==> init[j].0 != key;
      assert q[i] == init[i];
      assert forall j :: i < j < |q| - 1 ==> q[j] == init[j];
    }
  }

  /** A query of one pair answers for its own key only. */
  lemma ParamSingle(k: string, v: string, key: string)
    ensures Param([(k, v)], key) == if k == key then Some(v) else None
  {
    assert [(k, v)][..0] == [];
  }

  /** Appending pairs: the later pairs decide a key they carry; otherwise the earlier
      pairs do. */
  lemma {:induction false} ParamConcat(a: Query, b: Query, key: string)
    ensures Param(a + b, key) == if Param(b, key).Some? then Param(b, key) else Param(a, key)
  {
    if b != [] {
      assert (a + b)[..|a + b| - 1] == a + b[..|b| - 1];
      ParamConcat(a, b[..|b| - 1], key);
    } else {
      assert a + b == a;
    }
  }
}
