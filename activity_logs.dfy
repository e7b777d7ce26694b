/** routes/activityLogs.js: the admin-only listing of activity-log
    entries. The handler turns the query string into a find filter and a
    page size; the database sorts and cuts the page. */
module ActivityLogs {
  import opened Base
  import opened Text
  import opened Accounts
  import opened Sorting
  import Auth

  /** The value of `Number(s)`: not a number, or an integer. */
  datatype NumberValue = NaN | Finite(n: int)

  predicate IsDigit(c: char) {
    '0' <= c <= '9'
  }

  predicate AllDigits(s: string) {
    forall k :: 0 <= k < |s| ==> IsDigit(s[k])
  }

  /** The value of a run of decimal digits, most significant first. */
  function DigitsValue(s: string): nat
    requires AllDigits(s)
  {
    if |s| == 0 then 0 else DigitsValue(s[..|s| - 1]) * 10 + (s[|s| - 1] as int - '0' as int)
  }

  function UnsignedValue(s: string): NumberValue {
    if s != "" && AllDigits(s) then Finite(DigitsValue(s)) else NaN
  }

  /** `Number(s)` for a query-string value: surrounding white space is
      ignored, a blank string is 0, an optionally signed run of decimal
      digits is its value, anything else is NaN. */
  function JsNumber(s: string): NumberValue {
    var t := Trim(s);
    if t == "" then Finite(0)
    else if t[0] == '-' then
      match UnsignedValue(t[1..])
      case NaN => NaN
      case Finite(n) => Finite(-n)
    else if t[0] == '+' then UnsignedValue(t[1..])
    else UnsignedValue(t)
  }

  function DigitChar(d: nat): char
    requires d < 10
  {
    ('0' as int + d) as char
  }

  /** The decimal numeral of `n`, as a client writes it in `?limit=`. */
  function Decimal(n: nat): (s: string)
    ensures s != [] && AllDigits(s)
  {
    if n < 10 then [DigitChar(n)] else Decimal(n / 10) + [DigitChar(n % 10)]
  }

  lemma {:induction false} DecimalValue(n: nat)
    ensures DigitsValue(Decimal(n)) == n
  {
    if n >= 10 {
      var s := Decimal(n);
      assert s[..|s| - 1] == Decimal(n / 10);
      DecimalValue(n / 10);
    }
  }

  /** `Number` reads back a numeral with any white space around it. */
  lemma NumberOfNumeral(pre: string, n: nat, post: string)
    requires AllSpace(pre) && AllSpace(post)
    ensures JsNumber(pre + Decimal(n) + post) == Finite(n)
  {
    var d := Decimal(n);
    DecimalValue(n);
    TrimPadded(pre, d, post);
    assert d[0] != '-' && d[0] != '+';
  }

  /** ... and a numeral with a minus sign in front. */
  lemma NumberOfNegativeNumeral(pre: string, n: nat, post: string)
    requires AllSpace(pre) && AllSpace(post)
    ensures JsNumber(pre + ("-" + Decimal(n)) + post) == Finite(-(n as int))
  {
    var d := Decimal(n);
    DecimalValue(n);
    assert UnsignedValue(d) == Finite(n);
    var m := "-" + d;
    assert m[0] == '-' && m[1..] == d && m[|m| - 1] == d[|d| - 1];
    assert IsDigit(d[|d| - 1]);
    TrimPadded(pre, m, post);
  }

  /** A blank `limit` is the number 0. */
  lemma BlankIsZero(s: string)
    requires AllSpace(s)
    ensures JsNumber(s) == Finite(0)
  {
    TrimStartAllSpace(s);
  }

  function Min(a: int, b: int): int {
    if a <= b then a else b
  }

  /** `Math.min(Number(limit) || 100, 500)` with `limit` defaulting to 100:
      never above 500, never 0, and 100 whenever the value is missing,
      zero or not a number. A negative value passes through. */
  function EffectiveLimit(limit: Option<string>): (n: int)
    ensures n <= 500 && n != 0
    ensures limit.None? ==> n == 100
    ensures limit.Some? && (JsNumber(limit.value).NaN? || JsNumber(limit.value) == Finite(0)) ==> n == 100
    ensures limit.Some? && JsNumber(limit.value).Finite? && JsNumber(limit.value).n > 0 ==>
              n == Min(JsNumber(limit.value).n, 500)
    ensures n < 0 <==> limit.Some? && JsNumber(limit.value).Finite? && JsNumber(limit.value).n < 0
  {
    var v := if limit.None? then Finite(100) else JsNumber(limit.value);
    var chosen := if v.NaN? || v.n == 0 then 100 else v.n;
    Min(chosen, 500)
  }

  /** For a plain numeral the limit is the numeral capped at 500, and 0
      becomes the default of 100. */
  lemma LimitOfNumeral(pre: string, n: nat, post: string)
    requires AllSpace(pre) && AllSpace(post)
    ensures EffectiveLimit(Some(pre + Decimal(n) + post)) == (if n == 0 then 100 else Min(n, 500))
  {
    NumberOfNumeral(pre, n, post);
  }

  /** A blank `limit` gives the default page of 100. */
  lemma BlankLimitIsDefault(s: string)
    requires AllSpace(s)
    ensures EffectiveLimit(Some(s)) == 100
  {
    BlankIsZero(s);
  }

  /** A stored log entry with its creation time. */
  datatype LogEntry = LogEntry(activity: Activity, createdAt: int)

  function CreatedAt(e: LogEntry): int {
    e.createdAt
  }

  /** `action ? { action } : {}`: a filter on the action only when the
      query names a non-empty one. */
  function ActionFilter(action: Option<string>): (f: Option<string>)
    ensures f.Some? <==> Present(action)
    ensures f.Some? ==> f == action
  {
    if Present(action) then action else None
  }

  predicate MatchesFilter(e: LogEntry, f: Option<string>) {
    f.None? || e.activity.action == f.value
  }

  /** The entries a find with filter `f` selects, in stored order. */
  function Selected(logs: seq<LogEntry>, f: Option<string>): (r: seq<LogEntry>)
    ensures forall e :: e in r <==> e in logs && MatchesFilter(e, f)
    ensures multiset(r) <= multiset(logs)
  {
    if |logs| == 0 then []
    else
      var rest := Selected(logs[1..], f);
      assert logs == [logs[0]] + logs[1..];
      if MatchesFilter(logs[0], f) then [logs[0]] + rest else rest
  }

  /** Without an `action` the filter selects every entry. */
  lemma {:induction false} NoActionSelectsAll(logs: seq<LogEntry>, action: Option<string>)
    requires !Present(action)
    ensures Selected(logs, ActionFilter(action)) == logs
  {
    var f := ActionFilter(action);
    assert f.None?;
    if |logs| > 0 {
      NoActionSelectsAll(logs[1..], action);
      assert MatchesFilter(logs[0], f);
      assert Selected(logs, f) == [logs[0]] + Selected(logs[1..], f);
      assert [logs[0]] + logs[1..] == logs;
    }
  }

  function Abs(n: int): nat {
    if n < 0 then -n else n
  }

  /** What the database sends back for `find(f).sort({ createdAt: -1 })
      .limit(n)`: selected entries, newest first, and none of the selected
      entries left out is newer than one sent. A limit of 0 sends them all
      and a positive limit as many as it allows. A negative limit asks for
      a single batch of at most `|n|` entries; how many the batch holds is
      the database's choice, so only that bound is stated. */
  ghost predicate ServedPage(logs: seq<LogEntry>, f: Option<string>, n: int, page: seq<LogEntry>) {
    var selected := Selected(logs, f);
    && SortedDesc(page, CreatedAt)
    && multiset(page) <= multiset(selected)
    && (n >= 0 ==> |page| == (if n == 0 || n >= |selected| then |selected| else n))
    && (n < 0 ==> |page| <= Abs(n))
    && forall e, x :: e in multiset(selected) - multiset(page) && x in page ==> x.createdAt >= e.createdAt
  }

  /** The `k` newest selected entries, ties in stored order. */
  function NewestSelected(logs: seq<LogEntry>, f: Option<string>, k: nat): (page: seq<LogEntry>)
    requires k <= |Selected(logs, f)|
    ensures |page| == k
  {
    StableSortDesc(Selected(logs, f), CreatedAt)[..k]
  }

  /** The first `k` entries of a newest-first rearrangement of `sel` are
      newest first, drawn from `sel`, and no entry of `sel` left out is
      newer than one kept. */
  lemma SortedPrefixIsNewest(sel: seq<LogEntry>, s: seq<LogEntry>, k: nat)
    requires SortedDesc(s, CreatedAt) && multiset(s) == multiset(sel) && k <= |s|
    ensures SortedDesc(s[..k], CreatedAt)
    ensures multiset(s[..k]) <= multiset(sel)
    ensures forall e, x :: e in multiset(sel) - multiset(s[..k]) && x in s[..k] ==> x.createdAt >= e.createdAt
  {
    PrefixDominates(s, CreatedAt, k);
    assert s == s[..k] + s[k..];
    assert multiset(sel) - multiset(s[..k]) == multiset(s[k..]);
  }

  /** For a negative limit `n`, the `k <= |n|` newest selected entries are
      a page the database may serve. */
  lemma NewestSelectedServed(logs: seq<LogEntry>, f: Option<string>, n: int, k: nat)
    requires n < 0 && k <= Abs(n) && k <= |Selected(logs, f)|
    ensures ServedPage(logs, f, n, NewestSelected(logs, f, k))
  {
    var sel := Selected(logs, f);
    var s := StableSortDesc(sel, CreatedAt);
    StableSortSorted(sel, CreatedAt);
    StableSortPermutes(sel, CreatedAt);
    SortedPrefixIsNewest(sel, s, k);
  }

  /** The find the handler issues. */
  datatype LogQuery = LogQuery(filter: Option<string>, limit: int)

  /** `GET /` (admins only): the filter and page size sent to the database. */
  function ListLogs(caller: User, limit: Option<string>, action: Option<string>): (r: Response<LogQuery>)
    ensures !caller.isAdmin ==> r == Fail(403, "Access denied. Admins only.")
    ensures caller.isAdmin ==> r == Ok(LogQuery(ActionFilter(action), EffectiveLimit(limit)))
  {
    var gate := Auth.RequireAdmin(Some(caller));
    if gate.Deny? then Fail(gate.status, gate.message)
    else Ok(LogQuery(ActionFilter(action), EffectiveLimit(limit)))
  }

  /** Every entry served for a listing matches the requested action, and
      the page is ordered newest first. */
  lemma ServedEntriesMatch(logs: seq<LogEntry>, caller: User, limit: Option<string>, action: Option<string>,
                           page: seq<LogEntry>)
    requires ListLogs(caller, limit, action).Ok?
    requires var q := ListLogs(caller, limit, action).value; ServedPage(logs, q.filter, q.limit, page)
    ensures caller.isAdmin
    ensures forall e :: e in page ==> e in logs && (Present(action) ==> e.activity.action == action.value)
    ensures SortedDesc(page, CreatedAt)
  {
    var q := ListLogs(caller, limit, action).value;
    forall e | e in page
      ensures e in logs && (Present(action) ==> e.activity.action == action.value)
    {
      assert e in multiset(page);
      assert e in multiset(Selected(logs, q.filter));
    }
  }

  /** A page served for a positive limit holds at most 500 entries. */
  lemma PositiveLimitPageBounded(logs: seq<LogEntry>, f: Option<string>, limit: Option<string>, page: seq<LogEntry>)
    requires EffectiveLimit(limit) > 0
    requires ServedPage(logs, f, EffectiveLimit(limit), page)
    ensures |page| <= 500
  {
  }

  /** A negative numeral passes the clamp untouched. */
  lemma NegativeNumeralLimit(n: nat)
    requires n > 0
    ensures EffectiveLimit(Some("-" + Decimal(n))) == -(n as int)
  {
    var d := Decimal(n);
    DecimalValue(n);
    assert UnsignedValue(d) == Finite(n);
    var m := "-" + d;
    assert m[0] == '-' && m[1..] == d && m[|m| - 1] == d[|d| - 1];
    assert IsDigit(d[|d| - 1]);
    TrimUnpadded(m);
    assert JsNumber(m) == Finite(-(n as int));
  }

  /** So `?limit=-n` bounds the page by `n`, not by 500: with more than
      500 matching entries, the `n` newest of them are a page the database
      may serve. */
  lemma NegativeLimitExceedsCap(logs: seq<LogEntry>, f: Option<string>, n: nat)
    requires n > 500
    requires |Selected(logs, f)| >= n
    ensures ServedPage(logs, f, EffectiveLimit(Some("-" + Decimal(n))), NewestSelected(logs, f, n))
    ensures |NewestSelected(logs, f, n)| > 500
  {
    NegativeNumeralLimit(n);
    NewestSelectedServed(logs, f, -(n as int), n);
  }

  /** The page size with the cap applied to negative values too: a
      negative value falls back to the default, like 0 and NaN do. */
  function CappedLimit(limit: Option<string>): (n: int)
    ensures 0 < n <= 500
    ensures EffectiveLimit(limit) > 0 ==> n == EffectiveLimit(limit)
    ensures EffectiveLimit(limit) < 0 ==> n == 100
  {
    var n := EffectiveLimit(limit);
    if n < 0 then 100 else n
  }

  /** With the corrected page size no page holds more than 500 entries,
      whatever `limit` says. */
  lemma CappedPageAtMost500(logs: seq<LogEntry>, f: Option<string>, limit: Option<string>, page: seq<LogEntry>)
    requires ServedPage(logs, f, CappedLimit(limit), page)
    ensures |page| <= 500
  {
  }

  /** The listing with the corrected page size. */
  function ListLogsCapped(caller: User, limit: Option<string>, action: Option<string>): (r: Response<LogQuery>)
    ensures !caller.isAdmin ==> r == Fail(403, "Access denied. Admins only.")
    ensures caller.isAdmin ==> r == Ok(LogQuery(ActionFilter(action), CappedLimit(limit)))
    ensures r.Ok? ==> 0 < r.value.limit <= 500
  {
    match ListLogs(caller, limit, action)
    case Fail(status, message) => Fail(status, message)
    case Ok(q) => Ok(q.(limit := CappedLimit(limit)))
  }
}
