/**
 * The proxy behind `GET /api/daily/:symbol`. It serves a file from the cache directory while
 * the file is at most a day old. Otherwise it asks Alpha Vantage for the daily series,
 * reports the provider's errors, keeps the newest `days` closing prices and caches the
 * payload.
 *
 * The directory is a map from file name to file. The clock is a parameter `now`, in
 * milliseconds. What the provider answers is a parameter `upstream`, and whether the cache
 * write succeeds is a parameter `writeOk`.
 */
module Server {
  import opened Wrappers
  import opened JsText

  /** `TTL_MS`: 24 hours in milliseconds. */
  const TTL_MS: int := 1000 * 60 * 60 * 24

  /** The `days` used when the query gives none, or gives 0 or something that is not a number. */
  const DEFAULT_DAYS: int := 30

  // ---------------------------------------------------------------------------
  // Request parameters
  // ---------------------------------------------------------------------------

  /** `parseInt(req.query.days) || 30`: an absent parameter is the string "undefined". */
  function DaysFromQuery(query: Option<string>): (days: int)
    ensures days != 0
  {
    var parsed := ParseInt(if query.Some? then query.value else "undefined");
    if parsed.Some? && parsed.value != 0 then parsed.value else DEFAULT_DAYS
  }

  /**
   * An absent, empty or zero `days` falls back to 30. Any other integer spelled in the query
   * is taken as it is, even a negative one, and also when other text follows it.
   */
  lemma DaysFromQueryCases(n: int, rest: string)
    requires |rest| == 0 || DigitValue(rest[0]) >= 10
    requires n == 0 ==> |rest| == 0 || (rest[0] != 'x' && rest[0] != 'X')
    ensures DaysFromQuery(None) == 30
    ensures DaysFromQuery(Some("")) == 30
    ensures DaysFromQuery(Some(IntToString(n) + rest)) == if n == 0 then 30 else n
  {
    ParseIntPrefix(n, rest);
    assert ParseUnsigned("undefined") == None by {
      assert DigitValue("undefined"[0]) >= 10;
    }
    ReadAlpha("undefined");
  }

  /**
   * A query with no digit after the optional sign, such as `abc`, `-` or a blank, is `NaN`
   * for `parseInt` and falls back to 30.
   */
  lemma DaysFromQueryNonNumeric(s: string)
    requires var t := TrimStart(s);
      var u := if |t| > 0 && (t[0] == '-' || t[0] == '+') then t[1..] else t;
      |u| == 0 || DigitValue(u[0]) >= 10
    ensures ParseInt(s).None?
    ensures DaysFromQuery(Some(s)) == 30
  {
  }

  lemma ReadAlpha(u: string)
    requires |u| > 0 && 'a' <= u[0] <= 'z'
    ensures ParseInt(u) == Signed(false, ParseUnsigned(u))
  {
    NothingToTrim(u);
    assert u[0] != '-' && u[0] != '+';
  }

  // ---------------------------------------------------------------------------
  // Cache file names
  // ---------------------------------------------------------------------------

  /** `cachePath`: the file name `${symbol.toUpperCase()}_${days}.json` in the cache directory. */
  function CacheName(symbol: string, daysText: string): string
  {
    Upper(symbol) + "_" + daysText + ".json"
  }

  /** The file `readCache(symbol, days)` looks at. */
  function ReadKey(symbol: string, days: int): string
  {
    CacheName(symbol, IntToString(days))
  }

  /**
   * How `writeCache` names the file. As written it calls `cachePath(symbol)` without the
   * day count, so the name ends in `_undefined.json`; corrected, it uses the read key.
   */
  datatype KeyRule = AsWritten | Corrected

  function WriteKey(rule: KeyRule, symbol: string, days: int): string
  {
    match rule
    case AsWritten => CacheName(symbol, "undefined")
    case Corrected => ReadKey(symbol, days)
  }

  /** Upper-casing the symbol before naming its file changes nothing. */
  lemma ReadKeyUpper(symbol: string, days: int)
    ensures ReadKey(Upper(symbol), days) == ReadKey(symbol, days)
  {
    UpperIdempotent(symbol);
  }

  /** Two requests share a cache file exactly when their symbols agree up to case and their day counts agree. */
  lemma ReadKeyInjective(a: string, da: int, b: string, db: int)
    ensures ReadKey(a, da) == ReadKey(b, db) <==> Upper(a) == Upper(b) && da == db
  {
    if ReadKey(a, da) == ReadKey(b, db) {
      var ta, tb := IntToString(da), IntToString(db);
      DropSuffix(Upper(a) + "_" + ta, Upper(b) + "_" + tb, ".json");
      SplitAtLastSeparator(Upper(a), ta, Upper(b), tb, '_');
      IntToStringInjective(da, db);
    }
  }

  /** Equal strings with the same ending are equal without it. */
  lemma DropSuffix(x: string, y: string, suffix: string)
    requires x + suffix == y + suffix
    ensures x == y
  {
    assert x == (x + suffix)[..|x|];
    assert y == (y + suffix)[..|y|];
  }

  /** A separator that the tails do not contain splits both strings at the same place. */
  lemma SplitAtLastSeparator(a1: string, t1: string, a2: string, t2: string, sep: char)
    requires forall i :: 0 <= i < |t1| ==> t1[i] != sep
    requires forall i :: 0 <= i < |t2| ==> t2[i] != sep
    requires a1 + [sep] + t1 == a2 + [sep] + t2
    ensures a1 == a2 && t1 == t2
  {
    var s := a1 + [sep] + t1;
    if |a1| < |a2| {
      PartAt(a2, sep, t2, |a2|);
      assert false;
    } else if |a2| < |a1| {
      PartAt(a1, sep, t1, |a1|);
      assert false;
    }
    assert a1 == s[..|a1|] && a2 == s[..|a2|];
    assert t1 == s[|a1| + 1..] && t2 == s[|a2| + 1..];
  }

  lemma PartAt(a: string, sep: char, t: string, i: nat)
    requires i < |a| + 1 + |t|
    ensures (a + [sep] + t)[i] == if i < |a| then a[i] else if i == |a| then sep else t[i - |a| - 1]
  {
  }

  /**
   * As written, no file `writeCache` creates is ever one that `readCache` opens: a read key
   * has a digit just before ".json", a written one has the `d` of "undefined".
   */
  lemma AsWrittenKeysNeverRead(a: string, da: int, b: string, db: int)
    ensures ReadKey(a, da) != WriteKey(AsWritten, b, db)
  {
    var r := ReadKey(a, da);
    var w := WriteKey(AsWritten, b, db);
    var t := IntToString(da);
    assert r == (Upper(a) + "_" + t) + ".json";
    assert w == (Upper(b) + "_undefined") + ".json";
    assert r[|r| - 6] == t[|t| - 1];
    assert w[|w| - 6] == 'd';
  }

  // ---------------------------------------------------------------------------
  // The cache directory
  // ---------------------------------------------------------------------------

  /** What the handler returns: `{ symbol, fetchedAt, labels, data }`. */
  datatype Payload = Payload(symbol: string, fetchedAt: int, labels: seq<string>, data: seq<real>)

  /** What `JSON.parse` makes of a cache file: a syntax error, a falsy value, or a payload. */
  datatype Content = Unparsable | Falsy | Parsed(payload: Payload)

  /** A cache file: its modification time in milliseconds and its contents. */
  datatype CacheFile = CacheFile(mtimeMs: int, content: Content)

  type Dir = map<string, CacheFile>

  /**
   * `readCache` followed by the handler's `if (cached)`. A missing file, a file older than
   * the TTL, unparsable text and a falsy value all count as a miss.
   */
  function CachedPayload(dir: Dir, key: string, now: int): Option<Payload>
  {
    if key !in dir then None
    else if now - dir[key].mtimeMs > TTL_MS then None
    else match dir[key].content
      case Parsed(p) => Some(p)
      case _ => None
  }

  /**
   * A read hits exactly when the file exists, is at most `TTL_MS` old and holds a parsed
   * payload; the hit is that payload.
   */
  lemma CachedPayloadHit(dir: Dir, key: string, now: int)
    ensures CachedPayload(dir, key, now).Some? <==>
      key in dir && now - dir[key].mtimeMs <= TTL_MS && dir[key].content.Parsed?
    ensures CachedPayload(dir, key, now).Some? ==> CachedPayload(dir, key, now).value == dir[key].content.payload
  {
  }

  /**
   * A file written at `t` is served when read back under its own name. That holds up to
   * and including `t + TTL_MS` and not a millisecond later. Writing one name leaves every
   * other name alone.
   */
  lemma CacheReadAfterWrite(dir: Dir, key: string, t: int, p: Payload, other: string, now: int)
    requires other != key
    ensures CachedPayload(dir[key := CacheFile(t, Parsed(p))], key, now) ==
      (if now <= t + TTL_MS then Some(p) else None)
    ensures CachedPayload(dir[key := CacheFile(t, Parsed(p))], other, now) == CachedPayload(dir, other, now)
  {
  }

  /** A miss stays a miss as time goes forward, as long as the file is not rewritten. */
  lemma MissStaysMiss(dir: Dir, key: string, t1: int, t2: int)
    requires t1 <= t2 && CachedPayload(dir, key, t1).None?
    ensures CachedPayload(dir, key, t2).None?
  {
  }

  // ---------------------------------------------------------------------------
  // The provider's reply
  // ---------------------------------------------------------------------------

  /** One day of `Time Series (Daily)`: the date key and its `4. close` price. */
  datatype Bar = Bar(date: string, close: real)

  function Dates(series: seq<Bar>): (ds: seq<string>)
    ensures |ds| == |series|
  {
    seq(|series|, i requires 0 <= i < |series| => series[i].date)
  }

  /** The keys of a JSON object are distinct. */
  type Series = s: seq<Bar> | Distinct(Dates(s))

  /** The fields of the reply the handler looks at; `None` is an absent field. */
  datatype Reply = Reply(
    errorMessage: Option<string>,
    note: Option<string>,
    information: Option<string>,
    timeSeries: Option<Series>)

  /** What `fetch(url)` followed by `r.json()` yields: a failure, or the parsed reply. */
  datatype Upstream = Unreachable | Answered(reply: Reply)

  /** A string field is truthy when present and not empty. */
  predicate Truthy(field: Option<string>)
  {
    field.Some? && |field.value| > 0
  }

  /** `series[d]["4. close"]` for a date key of the series. */
  function CloseOn(series: seq<Bar>, date: string): (c: real)
    requires date in Dates(series)
    ensures exists j :: 0 <= j < |series| && series[j].date == date && series[j].close == c
  {
    if series[0].date == date then series[0].close
    else
      assert date in Dates(series[1..]) by {
        var j :| 0 <= j < |series| && Dates(series)[j] == date;
        assert Dates(series[1..])[j - 1] == date;
      }
      var c := CloseOn(series[1..], date);
      ghost var j :| 0 <= j < |series[1..]| && series[1..][j].date == date && series[1..][j].close == c;
      assert series[j + 1].date == date && series[j + 1].close == c;
      c
  }

  /** `Object.keys(series).sort().slice(-days)`: the dates kept, oldest first. */
  function Labels(series: Series, days: int): seq<string>
  {
    SliceFrom(SortStrings(Dates(series)), -days)
  }

  /** The kept dates are dates of the series, strictly ascending, and none is repeated. */
  lemma LabelsAscending(series: Series, days: int)
    ensures forall i :: 0 <= i < |Labels(series, days)| ==> Labels(series, days)[i] in Dates(series)
    ensures forall i, j :: 0 <= i < j < |Labels(series, days)| ==>
      StrLe(Labels(series, days)[i], Labels(series, days)[j]) &&
      Labels(series, days)[i] != Labels(series, days)[j]
  {
    var sorted := SortStrings(Dates(series));
    SortedDistinctStrict(Dates(series));
    var l := Labels(series, days);
    var from := |sorted| - |l|;
    assert l == sorted[from..];
    forall i | 0 <= i < |l|
      ensures l[i] in Dates(series)
    {
      assert l[i] == sorted[from + i];
      assert l[i] in multiset(sorted);
    }
  }

  /**
   * A positive `days` keeps the newest `min(days, n)` dates. A negative one, which
   * `slice(-days)` turns into a positive start, drops the oldest `min(-days, n)` instead.
   */
  lemma LabelsCount(series: Series, days: int)
    ensures days > 0 ==> |Labels(series, days)| == (if days < |series| then days else |series|)
    ensures days > 0 ==>
      Labels(series, days) == SortStrings(Dates(series))[|series| - |Labels(series, days)|..]
    ensures days < 0 ==>
      Labels(series, days) == SortStrings(Dates(series))[if -days < |series| then -days else |series|..]
  {
    var sorted := SortStrings(Dates(series));
    if days > 0 {
      SliceLast(sorted, days);
    } else if days < 0 {
      SliceDrop(sorted, -days);
    }
  }

  /** `labels.map(d => parseFloat(series[d]["4. close"]))`. */
  function Closes(series: Series, labels: seq<string>): (data: seq<real>)
    requires forall i :: 0 <= i < |labels| ==> labels[i] in Dates(series)
    ensures |data| == |labels|
  {
    seq(|labels|, i requires 0 <= i < |labels| => CloseOn(series, labels[i]))
  }

  /** The payload built from a reply: the upper-cased symbol, the fetch time, the kept dates and their closes. */
  function MakePayload(symbol: string, now: int, series: Series, days: int): (p: Payload)
    ensures p.symbol == symbol && p.fetchedAt == now && p.labels == Labels(series, days)
    ensures |p.data| == |p.labels|
  {
    LabelsAscending(series, days);
    var labels := Labels(series, days);
    Payload(symbol, now, labels, Closes(series, labels))
  }

  /** Each entry of `data` is the close of the bar dated by the label at the same position. */
  lemma PayloadCloses(symbol: string, now: int, series: Series, days: int)
    ensures var p := MakePayload(symbol, now, series, days);
      forall i :: 0 <= i < |p.data| ==>
        (exists j :: 0 <= j < |series| && series[j].date == p.labels[i] && series[j].close == p.data[i])
  {
    var p := MakePayload(symbol, now, series, days);
    LabelsAscending(series, days);
    forall i | 0 <= i < |p.data|
      ensures exists j :: 0 <= j < |series| && series[j].date == p.labels[i] && series[j].close == p.data[i]
    {
      assert p.data[i] == CloseOn(series, p.labels[i]);
    }
  }

  // ---------------------------------------------------------------------------
  // The handler
  // ---------------------------------------------------------------------------

  datatype Source = Cache | Api

  datatype Response =
    | Ok(source: Source, payload: Payload)   // 200 { source, payload }
    | InvalidSymbol(reply: Reply)            // 400, the reply as detail
    | RateLimited(detail: string)            // 425, the Note or information text
    | UnexpectedReply(reply: Reply)          // 500, the reply as raw
    | ServerError                            // 500, a thrown error

  function Status(r: Response): int
  {
    match r
    case Ok(_, _) => 200
    case InvalidSymbol(_) => 400
    case RateLimited(_) => 425
    case UnexpectedReply(_) => 500
    case ServerError => 500
  }

  /** The response, the cache directory afterwards, and whether the provider was asked. */
  datatype Exchange = Exchange(response: Response, dir: Dir, fetched: bool)

  /** How the handler treats a reply that is not an error: which of the three error answers applies, if any. */
  function Classify(reply: Reply): Option<Response>
  {
    if Truthy(reply.errorMessage) then Some(InvalidSymbol(reply))
    else if Truthy(reply.note) || Truthy(reply.information) then
      Some(RateLimited(if Truthy(reply.note) then reply.note.value else reply.information.value))
    else if reply.timeSeries.None? then Some(UnexpectedReply(reply))
    else None
  }

  /** One request to `GET /api/daily/:symbol?days=…` from start to finish. */
  function Respond(rule: KeyRule, dir: Dir, symbolParam: string, daysQuery: Option<string>,
                   now: int, upstream: Upstream, writeOk: bool): Exchange
  {
    var symbol := Upper(symbolParam);
    var days := DaysFromQuery(daysQuery);
    var cached := CachedPayload(dir, ReadKey(symbol, days), now);
    if cached.Some? then Exchange(Ok(Cache, cached.value), dir, false)
    else if upstream.Unreachable? then Exchange(ServerError, dir, true)
    else
      var reply := upstream.reply;
      var failure := Classify(reply);
      if failure.Some? then Exchange(failure.value, dir, true)
      else
        var payload := MakePayload(symbol, now, reply.timeSeries.value, days);
        if !writeOk then Exchange(ServerError, dir, true)
        else Exchange(Ok(Api, payload), dir[WriteKey(rule, symbol, days) := CacheFile(now, Parsed(payload))], true)
  }

  /** A fresh cached payload is answered at once: the provider is not asked and nothing is written. */
  lemma CacheHitShortCircuits(rule: KeyRule, dir: Dir, symbolParam: string, daysQuery: Option<string>,
                              now: int, upstream: Upstream, writeOk: bool)
    requires CachedPayload(dir, ReadKey(symbolParam, DaysFromQuery(daysQuery)), now).Some?
    ensures Respond(rule, dir, symbolParam, daysQuery, now, upstream, writeOk) ==
      Exchange(Ok(Cache, CachedPayload(dir, ReadKey(symbolParam, DaysFromQuery(daysQuery)), now).value), dir, false)
  {
    UpperIdempotent(symbolParam);
  }

  /** Without a fresh cached payload the provider is always asked. */
  lemma MissFetches(rule: KeyRule, dir: Dir, symbolParam: string, daysQuery: Option<string>,
                    now: int, upstream: Upstream, writeOk: bool)
    requires CachedPayload(dir, ReadKey(symbolParam, DaysFromQuery(daysQuery)), now).None?
    ensures Respond(rule, dir, symbolParam, daysQuery, now, upstream, writeOk).fetched
  {
    UpperIdempotent(symbolParam);
  }

  /**
   * Every answer to a request that misses the cache. An unreachable provider gives a 500.
   * An error reply gives its error answer. A reply with a series gives a 200 with the
   * payload built from it and writes that payload under `WriteKey`; if the write fails,
   * the request ends in a 500 instead and nothing is stored.
   */
  lemma MissAnswers(rule: KeyRule, dir: Dir, symbolParam: string, daysQuery: Option<string>,
                    now: int, upstream: Upstream, writeOk: bool)
    requires CachedPayload(dir, ReadKey(symbolParam, DaysFromQuery(daysQuery)), now).None?
    ensures var e := Respond(rule, dir, symbolParam, daysQuery, now, upstream, writeOk);
      upstream.Unreachable? ==> e == Exchange(ServerError, dir, true)
    ensures var e := Respond(rule, dir, symbolParam, daysQuery, now, upstream, writeOk);
      upstream.Answered? && Classify(upstream.reply).Some? ==>
        e == Exchange(Classify(upstream.reply).value, dir, true)
    ensures var e := Respond(rule, dir, symbolParam, daysQuery, now, upstream, writeOk);
      upstream.Answered? && Classify(upstream.reply).None? ==>
        var symbol, days := Upper(symbolParam), DaysFromQuery(daysQuery);
        var payload := MakePayload(symbol, now, upstream.reply.timeSeries.value, days);
        e == if writeOk then Exchange(Ok(Api, payload), dir[WriteKey(rule, symbol, days) := CacheFile(now, Parsed(payload))], true)
             else Exchange(ServerError, dir, true)
  {
    UpperIdempotent(symbolParam);
  }

  /**
   * The error answers in the order the handler checks them. `Error Message` wins over
   * everything, then `Note`/`information` (the detail is the Note when it is truthy), then a
   * missing series.
   */
  lemma ClassifyPrecedence(reply: Reply)
    ensures Truthy(reply.errorMessage) ==>
      Classify(reply) == Some(InvalidSymbol(reply)) && Status(Classify(reply).value) == 400
    ensures !Truthy(reply.errorMessage) && Truthy(reply.note) ==>
      Classify(reply) == Some(RateLimited(reply.note.value)) && Status(Classify(reply).value) == 425
    ensures !Truthy(reply.errorMessage) && !Truthy(reply.note) && Truthy(reply.information) ==>
      Classify(reply) == Some(RateLimited(reply.information.value)) && Status(Classify(reply).value) == 425
    ensures !Truthy(reply.errorMessage) && !Truthy(reply.note) && !Truthy(reply.information) ==>
      (Classify(reply).None? <==> reply.timeSeries.Some?) &&
      (reply.timeSeries.None? ==> Classify(reply) == Some(UnexpectedReply(reply)) && Status(Classify(reply).value) == 500)
  {
  }

  /** Only a successful answer from the provider writes to the cache; every other answer leaves it as it was. */
  lemma OnlySuccessWrites(rule: KeyRule, dir: Dir, symbolParam: string, daysQuery: Option<string>,
                          now: int, upstream: Upstream, writeOk: bool)
    ensures var e := Respond(rule, dir, symbolParam, daysQuery, now, upstream, writeOk);
      !(e.response.Ok? && e.response.source == Api) ==> e.dir == dir
  {
    var symbol, days := Upper(symbolParam), DaysFromQuery(daysQuery);
    var e := Respond(rule, dir, symbolParam, daysQuery, now, upstream, writeOk);
    if CachedPayload(dir, ReadKey(symbol, days), now).None? && upstream.Answered? &&
       Classify(upstream.reply).None? && writeOk {
      assert e.response.Ok? && e.response.source == Api;
    } else {
      assert e.dir == dir;
    }
  }

  /**
   * A successful answer from the provider carries the upper-cased symbol, the fetch time,
   * the kept dates and their closes. It is the payload of the one file written, under
   * `WriteKey`.
   */
  lemma ApiAnswer(rule: KeyRule, dir: Dir, symbolParam: string, daysQuery: Option<string>,
                  now: int, upstream: Upstream, writeOk: bool)
    requires Respond(rule, dir, symbolParam, daysQuery, now, upstream, writeOk).response.Ok?
    requires Respond(rule, dir, symbolParam, daysQuery, now, upstream, writeOk).response.source == Api
    ensures Respond(rule, dir, symbolParam, daysQuery, now, upstream, writeOk).fetched
    ensures writeOk && upstream.Answered? && Classify(upstream.reply).None?
    ensures var e := Respond(rule, dir, symbolParam, daysQuery, now, upstream, writeOk);
      e.response.payload == MakePayload(Upper(symbolParam), now, upstream.reply.timeSeries.value, DaysFromQuery(daysQuery))
    ensures var e := Respond(rule, dir, symbolParam, daysQuery, now, upstream, writeOk);
      e.dir == dir[WriteKey(rule, Upper(symbolParam), DaysFromQuery(daysQuery)) := CacheFile(now, Parsed(e.response.payload))]
  {
    ReadKeyUpper(symbolParam, DaysFromQuery(daysQuery));
    if CachedPayload(dir, ReadKey(symbolParam, DaysFromQuery(daysQuery)), now).None? {
      MissAnswers(rule, dir, symbolParam, daysQuery, now, upstream, writeOk);
      if upstream.Unreachable? {
        assert false;
      } else if Classify(upstream.reply).Some? {
        assert false;
      } else if !writeOk {
        assert false;
      }
    } else {
      assert false;
    }
  }

  /**
   * As written, a request never changes what any later read finds. The one file written is
   * named `…_undefined.json`, and no read looks at such a name.
   */
  lemma AsWrittenNeverServesOwnWrites(dir: Dir, symbolParam: string, daysQuery: Option<string>,
                                      now: int, upstream: Upstream, writeOk: bool,
                                      other: string, otherDays: int, later: int)
    ensures var e := Respond(AsWritten, dir, symbolParam, daysQuery, now, upstream, writeOk);
      CachedPayload(e.dir, ReadKey(other, otherDays), later) == CachedPayload(dir, ReadKey(other, otherDays), later)
  {
    var e := Respond(AsWritten, dir, symbolParam, daysQuery, now, upstream, writeOk);
    OnlySuccessWrites(AsWritten, dir, symbolParam, daysQuery, now, upstream, writeOk);
    if e.response.Ok? && e.response.source == Api {
      var w := WriteKey(AsWritten, Upper(symbolParam), DaysFromQuery(daysQuery));
      ApiAnswer(AsWritten, dir, symbolParam, daysQuery, now, upstream, writeOk);
      AsWrittenKeysNeverRead(other, otherDays, Upper(symbolParam), DaysFromQuery(daysQuery));
      CacheReadAfterWrite(dir, w, now, e.response.payload, ReadKey(other, otherDays), later);
    }
  }

  /**
   * As written, repeating a request that went to the provider goes to the provider again.
   * This holds at any later time and with any spelling of the same symbol.
   */
  lemma AsWrittenRepeatRefetches(dir: Dir, symbolParam: string, daysQuery: Option<string>,
                                 now: int, upstream: Upstream, writeOk: bool,
                                 symbolParam2: string, later: int, upstream2: Upstream, writeOk2: bool)
    requires Respond(AsWritten, dir, symbolParam, daysQuery, now, upstream, writeOk).fetched
    requires Upper(symbolParam2) == Upper(symbolParam) && now <= later
    ensures var e := Respond(AsWritten, dir, symbolParam, daysQuery, now, upstream, writeOk);
      Respond(AsWritten, e.dir, symbolParam2, daysQuery, later, upstream2, writeOk2).fetched
  {
    var e := Respond(AsWritten, dir, symbolParam, daysQuery, now, upstream, writeOk);
    var key := ReadKey(symbolParam, DaysFromQuery(daysQuery));
    UpperIdempotent(symbolParam);
    UpperIdempotent(symbolParam2);
    assert CachedPayload(dir, key, now).None?;
    MissStaysMiss(dir, key, now, later);
    AsWrittenNeverServesOwnWrites(dir, symbolParam, daysQuery, now, upstream, writeOk,
                                  symbolParam, DaysFromQuery(daysQuery), later);
    assert ReadKey(symbolParam2, DaysFromQuery(daysQuery)) == key;
    MissFetches(AsWritten, e.dir, symbolParam2, daysQuery, later, upstream2, writeOk2);
  }

  /**
   * With the corrected file name, a request answered by the provider is answered from the
   * cache when repeated within the TTL. The cached answer carries the same payload and the
   * provider is not asked again. The repeat may spell the symbol in any case, or give `days`
   * in any spelling that parses to the same number.
   */
  lemma CorrectedRepeatHits(dir: Dir, symbolParam: string, daysQuery: Option<string>,
                            now: int, upstream: Upstream, writeOk: bool,
                            symbolParam2: string, daysQuery2: Option<string>, later: int,
                            upstream2: Upstream, writeOk2: bool)
    requires Respond(Corrected, dir, symbolParam, daysQuery, now, upstream, writeOk).response.Ok?
    requires Respond(Corrected, dir, symbolParam, daysQuery, now, upstream, writeOk).response.source == Api
    requires Upper(symbolParam2) == Upper(symbolParam) && DaysFromQuery(daysQuery2) == DaysFromQuery(daysQuery)
    requires later - now <= TTL_MS
    ensures var e := Respond(Corrected, dir, symbolParam, daysQuery, now, upstream, writeOk);
      Respond(Corrected, e.dir, symbolParam2, daysQuery2, later, upstream2, writeOk2) ==
        Exchange(Ok(Cache, e.response.payload), e.dir, false)
  {
    var e := Respond(Corrected, dir, symbolParam, daysQuery, now, upstream, writeOk);
    var days := DaysFromQuery(daysQuery);
    UpperIdempotent(symbolParam);
    UpperIdempotent(symbolParam2);
    ApiAnswer(Corrected, dir, symbolParam, daysQuery, now, upstream, writeOk);
    assert ReadKey(symbolParam2, days) == ReadKey(Upper(symbolParam), days);
    CacheHitShortCircuits(Corrected, e.dir, symbolParam2, daysQuery2, later, upstream2, writeOk2);
  }

  // ---------------------------------------------------------------------------
  // The server object
  // ---------------------------------------------------------------------------

  /** The running server: the file-naming rule of `writeCache` and the cache directory's files. */
  class CacheServer {
    const rule: KeyRule
    var files: Dir

    constructor(rule: KeyRule, files: Dir)
      ensures this.rule == rule && this.files == files
    {
      this.rule := rule;
      this.files := files;
    }

    /** `readCache(symbol, days)` together with the handler's truthiness test. */
    method ReadCache(symbol: string, days: int, now: int) returns (cached: Option<Payload>)
      ensures cached == CachedPayload(files, ReadKey(symbol, days), now)
    {
      var key := ReadKey(symbol, days);
      if key !in files {
        return None;
      }
      var file := files[key];
      var age := now - file.mtimeMs;
      if age > TTL_MS {
        return None;
      }
      match file.content
      case Parsed(p) => cached := Some(p);
      case _ => cached := None;
    }

    /** `writeCache(symbol, days, payload)`: when the write fails nothing is stored and `ok` is false. */
    method WriteCache(symbol: string, days: int, payload: Payload, now: int, writeOk: bool) returns (ok: bool)
      modifies this
      ensures ok == writeOk
      ensures files == if writeOk then old(files)[WriteKey(rule, symbol, days) := CacheFile(now, Parsed(payload))]
                       else old(files)
    {
      if writeOk {
        files := files[WriteKey(rule, symbol, days) := CacheFile(now, Parsed(payload))];
      }
      ok := writeOk;
    }

    /** The route handler, step by step; the outcome is `Respond`. */
    method GetDaily(symbolParam: string, daysQuery: Option<string>, now: int, upstream: Upstream, writeOk: bool)
      returns (response: Response, fetched: bool)
      modifies this
      ensures Exchange(response, files, fetched) ==
        Respond(rule, old(files), symbolParam, daysQuery, now, upstream, writeOk)
    {
      var symbol := Upper(symbolParam);
      var days := DaysFromQuery(daysQuery);
      UpperIdempotent(symbolParam);
      var cached := ReadCache(symbol, days, now);
      if cached.Some? {
        return Ok(Cache, cached.value), false;
      }
      fetched := true;
      if upstream.Unreachable? {
        return ServerError, fetched;
      }
      var reply := upstream.reply;
      if Truthy(reply.errorMessage) {
        return InvalidSymbol(reply), fetched;
      }
      if Truthy(reply.note) || Truthy(reply.information) {
        var detail := if Truthy(reply.note) then reply.note.value else reply.information.value;
        return RateLimited(detail), fetched;
      }
      if reply.timeSeries.None? {
        return UnexpectedReply(reply), fetched;
      }
      var payload := MakePayload(symbol, now, reply.timeSeries.value, days);
      var ok := WriteCache(symbol, days, payload, now, writeOk);
      if !ok {
        return ServerError, fetched;
      }
      response := Ok(Api, payload);
    }
  }
}
