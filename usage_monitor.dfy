/** The ledger of Gemini calls (GeminiUsageMonitor): one record per call,
    kept for 30 days, with per-day, per-month and per-type counts and the
    alert levels against the daily and monthly limits. Time is a parameter in
    milliseconds; a record's day is its UTC day index. */
module UsageMonitor {
  import opened Wrappers
  import opened Text

  const DAY_MS := 86400000
  const RETENTION_DAYS := 30

  datatype UsageRecord = UsageRecord(
    timestamp: int,
    tipo: string,
    tokensEstimados: int,
    fueCache: bool,
    tiempoRespuesta: int,
    userId: Option<int>)

  /** The row written to the usage log table. */
  datatype LogRow = LogRow(usuarioId: Option<int>, tipoRequest: string, tokensEstimados: int, fueCache: bool, tiempoRespuestaMs: int, modeloUsado: string)

  datatype DailyStats = DailyStats(fecha: int, totalRequests: nat, requestsReales: nat, requestsCache: nat, tokensEstimados: int)

  datatype TypeStats = TypeStats(total: nat, cache: nat, api: nat)

  datatype AlertLevel = NoAlert | Warning | Critical

  /** The UTC day of a time, as `toISOString().split('T')[0]` names it. */
  function Day(t: int): int {
    t / DAY_MS
  }

  /** `records.filter(p)`: the records that satisfy `p`, each as often as
      it occurs, in their order (a filter of a concatenation is the
      concatenation of the filters, see FilterConcat). */
  function Filter(rs: seq<UsageRecord>, p: UsageRecord -> bool): (r: seq<UsageRecord>)
    ensures |r| <= |rs|
    ensures forall x :: x in r <==> x in rs && p(x)
    ensures |rs| == 1 ==> r == if p(rs[0]) then rs else []
  {
    if rs == [] then []
    else
      var rest := Filter(rs[..|rs| - 1], p);
      var last := rs[|rs| - 1];
      assert rs == rs[..|rs| - 1] + [last];
      if p(last) then rest + [last] else rest
  }

  /** Each record that satisfies `p` is kept as often as it occurs, any
      other not at all. */
  lemma {:induction false} FilterCounts(rs: seq<UsageRecord>, p: UsageRecord -> bool, x: UsageRecord)
    ensures multiset(Filter(rs, p))[x] == if p(x) then multiset(rs)[x] else 0
    decreases |rs|
  {
    if rs != [] {
      var init := rs[..|rs| - 1];
      assert rs == init + [rs[|rs| - 1]];
      FilterCounts(init, p, x);
    }
  }

  /** Filtering distributes over concatenation, so the records kept keep
      their order. */
  lemma {:induction false} FilterConcat(a: seq<UsageRecord>, b: seq<UsageRecord>, p: UsageRecord -> bool)
    ensures Filter(a + b, p) == Filter(a, p) + Filter(b, p)
    decreases |b|
  {
    if b == [] {
      assert a + b == a;
    } else {
      var init := b[..|b| - 1];
      var last := b[|b| - 1];
      assert (a + b)[..|a + b| - 1] == a + init;
      FilterConcat(a, init, p);
    }
  }

  /** The records from the same day, and in the same order. */
  function DayRecords(rs: seq<UsageRecord>, fecha: int): seq<UsageRecord> {
    Filter(rs, (x: UsageRecord) => Day(x.timestamp) == fecha)
  }

  function CountCache(rs: seq<UsageRecord>, fueCache: bool): (n: nat)
    ensures n <= |rs|
  {
    if rs == [] then 0
    else CountCache(rs[..|rs| - 1], fueCache) + (if rs[|rs| - 1].fueCache == fueCache then 1 else 0)
  }

  function SumTokens(rs: seq<UsageRecord>): int {
    if rs == [] then 0 else SumTokens(rs[..|rs| - 1]) + rs[|rs| - 1].tokensEstimados
  }

  /** Every record is either served from the cache or a real call. */
  lemma {:induction false} CacheSplit(rs: seq<UsageRecord>)
    ensures CountCache(rs, true) + CountCache(rs, false) == |rs|
  {
    if rs != [] {
      CacheSplit(rs[..|rs| - 1]);
    }
  }

  /** `getStatsPorFecha` without the average response time. */
  function StatsPorFecha(rs: seq<UsageRecord>, fecha: int): (s: DailyStats)
    ensures s.fecha == fecha
    ensures s.totalRequests == s.requestsReales + s.requestsCache
    ensures s.tokensEstimados == SumTokens(DayRecords(rs, fecha))
    ensures s.totalRequests == |DayRecords(rs, fecha)|
  {
    var dia := DayRecords(rs, fecha);
    CacheSplit(dia);
    DailyStats(fecha, |dia|, CountCache(dia, false), CountCache(dia, true), SumTokens(dia))
  }

  /** `records.filter(r => r.timestamp >= limit)` with the limit 30 days back. */
  function Retained(rs: seq<UsageRecord>, now: int): (r: seq<UsageRecord>)
    ensures forall x :: x in r <==> x in rs && x.timestamp >= now - RETENTION_DAYS * DAY_MS
    ensures |rs| == 1 ==> r == if rs[0].timestamp >= now - RETENTION_DAYS * DAY_MS then rs else []
  {
    Filter(rs, (x: UsageRecord) => x.timestamp >= now - RETENTION_DAYS * DAY_MS)
  }

  /** A record younger than the retention period is kept as often as it
      occurs, an older one not at all. */
  lemma RetainedCounts(rs: seq<UsageRecord>, now: int, x: UsageRecord)
    ensures multiset(Retained(rs, now))[x] == if x.timestamp >= now - RETENTION_DAYS * DAY_MS then multiset(rs)[x] else 0
  {
    FilterCounts(rs, (y: UsageRecord) => y.timestamp >= now - RETENTION_DAYS * DAY_MS, x);
  }

  /** Retention keeps the order of the records: applied to two runs of
      records one after the other, it keeps the survivors of the first run
      before those of the second. */
  lemma RetainedConcat(a: seq<UsageRecord>, b: seq<UsageRecord>, now: int)
    ensures Retained(a + b, now) == Retained(a, now) + Retained(b, now)
  {
    FilterConcat(a, b, (x: UsageRecord) => x.timestamp >= now - RETENTION_DAYS * DAY_MS);
  }

  /** `count / limit * 100 >= percent` in exact arithmetic: a zero limit makes
      any positive count infinitely far over it and a zero count NaN; a
      negative limit or a NaN limit never alerts. */
  predicate Reaches(count: nat, limit: Option<int>, percent: int) {
    match limit
    case None => false
    case Some(l) =>
      if l > 0 then 100 * count >= percent * l
      else l == 0 && count > 0
  }

  /** The daily alert of `verificarAlertas`, from today's real calls. */
  function DailyAlert(reales: nat, limit: Option<int>): (a: AlertLevel)
    ensures limit.Some? && limit.value > 0 ==>
      (a == Critical <==> 100 * reales >= 95 * limit.value)
      && (a == Warning <==> 80 * limit.value <= 100 * reales < 95 * limit.value)
      && (a == NoAlert <==> 100 * reales < 80 * limit.value)
  {
    if Reaches(reales, limit, 95) then Critical
    else if Reaches(reales, limit, 80) then Warning
    else NoAlert
  }

  function Severity(a: AlertLevel): nat {
    match a
    case NoAlert => 0
    case Warning => 1
    case Critical => 2
  }

  /** More real calls never lower the daily alert level, whatever the limit. */
  lemma AlertMonotone(r1: nat, r2: nat, limit: Option<int>)
    requires r1 <= r2
    ensures Severity(DailyAlert(r1, limit)) <= Severity(DailyAlert(r2, limit))
  {
    if limit.Some? && limit.value > 0 {
      assert 100 * r1 <= 100 * r2;
    }
  }

  /** The ledger's counts per request type. */
  function StatsPorTipo(rs: seq<UsageRecord>): map<string, TypeStats> {
    if rs == [] then map[] else Tally(StatsPorTipo(rs[..|rs| - 1]), rs[|rs| - 1])
  }

  /** Each type's total is its cache count plus its API count, and at least
      one. */
  ghost predicate CountsAdd(m: map<string, TypeStats>) {
    forall t :: t in m ==> m[t].total == m[t].cache + m[t].api && m[t].total >= 1
  }

  /** The types listed are exactly those of the records. */
  ghost predicate ListsTypesOf(m: map<string, TypeStats>, rs: seq<UsageRecord>) {
    forall t :: t in m <==> exists x :: x in rs && x.tipo == t
  }

  lemma {:induction false} TypeStatsConsistent(rs: seq<UsageRecord>)
    ensures CountsAdd(StatsPorTipo(rs))
    ensures ListsTypesOf(StatsPorTipo(rs), rs)
  {
    if rs != [] {
      var init := rs[..|rs| - 1];
      var x := rs[|rs| - 1];
      assert rs == init + [x];
      TypeStatsConsistent(init);
      var m := StatsPorTipo(init);
      var m' := StatsPorTipo(rs);
      assert m' == Tally(m, x);
      forall t | t in m'
        ensures m'[t].total == m'[t].cache + m'[t].api && m'[t].total >= 1
      {
        if t != x.tipo {
          assert t in m && m'[t] == m[t];
        }
      }
      forall t
        ensures t in m' <==> exists y :: y in rs && y.tipo == t
      {
        if t == x.tipo {
          assert x in rs;
        } else if t in m {
          var y :| y in init && y.tipo == t;
          assert y in rs;
        } else {
          assert t !in m';
          forall y | y in rs
            ensures y.tipo != t
          {
            if y != x {
              assert y in init;
            }
          }
        }
      }
    }
  }

  /** The table after counting one more record. */
  function Tally(m: map<string, TypeStats>, x: UsageRecord): map<string, TypeStats> {
    var s := if x.tipo in m then m[x.tipo] else TypeStats(0, 0, 0);
    m[x.tipo := TypeStats(s.total + 1, s.cache + (if x.fueCache then 1 else 0), s.api + (if x.fueCache then 0 else 1))]
  }

  /** The sum of the totals of a per-type table. */
  ghost function SumTotals(m: map<string, TypeStats>): nat
    decreases |m.Keys|
  {
    if m == map[] then 0
    else
      var k :| k in m;
      m[k].total + SumTotals(m - {k})
  }

  lemma {:induction false} SumTotalsRemove(m: map<string, TypeStats>, k: string)
    requires k in m
    ensures SumTotals(m) == m[k].total + SumTotals(m - {k})
    decreases |m.Keys|
  {
    var j :| j in m && SumTotals(m) == m[j].total + SumTotals(m - {j});
    if j != k {
      assert |(m - {j}).Keys| < |m.Keys| by {
        assert (m - {j}).Keys == m.Keys - {j};
      }
      assert |(m - {k}).Keys| < |m.Keys| by {
        assert (m - {k}).Keys == m.Keys - {k};
      }
      SumTotalsRemove(m - {j}, k);
      SumTotalsRemove(m - {k}, j);
      assert m - {j} - {k} == m - {k} - {j};
    }
  }

  /** The per-type totals add up to the number of records. */
  lemma {:induction false} TypeTotalsCoverLedger(rs: seq<UsageRecord>)
    ensures SumTotals(StatsPorTipo(rs)) == |rs|
  {
    if rs != [] {
      var init := rs[..|rs| - 1];
      TypeTotalsCoverLedger(init);
      var m := StatsPorTipo(init);
      var x := rs[|rs| - 1];
      var m' := StatsPorTipo(rs);
      assert m'[x.tipo].total == (if x.tipo in m then m[x.tipo].total else 0) + 1;
      SumTotalsRemove(m', x.tipo);
      assert m' - {x.tipo} == m - {x.tipo};
      if x.tipo in m {
        SumTotalsRemove(m, x.tipo);
      } else {
        assert m - {x.tipo} == m;
      }
    }
  }

  class GeminiUsageMonitor {
    var records: seq<UsageRecord>
    /** The usage log table, which may refuse a write. */
    var log: seq<LogRow>
    const dailyLimit: Option<int>
    const monthlyLimit: Option<int>
    const modelName: string

    constructor(dailySetting: string, monthlySetting: string, modelSetting: string)
      ensures records == [] && log == []
      ensures dailyLimit == EnvInt(dailySetting, "1500")
      ensures monthlyLimit == EnvInt(monthlySetting, "45000")
      ensures modelName == if modelSetting == [] then "gemini-1.5-flash-002" else modelSetting
    {
      records := [];
      log := [];
      dailyLimit := EnvInt(dailySetting, "1500");
      monthlyLimit := EnvInt(monthlySetting, "45000");
      modelName := if modelSetting == [] then "gemini-1.5-flash-002" else modelSetting;
    }

    /** Today's counts. */
    function GetStatsHoy(now: int): (s: DailyStats)
      reads this
      ensures s.fecha == Day(now) && s.totalRequests == s.requestsReales + s.requestsCache
    {
      StatsPorFecha(records, Day(now))
    }

    /** The counts of `getStatsMes` over the last 30 days. */
    function GetStatsMes(now: int): (r: (nat, nat, nat))
      reads this
      ensures r.0 == r.1 + r.2
      ensures r.0 == |Retained(records, now)|
    {
      var mes := Retained(records, now);
      CacheSplit(mes);
      (|mes|, CountCache(mes, false), CountCache(mes, true))
    }

    /** `verificarAlertas`: the daily level, and whether the real calls of
        the month reach 90% of the monthly limit. */
    function VerificarAlertas(now: int): (r: (AlertLevel, bool))
      reads this
      ensures r.0 == DailyAlert(GetStatsHoy(now).requestsReales, dailyLimit)
      ensures r.1 <==> Reaches(GetStatsMes(now).1, monthlyLimit, 90)
    {
      (DailyAlert(GetStatsHoy(now).requestsReales, dailyLimit), Reaches(GetStatsMes(now).1, monthlyLimit, 90))
    }

    /** `registrarLlamada`: appends the record, prunes the ledger, reports
        the alerts, and writes the log row when the table accepts it; a
        refused write changes nothing else. */
    method RegistrarLlamada(tipo: string, tokensEstimados: int, fueCache: bool, tiempoRespuesta: int,
                            userId: Option<int>, now: int, logAccepts: bool)
      returns (alertas: (AlertLevel, bool))
      modifies this
      ensures records == Retained(old(records) + [UsageRecord(now, tipo, tokensEstimados, fueCache, tiempoRespuesta, userId)], now)
      ensures UsageRecord(now, tipo, tokensEstimados, fueCache, tiempoRespuesta, userId) in records
      ensures log == old(log) + (if logAccepts then [LogRow(userId, tipo, tokensEstimados, fueCache, tiempoRespuesta, modelName)] else [])
      ensures alertas == VerificarAlertas(now)
    {
      var record := UsageRecord(now, tipo, tokensEstimados, fueCache, tiempoRespuesta, userId);
      records := records + [record];
      var _ := LimpiarRecordsAntiguos(now);
      alertas := VerificarAlertas(now);
      if logAccepts {
        log := log + [LogRow(userId, tipo, tokensEstimados, fueCache, tiempoRespuesta, modelName)];
      }
    }

    /** `limpiarRecordsAntiguos`: keeps the records of the last 30 days and
        counts the others. */
    method LimpiarRecordsAntiguos(now: int) returns (eliminados: nat)
      modifies this
      ensures records == Retained(old(records), now)
      ensures log == old(log)
      ensures eliminados == |old(records)| - |records|
    {
      var before := |records|;
      records := Retained(records, now);
      eliminados := before - |records|;
    }

    /** `getStatsPorTipo`: one pass over the ledger filling the table. */
    method GetStatsPorTipo() returns (stats: map<string, TypeStats>)
      ensures stats == StatsPorTipo(records)
    {
      stats := map[];
      var i := 0;
      while i < |records|
        invariant 0 <= i <= |records|
        invariant stats == StatsPorTipo(records[..i])
      {
        var record := records[i];
        assert records[..i + 1][..i] == records[..i];
        assert StatsPorTipo(records[..i + 1]) == Tally(stats, record);
        var s := if record.tipo in stats then stats[record.tipo] else TypeStats(0, 0, 0);
        if record.fueCache {
          s := TypeStats(s.total + 1, s.cache + 1, s.api);
        } else {
          s := TypeStats(s.total + 1, s.cache, s.api + 1);
        }
        stats := stats[record.tipo := s];
        i := i + 1;
      }
      assert records[..i] == records;
    }

    method Reset()
      modifies this
      ensures records == [] && log == old(log)
    {
      records := [];
    }

    /** `exportarDatos`: a copy of the ledger. */
    function ExportarDatos(): (r: seq<UsageRecord>)
      reads this
      ensures r == records
    {
      records
    }
  }
}
