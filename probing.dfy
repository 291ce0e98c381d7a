/**
 * class PerformanceManager of src/index.ts: `report` runs a fixed battery of
 * diagnostic queries, one after the other, through one query runner, and
 * hands each successful result to the alert dispatcher. The database is an
 * oracle; the serialisation of rows is a function passed in.
 */
module Probing {
  import opened Dispatch
  import opened Integration

  /** A result row, as the driver returns it. */
  type Row = map<string, string>

  datatype QueryResult = Rows(rows: seq<Row>) | QueryError(detail: string)

  /** A diagnostic query and the description its log lines carry. */
  datatype Probe = Probe(query: string, description: string)

  /** The queries `report` runs, in the order written. */
  const Probes: seq<Probe> := [
    Probe("SELECT * FROM information_schema.INNODB_LOCK_WAITS", "현재 LOCK이 걸려 대기중인 정보"),
    Probe("SELECT * FROM information_schema.INNODB_LOCKS", "LOCK을 건 정보"),
    Probe("SELECT * FROM information_schema.INNODB_TRX", "LOCK을 걸고 있는 프로세스 정보"),
    Probe("SHOW VARIABLES LIKE 'innodb_table_lock%'", "InnoDB 테이블 잠금 관련 변수"),
    Probe("SHOW VARIABLES LIKE 'innodb_deadlock%'", "데드락 감지 관련 변수"),
    Probe("SHOW VARIABLES LIKE 'innodb_lock%'", "InnoDB 잠금 관련 변수"),
    Probe("\n          SELECT ID, USER, HOST, DB, COMMAND, TIME, STATE, INFO \n"
          + "          FROM information_schema.PROCESSLIST \n"
          + "          WHERE PROCESSLIST.STATE LIKE '%metadata lock%' \n"
          + "          ORDER BY TIME DESC\n        ",
          "메타데이터 잠금 관련 프로세스"),
    Probe("\n          SELECT TABLE_NAME, TABLE_ROWS, AVG_ROW_LENGTH, DATA_LENGTH, INDEX_LENGTH\n"
          + "          FROM information_schema.TABLES\n"
          + "          WHERE TABLE_SCHEMA = DATABASE()\n"
          + "          ORDER BY DATA_LENGTH DESC\n"
          + "          LIMIT 10\n        ",
          "Top 10 크기 테이블 통계"),
    Probe("SHOW VARIABLES LIKE '%slow_query%'", "슬로우 쿼리 로그 설정"),
    Probe("SHOW STATUS LIKE '%Qcache%'", "쿼리 캐시 상태"),
    Probe("SHOW STATUS LIKE '%connection%'", "연결 관련 상태"),
    Probe("SHOW STATUS LIKE '%thread%'", "스레드 관련 상태"),
    Probe("SHOW STATUS LIKE '%tmp%'", "임시 테이블 사용 통계"),
    Probe("SHOW STATUS LIKE '%buffer pool%'", "버퍼 풀 상태"),
    Probe("SHOW STATUS LIKE '%table_locks%'", "테이블 잠금 상태"),
    Probe("SHOW VARIABLES LIKE '%open_files_limit%'", "최대 오픈 파일 수"),
    Probe("SHOW STATUS LIKE '%open_files%'", "현재 오픈된 파일 수"),
    Probe("SHOW ENGINE INNODB STATUS", "InnoDB 엔진 상태"),
    Probe("\n          SELECT ID, USER, HOST, DB, COMMAND, TIME, STATE, INFO\n"
          + "          FROM information_schema.PROCESSLIST\n"
          + "          WHERE COMMAND != 'Sleep'\n"
          + "          ORDER BY TIME DESC\n        ",
          "현재 실행 중인 쿼리")
  ]

  /**
   * The query runner the caller passes in, as an oracle: the k-th query it
   * receives, with text q, yields `answer(k, q)`. It records what it was asked.
   */
  class QueryRunner {
    const answer: (nat, string) -> QueryResult
    var issued: seq<string>

    constructor (answer: (nat, string) -> QueryResult)
      ensures this.answer == answer && issued == []
    {
      this.answer := answer;
      issued := [];
    }

    method Query(sql: string) returns (r: QueryResult)
      modifies this
      ensures issued == old(issued) + [sql]
      ensures r == answer(|old(issued)|, sql)
    {
      r := answer(|issued|, sql);
      issued := issued + [sql];
    }
  }

  function Queries(probes: seq<Probe>): (r: seq<string>)
    ensures |r| == |probes| && forall i :: 0 <= i < |probes| ==> r[i] == probes[i].query
  {
    if probes == [] then [] else [probes[0].query] + Queries(probes[1..])
  }

  /** The alert a successful query raises: its text as title, its serialised rows as message. */
  function ProbeAlert(query: string, content: string): AlertMessage {
    AlertMessage(query, content, Error)
  }

  /**
   * One `logQuery`: while the query is awaited the runtime may run the steps
   * `ts`; a result then raises an alert, whose outcome nobody awaits; an
   * error raises none.
   */
  function RunProbe(configs: seq<AlertConfig>, s: Dispatcher, p: Probe, answer: QueryResult,
                    ts: seq<TimerStep>, serialize: seq<Row> -> string): (r: Dispatcher)
    ensures r.alerts == s.alerts + (if answer.Rows? then [ProbeAlert(p.query, serialize(answer.rows))] else [])
  {
    var waited := Steps(configs, s, ts);
    match answer
    case Rows(rows) => Dispatch.SendAlert(configs, waited, ProbeAlert(p.query, serialize(rows))).state
    case QueryError(_) => waited
  }

  /** `logQuery` for each probe in turn, the i-th answered by `answers[i]` and waiting through `timers[i]`. */
  function RunProbes(configs: seq<AlertConfig>, s: Dispatcher, probes: seq<Probe>, answers: seq<QueryResult>,
                     timers: seq<seq<TimerStep>>, serialize: seq<Row> -> string): Dispatcher
    requires |answers| == |probes| && |timers| == |probes|
    decreases |probes|
  {
    if probes == [] then s
    else RunProbes(configs, RunProbe(configs, s, probes[0], answers[0], timers[0], serialize),
                   probes[1..], answers[1..], timers[1..], serialize)
  }

  /**
   * The alerts a run raises: one per successful query, in probe order, with
   * severity 'error'; none for a failed query.
   */
  function Raised(probes: seq<Probe>, answers: seq<QueryResult>, serialize: seq<Row> -> string): (r: seq<AlertMessage>)
    requires |answers| == |probes|
    ensures |r| <= |probes|
    ensures forall j :: 0 <= j < |r| ==> r[j].severity == Error
    ensures (forall i :: 0 <= i < |answers| ==> answers[i].QueryError?) ==> r == []
    ensures (forall i :: 0 <= i < |answers| ==> answers[i].Rows?) ==>
              |r| == |probes| &&
              forall i :: 0 <= i < |probes| ==> r[i] == ProbeAlert(probes[i].query, serialize(answers[i].rows))
    decreases |probes|
  {
    if probes == [] then []
    else
      var rest := Raised(probes[1..], answers[1..], serialize);
      match answers[0]
      case Rows(rows) => [ProbeAlert(probes[0].query, serialize(rows))] + rest
      case QueryError(_) => rest
  }

  /**
   * Failure isolation: the alerts of a later stretch of probes are the same
   * whatever happened to the earlier ones.
   */
  lemma {:induction false} RaisedSplits(p1: seq<Probe>, a1: seq<QueryResult>, p2: seq<Probe>, a2: seq<QueryResult>,
                                        serialize: seq<Row> -> string)
    requires |a1| == |p1| && |a2| == |p2|
    ensures Raised(p1 + p2, a1 + a2, serialize) == Raised(p1, a1, serialize) + Raised(p2, a2, serialize)
    decreases |p1|
  {
    if p1 != [] {
      var p, a := p1 + p2, a1 + a2;
      assert p[0] == p1[0] && a[0] == a1[0];
      assert p[1..] == p1[1..] + p2 && a[1..] == a1[1..] + a2;
      RaisedSplits(p1[1..], a1[1..], p2, a2, serialize);
      var rest1, rest2 := Raised(p1[1..], a1[1..], serialize), Raised(p2, a2, serialize);
      assert Raised(p[1..], a[1..], serialize) == rest1 + rest2;
      match a1[0]
      case Rows(rows) =>
        var head := [ProbeAlert(p1[0].query, serialize(rows))];
        assert Raised(p, a, serialize) == head + (rest1 + rest2);
        assert Raised(p1, a1, serialize) == head + rest1;
        assert head + (rest1 + rest2) == (head + rest1) + rest2;
      case QueryError(_) =>
    } else {
      assert p1 + p2 == p2 && a1 + a2 == a2;
    }
  }

  /**
   * Whatever the runtime does while the queries are awaited, the dispatcher
   * receives exactly the raised alerts, one `sendAlert` each, in probe order.
   */
  lemma {:induction false} RunProbesRaises(configs: seq<AlertConfig>, s: Dispatcher, probes: seq<Probe>,
                                           answers: seq<QueryResult>, timers: seq<seq<TimerStep>>,
                                           serialize: seq<Row> -> string)
    requires |answers| == |probes| && |timers| == |probes|
    ensures RunProbes(configs, s, probes, answers, timers, serialize).alerts ==
            s.alerts + Raised(probes, answers, serialize)
    decreases |probes|
  {
    if probes != [] {
      var next := RunProbe(configs, s, probes[0], answers[0], timers[0], serialize);
      RunProbesRaises(configs, next, probes[1..], answers[1..], timers[1..], serialize);
      var head := if answers[0].Rows? then [ProbeAlert(probes[0].query, serialize(answers[0].rows))] else [];
      var rest := Raised(probes[1..], answers[1..], serialize);
      assert Raised(probes, answers, serialize) == head + rest;
      assert s.alerts + head + rest == s.alerts + (head + rest);
    }
  }

  /**
   * With no timer activity during the run, the dispatcher sees exactly the
   * raised alerts, one `sendAlert` each, in probe order.
   */
  lemma {:induction false} QuietRunSendsRaised(configs: seq<AlertConfig>, s: Dispatcher, probes: seq<Probe>,
                                               answers: seq<QueryResult>, timers: seq<seq<TimerStep>>,
                                               serialize: seq<Row> -> string)
    requires |answers| == |probes| && |timers| == |probes|
    requires forall i :: 0 <= i < |timers| ==> timers[i] == []
    ensures RunProbes(configs, s, probes, answers, timers, serialize) ==
            SendAll(configs, s, Raised(probes, answers, serialize))
    decreases |probes|
  {
    if probes != [] {
      assert timers[0] == [];
      var next := RunProbe(configs, s, probes[0], answers[0], timers[0], serialize);
      QuietRunSendsRaised(configs, next, probes[1..], answers[1..], timers[1..], serialize);
    }
  }

  /** Whatever the answers and the timer activity, a run keeps the dispatcher in a reachable state. */
  lemma {:induction false} RunProbesPreservesValid(configs: seq<AlertConfig>, s: Dispatcher, probes: seq<Probe>,
                                                   answers: seq<QueryResult>, timers: seq<seq<TimerStep>>,
                                                   serialize: seq<Row> -> string)
    requires |answers| == |probes| && |timers| == |probes|
    requires Valid(configs, s)
    ensures Valid(configs, RunProbes(configs, s, probes, answers, timers, serialize))
    decreases |probes|
  {
    if probes != [] {
      var waited := Steps(configs, s, timers[0]);
      StepsPreserveValid(configs, s, timers[0]);
      if answers[0].Rows? {
        SendAlertPreservesValid(configs, waited, ProbeAlert(probes[0].query, serialize(answers[0].rows)));
      }
      var next := RunProbe(configs, s, probes[0], answers[0], timers[0], serialize);
      RunProbesPreservesValid(configs, next, probes[1..], answers[1..], timers[1..], serialize);
    }
  }

  /** The answers the i-th probe of a run gets when the runner has already served `base` queries. */
  function Answers(answer: (nat, string) -> QueryResult, base: nat, probes: seq<Probe>): (r: seq<QueryResult>)
    ensures |r| == |probes| && forall i :: 0 <= i < |probes| ==> r[i] == answer(base + i, probes[i].query)
  {
    seq(|probes|, i requires 0 <= i < |probes| => answer(base + i, probes[i].query))
  }

  function Waits(timers: nat -> seq<TimerStep>, n: nat): (r: seq<seq<TimerStep>>)
    ensures |r| == n && forall i :: 0 <= i < n ==> r[i] == timers(i)
  {
    seq(n, i requires 0 <= i < n => timers(i))
  }

  class PerformanceManager {
    const name: string
    const integrationManager: IntegrationManager

    constructor (name: string, alertConfigs: seq<AlertConfig>)
      ensures this.name == name && fresh(integrationManager)
      ensures integrationManager.alertConfigs == alertConfigs
      ensures integrationManager.State() == Initial && integrationManager.Valid()
    {
      this.name := name;
      integrationManager := new IntegrationManager(alertConfigs);
    }

    /**
     * logQuery: issue the query; on a result, alert with the query as title
     * and the serialised rows as message, without awaiting the alert, so its
     * rejection never reaches the catch; on an error, only log.
     */
    method LogQuery(subject: string, query: string, description: string, db: QueryRunner,
                    waiting: seq<TimerStep>, serialize: seq<Row> -> string)
      modifies db, integrationManager
      ensures db.issued == old(db.issued) + [query]
      ensures integrationManager.State() ==
                RunProbe(integrationManager.alertConfigs, old(integrationManager.State()),
                         Probe(query, description), db.answer(|old(db.issued)|, query), waiting, serialize)
    {
      var result := db.Query(query);
      integrationManager.Elapse(waiting);
      match result {
        case Rows(rows) =>
          var content := serialize(rows);
          var notAwaited := integrationManager.SendAlert(query, content, Error);
        case QueryError(_) =>
      }
    }

    /**
     * report: every probe in the order written, each exactly once, each
     * awaited before the next starts; a failing query does not stop the run.
     * `timers(i)` is what the runtime does while the i-th query is awaited.
     */
    method Report(subject: string, db: QueryRunner, timers: nat -> seq<TimerStep>, serialize: seq<Row> -> string)
      modifies db, integrationManager
      ensures db.issued == old(db.issued) + Queries(Probes)
      ensures integrationManager.State() ==
                RunProbes(integrationManager.alertConfigs, old(integrationManager.State()), Probes,
                          Answers(db.answer, |old(db.issued)|, Probes), Waits(timers, |Probes|), serialize)
      ensures integrationManager.alerts ==
                old(integrationManager.alerts) + Raised(Probes, Answers(db.answer, |old(db.issued)|, Probes), serialize)
      ensures old(integrationManager.Valid()) ==> integrationManager.Valid()
    {
      LogQueries(subject, Probes, db, timers, serialize);
    }

    /** The awaited `logQuery` calls of `report`, one per entry of `probes`, in order. */
    method LogQueries(subject: string, probes: seq<Probe>, db: QueryRunner, timers: nat -> seq<TimerStep>,
                      serialize: seq<Row> -> string)
      modifies db, integrationManager
      ensures db.issued == old(db.issued) + Queries(probes)
      ensures integrationManager.State() ==
                RunProbes(integrationManager.alertConfigs, old(integrationManager.State()), probes,
                          Answers(db.answer, |old(db.issued)|, probes), Waits(timers, |probes|), serialize)
      ensures integrationManager.alerts ==
                old(integrationManager.alerts) + Raised(probes, Answers(db.answer, |old(db.issued)|, probes), serialize)
      ensures old(integrationManager.Valid()) ==> integrationManager.Valid()
    {
      ghost var start := integrationManager.State();
      ghost var answers := Answers(db.answer, |db.issued|, probes);
      ghost var waits := Waits(timers, |probes|);
      var i := 0;
      while i < |probes|
        invariant 0 <= i <= |probes|
        invariant db.issued == old(db.issued) + Queries(probes[..i])
        invariant RunProbes(integrationManager.alertConfigs, integrationManager.State(),
                            probes[i..], answers[i..], waits[i..], serialize) ==
                  RunProbes(integrationManager.alertConfigs, start, probes, answers, waits, serialize)
      {
        ghost var before := integrationManager.State();
        ghost var issued := db.issued;
        LogQuery(subject, probes[i].query, probes[i].description, db, timers(i), serialize);
        LogQueryStep(integrationManager.alertConfigs, start, before, integrationManager.State(), probes,
                     db.answer, |old(db.issued)|, timers, serialize, i);
        QueriesStep(old(db.issued), issued, db.issued, probes, i);
        i := i + 1;
      }
      assert probes[..i] == probes;
      RunProbesRaises(integrationManager.alertConfigs, start, probes, answers, waits, serialize);
      if old(integrationManager.Valid()) {
        RunProbesPreservesValid(integrationManager.alertConfigs, start, probes, answers, waits, serialize);
      }
    }
  }

  /**
   * One round of the `report` loop: if the rest of the run from `before`
   * ends where the whole run from `start` does, and the i-th `logQuery`
   * took `before` to `after`, then the rest of the run from `after` does too.
   */
  lemma LogQueryStep(configs: seq<AlertConfig>, start: Dispatcher, before: Dispatcher, after: Dispatcher,
                     probes: seq<Probe>, answer: (nat, string) -> QueryResult, base: nat,
                     timers: nat -> seq<TimerStep>, serialize: seq<Row> -> string, i: nat)
    requires i < |probes|
    requires RunProbes(configs, before, probes[i..], Answers(answer, base, probes)[i..],
                       Waits(timers, |probes|)[i..], serialize) ==
             RunProbes(configs, start, probes, Answers(answer, base, probes), Waits(timers, |probes|), serialize)
    requires after == RunProbe(configs, before, Probe(probes[i].query, probes[i].description),
                               answer(base + i, probes[i].query), timers(i), serialize)
    ensures RunProbes(configs, after, probes[i + 1..], Answers(answer, base, probes)[i + 1..],
                      Waits(timers, |probes|)[i + 1..], serialize) ==
            RunProbes(configs, start, probes, Answers(answer, base, probes), Waits(timers, |probes|), serialize)
  {
    var answers, waits := Answers(answer, base, probes), Waits(timers, |probes|);
    assert probes[i..][1..] == probes[i + 1..];
    assert answers[i..][1..] == answers[i + 1..];
    assert waits[i..][1..] == waits[i + 1..];
  }

  /** The queries issued so far grow by the i-th probe's query. */
  lemma QueriesStep(issued0: seq<string>, before: seq<string>, after: seq<string>, probes: seq<Probe>, i: nat)
    requires i < |probes|
    requires before == issued0 + Queries(probes[..i]) && after == before + [probes[i].query]
    ensures after == issued0 + Queries(probes[..i + 1])
  {
    assert probes[..i + 1] == probes[..i] + [probes[i]];
    QueriesAppend(probes[..i], probes[i]);
  }

  lemma QueriesAppend(probes: seq<Probe>, p: Probe)
    ensures Queries(probes + [p]) == Queries(probes) + [p.query]
  {
  }

  /** The battery has nineteen probes, and every query text, which becomes an alert's title, is non-empty. */
  lemma ProbeBattery()
    ensures |Probes| == 19
    ensures forall i :: 0 <= i < |Probes| ==> Probes[i].query != ""
  {
  }
}
