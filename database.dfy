/** The PostgreSQL helpers (server/src/database/index.ts): `query`, which
    times a pool query, and `withTransaction`, whose protocol on a pooled
    client is recorded as a trace of events. */
module Database {
  import opened Wrappers

  // ---------------------------------------------------------------- query

  /** The part of a pool result the helper looks at. */
  datatype QueryResult = QueryResult(rows: seq<string>, rowCount: nat)

  datatype Log =
    | SlowQuery(text: string, durationMs: nat, rows: nat)
    | QueryFailed(text: string, params: seq<string>)

  /** Queries slower than this many milliseconds are reported. */
  const SlowQueryMs := 1000

  /** `query(text, params)` when the pool settles to `outcome` after
      `durationMs`: the result or the error passes through unchanged, with a
      warning for a slow success and an error log for a failure. */
  function Query(text: string, params: seq<string>, outcome: Result<QueryResult, Error>, durationMs: nat)
    : (r: (Result<QueryResult, Error>, seq<Log>))
    ensures r.0 == outcome
    ensures outcome.Success? ==> (r.1 == [SlowQuery(text, durationMs, outcome.value.rowCount)] <==> durationMs > 1000)
    ensures outcome.Success? && durationMs <= 1000 ==> r.1 == []
    ensures outcome.Failure? ==> r.1 == [QueryFailed(text, params)]
  {
    match outcome
    case Success(res) => (outcome, if durationMs > SlowQueryMs then [SlowQuery(text, durationMs, res.rowCount)] else [])
    case Failure(_) => (outcome, [QueryFailed(text, params)])
  }

  // ---------------------------------------------------------------- transactions

  datatype Event = Connect | Statement(sql: string) | Callback | Release

  const Begin := Statement("BEGIN")
  const Commit := Statement("COMMIT")
  const Rollback := Statement("ROLLBACK")

  /** How each step of one `withTransaction` call settles: an error for a
      step that rejects, and the callback's own outcome. */
  datatype Plan<T> = Plan(connect: Option<Error>, begin: Option<Error>, callback: Result<T, Error>,
                          commit: Option<Error>, rollback: Option<Error>)

  /** The first error of the BEGIN, callback, COMMIT sequence, if any. */
  function Failed<T>(p: Plan<T>): Option<Error>
  {
    if p.begin.Some? then p.begin
    else if p.callback.Failure? then Some(p.callback.error)
    else p.commit
  }

  /** The statements issued on the client between acquiring and releasing it. */
  function Statements<T>(p: Plan<T>): seq<Event>
  {
    [Begin]
    + (if p.begin.None? then [Callback] else [])
    + (if p.begin.None? && p.callback.Success? then [Commit] else [])
    + (if Failed(p).Some? then [Rollback] else [])
  }

  /** The trace of one call. */
  function TransactionTrace<T>(p: Plan<T>): (t: seq<Event>)
    ensures t == [] <==> p.connect.Some?
    ensures t != [] ==> |t| >= 3 && t[0] == Connect && t[1] == Begin && t[|t| - 1] == Release
    ensures Rollback in t <==> p.connect.None? && Failed(p).Some?
  {
    if p.connect.Some? then [] else [Connect] + Statements(p) + [Release]
  }

  /** What the call settles to: the callback's value after a commit; else the
      error that triggered the rollback, unless the rollback itself rejects,
      whose error then replaces it. */
  function TransactionResult<T>(p: Plan<T>): (r: Result<T, Error>)
    ensures r.Success? <==> p.connect.None? && Failed(p).None?
    ensures r.Success? ==> p.callback.Success? && r.value == p.callback.value
  {
    if p.connect.Some? then Failure(p.connect.value)
    else
      match Failed(p)
      case None => Success(p.callback.value)
      case Some(e) => if p.rollback.Some? then Failure(p.rollback.value) else Failure(e)
  }

  /** The happy path: connect, BEGIN, callback, COMMIT, release, and the
      callback's value is returned. */
  lemma CommitPath<T>(p: Plan<T>)
    requires p.connect.None? && p.begin.None? && p.callback.Success? && p.commit.None?
    ensures TransactionTrace(p) == [Connect, Begin, Callback, Commit, Release]
    ensures TransactionResult(p) == Success(p.callback.value)
  {
  }

  /** When BEGIN, the callback or COMMIT rejects, ROLLBACK is issued and the
      error is rethrown (replaced by ROLLBACK's own error if that rejects). */
  lemma RollbackPath<T>(p: Plan<T>)
    requires p.connect.None? && Failed(p).Some?
    ensures Rollback in TransactionTrace(p)
    ensures TransactionResult(p) == Failure(if p.rollback.Some? then p.rollback.value else Failed(p).value)
  {
    assert TransactionTrace(p)[|TransactionTrace(p)| - 2] == Rollback;
  }

  /** COMMIT is never issued after the callback rejects; COMMIT and ROLLBACK
      appear together only when COMMIT itself rejected; a successful commit is
      never followed by ROLLBACK. */
  lemma CommitExcludesRollback<T>(p: Plan<T>)
    ensures p.callback.Failure? ==> Commit !in TransactionTrace(p)
    ensures Commit in TransactionTrace(p) && Rollback in TransactionTrace(p) ==> p.commit.Some?
    ensures Commit in TransactionTrace(p) && p.commit.None? ==> Rollback !in TransactionTrace(p)
  {
  }

  function Count(trace: seq<Event>, e: Event): nat
  {
    if trace == [] then 0 else (if trace[0] == e then 1 else 0) + Count(trace[1..], e)
  }

  lemma {:induction false} CountAppend(a: seq<Event>, b: seq<Event>, e: Event)
    ensures Count(a + b, e) == Count(a, e) + Count(b, e)
  {
    if a == [] {
      assert a + b == b;
    } else {
      assert (a + b)[0] == a[0];
      assert (a + b)[1..] == a[1..] + b;
      CountAppend(a[1..], b, e);
    }
  }

  lemma {:induction false} CountAbsent(a: seq<Event>, e: Event)
    requires e !in a
    ensures Count(a, e) == 0
  {
    if a != [] {
      CountAbsent(a[1..], e);
    }
  }

  /** A client that was acquired is released exactly once, as the last event,
      on every path; one that was never acquired is never released. */
  lemma ReleasedOnce<T>(p: Plan<T>)
    ensures p.connect.None? ==> Count(TransactionTrace(p), Release) == 1 && TransactionTrace(p)[|TransactionTrace(p)| - 1] == Release
    ensures p.connect.Some? ==> Count(TransactionTrace(p), Release) == 0
  {
    if p.connect.None? {
      var s := Statements(p);
      CountAbsent([Connect] + s, Release);
      CountAppend([Connect] + s, [Release], Release);
    }
  }

  /** The pool, with the events every client it lent has seen. */
  class Pool {
    var events: seq<Event>

    constructor ()
      ensures events == []
    {
      events := [];
    }

    method Record(e: Event)
      modifies this
      ensures events == old(events) + [e]
    {
      events := events + [e];
    }

    /** `client.query(sql)` on the lent client: records the statement and
        settles to `outcome`. */
    method Run(sql: string, outcome: Option<Error>) returns (r: Option<Error>)
      modifies this
      ensures events == old(events) + [Statement(sql)] && r == outcome
    {
      Record(Statement(sql));
      r := outcome;
    }

    /** `withTransaction(callback)`, the steps settling as `p` says. */
    method WithTransaction<T>(p: Plan<T>) returns (r: Result<T, Error>)
      modifies this
      ensures events == old(events) + TransactionTrace(p)
      ensures r == TransactionResult(p)
    {
      if p.connect.Some? {
        return Failure(p.connect.value);
      }
      Record(Connect);
      var err: Option<Error>;
      err := Run("BEGIN", p.begin);
      var result: Option<T> := None;
      if err.None? {
        Record(Callback);
        if p.callback.Failure? {
          err := Some(p.callback.error);
        } else {
          err := Run("COMMIT", p.commit);
          result := Some(p.callback.value);
        }
      }
      if err.Some? {
        var rolledBack := Run("ROLLBACK", p.rollback);
        r := if rolledBack.Some? then Failure(rolledBack.value) else Failure(err.value);
      } else {
        r := Success(result.value);
      }
      Record(Release);
    }
  }
}
