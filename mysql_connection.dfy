/**
 * The policy side of a broker MySQL connection: which errors are fatal, how
 * a prepared statement is executed and retried on deadlock, how commits are
 * counted, how the task list is drained and when new tasks are refused. The
 * MySQL client library is left abstract: the error number each call returns
 * is an input (0 meaning success), given per attempt.
 */
module MysqlConnection {
  import opened Common

  const MaxAttempts: nat := 10

  /** The MySQL client's CR_SERVER_GONE_ERROR and CR_SERVER_LOST. */
  const ServerGoneError: int := 2006
  const ServerLost: int := 2013

  /** InnoDB's deadlock and lock-wait-timeout error numbers. */
  const DeadlockError: int := 1213
  const LockWaitTimeout: int := 1205

  /** `_server_error`: the two error numbers that mean the server connection is lost. */
  function ServerError(code: int): (b: bool)
    ensures b <==> code == ServerGoneError || code == ServerLost
  {
    match code
    case 2006 => true
    case 2013 => true
    case _ => false
  }

  /** The error message a connection may hold (the message texts are left abstract). */
  datatype ConnError =
    | NotPrepared(statementId: nat)
    | ExecFailed(errno: int)
    | CommitAfterExecFailed
    | CommitFailed(errno: int)
    | PrepareFailed

  /** How an execution loop ended: executions made, whether one succeeded, and the error set. */
  datatype ExecOutcome = ExecOutcome(executions: nat, succeeded: bool, error: Option<ConnError>)

  /**
   * The retry loop of `_statement` from attempt `k`: a success ends it; a
   * server error is reported at once; any other failure is followed by a
   * commit, whose failure is reported; only a deadlock or lock wait timeout
   * is retried, up to `MaxAttempts` executions in all.
   */
  function ExecLoop(k: nat, execErrno: nat -> int, commitErrno: nat -> int): (r: ExecOutcome)
    requires k < MaxAttempts
    ensures k < r.executions <= MaxAttempts
    ensures r.succeeded ==> r.error.None?
    decreases MaxAttempts - k
  {
    var e := execErrno(k);
    if e == 0 then ExecOutcome(k + 1, true, None)
    else if ServerError(e) then ExecOutcome(k + 1, false, Some(ExecFailed(e)))
    else if commitErrno(k) != 0 then ExecOutcome(k + 1, false, Some(CommitAfterExecFailed))
    else if e != DeadlockError && e != LockWaitTimeout then ExecOutcome(k + 1, false, None)
    else if k + 1 >= MaxAttempts then ExecOutcome(k + 1, false, None)
    else ExecLoop(k + 1, execErrno, commitErrno)
  }

  /** Any error other than a deadlock or a lock wait timeout means one execution only. */
  lemma NonDeadlockRunsOnce(execErrno: nat -> int, commitErrno: nat -> int)
    requires execErrno(0) != 0 && execErrno(0) != DeadlockError && execErrno(0) != LockWaitTimeout
    ensures ExecLoop(0, execErrno, commitErrno).executions == 1
    ensures !ExecLoop(0, execErrno, commitErrno).succeeded
  {
  }

  /**
   * A statement that keeps hitting deadlocks, with every commit going
   * through, is executed exactly `MaxAttempts` times and then dropped
   * without an error.
   */
  lemma {:induction false} PersistentDeadlockRunsTenTimes(k: nat, execErrno: nat -> int, commitErrno: nat -> int)
    requires k < MaxAttempts
    requires forall j :: k <= j < MaxAttempts ==> execErrno(j) == DeadlockError && commitErrno(j) == 0
    ensures ExecLoop(k, execErrno, commitErrno) == ExecOutcome(MaxAttempts, false, None)
    decreases MaxAttempts - k
  {
    if k + 1 < MaxAttempts {
      PersistentDeadlockRunsTenTimes(k + 1, execErrno, commitErrno);
    }
  }

  /** A success after some deadlocks is a success, with one execution per attempt. */
  lemma {:induction false} DeadlocksThenSuccess(k: nat, n: nat, execErrno: nat -> int, commitErrno: nat -> int)
    requires k <= n < MaxAttempts
    requires forall j :: k <= j < n ==> execErrno(j) == DeadlockError && commitErrno(j) == 0
    requires execErrno(n) == 0
    ensures ExecLoop(k, execErrno, commitErrno) == ExecOutcome(n + 1, true, None)
    decreases n - k
  {
    if k < n {
      DeadlocksThenSuccess(k + 1, n, execErrno, commitErrno);
    }
  }

  /**
   * The statement lookup as written: `_stmt[id]` inserts an empty entry
   * for an id that was never prepared.
   */
  function LookupAsWritten(stmts: map<nat, Option<string>>, id: nat): (r: (map<nat, Option<string>>, Option<string>))
    ensures r.0.Keys == stmts.Keys + {id}
    ensures r.1.Some? <==> id in stmts && stmts[id].Some?
    ensures id !in stmts ==> r.0[id].None?
  {
    if id in stmts then (stmts, stmts[id]) else (stmts[id := None], None)
  }

  /** `_prepare`: an id already present in the table is refused; otherwise a successful prepare stores it. */
  function AfterPrepare(stmts: map<nat, Option<string>>, id: nat, query: string, prepareOk: bool): (r: map<nat, Option<string>>)
    ensures id in stmts ==> r == stmts
    ensures id !in stmts && prepareOk ==> r == stmts[id := Some(query)]
    ensures id !in stmts && !prepareOk ==> r == stmts
  {
    if id in stmts then stmts else if prepareOk then stmts[id := Some(query)] else stmts
  }

  /**
   * As written, executing statement 1 through `_statement_res` or
   * `_statement_int` before preparing it rejects that task's promise but
   * sets no connection error, so the task is popped and the empty entry
   * stays; the prepare that follows is refused and the statement is never
   * prepared.
   */
  lemma StatementBeforePrepareBlocksIt(query: string)
    ensures var afterLookup := LookupAsWritten(map[], 1).0;
      AfterPrepare(afterLookup, 1, query, true)[1] == None
  {
  }

  /** The corrected lookup reads the table without changing it. */
  function Lookup(stmts: map<nat, Option<string>>, id: nat): (r: Option<string>)
    ensures r.Some? <==> id in stmts && stmts[id].Some?
  {
    if id in stmts then stmts[id] else None
  }

  /** With the corrected lookup, a statement run before it is prepared can still be prepared afterwards. */
  lemma StatementBeforePrepareThenPrepares(stmts: map<nat, Option<string>>, id: nat, query: string)
    requires id !in stmts
    ensures Lookup(stmts, id).None?
    ensures Lookup(AfterPrepare(stmts, id, query, true), id) == Some(query)
  {
  }

  /**
   * The commit loop of `_commit`: up to `MaxAttempts` commits while they
   * fail, stopping early on a server error. The result is the last return
   * code and the error set, if any.
   */
  function CommitLoop(k: nat, commitErrno: nat -> int): (r: (int, Option<ConnError>))
    requires k < MaxAttempts
    ensures r.0 == 0 ==> r.1.None?
    ensures r.1.Some? ==> ServerError(r.0)
    decreases MaxAttempts - k
  {
    var res := commitErrno(k);
    if res == 0 then (0, None)
    else if ServerError(res) then (res, Some(CommitFailed(res)))
    else if k + 1 >= MaxAttempts then (res, None)
    else CommitLoop(k + 1, commitErrno)
  }

  /** A commit that succeeds at some attempt, after failures that are not server errors, succeeds. */
  lemma {:induction false} CommitEventuallySucceeds(k: nat, n: nat, commitErrno: nat -> int)
    requires k <= n < MaxAttempts
    requires forall j :: k <= j < n ==> commitErrno(j) != 0 && !ServerError(commitErrno(j))
    requires commitErrno(n) == 0
    ensures CommitLoop(k, commitErrno) == (0, None)
    decreases n - k
  {
    if k < n {
      CommitEventuallySucceeds(k + 1, n, commitErrno);
    }
  }

  /**
   * A queued task: its type index in the processing table, and the
   * statement id and query text that prepare and statement tasks carry.
   */
  datatype Task = Task(kind: nat, id: nat, query: string)

  /** The number of entries of the task processing table, and the entries modelled in detail. */
  const HandlerCount: nat := 13
  const CommitKind: nat := 3
  const PrepareKind: nat := 4
  const StatementKind: nat := 5

  /**
   * What the library and the clock answer while one task runs: whether the
   * prepare is accepted, whether binding fails, the error number of each
   * execution and commit attempt, the time, and the error numbers of the
   * delayed commit that may follow. The handlers of the other table entries
   * (queries, other statement kinds, fetches, version) are given by the
   * error they set, if any, and whether they mark a commit as needed.
   */
  datatype TaskOutcome = TaskOutcome(
    prepareOk: bool, bindFails: bool, execErrno: nat -> int, commitErrno: nat -> int,
    otherError: Option<ConnError>, otherSucceeded: bool, now: int, delayedCommitErrno: nat -> int)

  /** The part of a connection the task handlers change. */
  datatype ConnState = ConnState(
    stmts: map<nat, Option<string>>, needCommit: bool, error: Option<ConnError>, lastCommit: int, lastAccess: int)

  /** `set_error_message` when `e` is an error; handlers never clear one. */
  function Raise(s: ConnState, e: Option<ConnError>): ConnState {
    if e.Some? then s.(error := e) else s
  }

  /** `_prepare` on the connection state. */
  function PrepareEffect(s: ConnState, id: nat, query: string, prepareOk: bool): (r: ConnState)
    ensures r.stmts == AfterPrepare(s.stmts, id, query, prepareOk)
    ensures r.error == (if id !in s.stmts && !prepareOk then Some(PrepareFailed) else s.error)
    ensures r.needCommit == s.needCommit && r.lastCommit == s.lastCommit && r.lastAccess == s.lastAccess
  {
    if id in s.stmts then s
    else if prepareOk then s.(stmts := s.stmts[id := Some(query)])
    else s.(error := Some(PrepareFailed))
  }

  /** `_statement`, with the corrected lookup, on the connection state. */
  function StatementEffect(s: ConnState, id: nat, bindFails: bool, execErrno: nat -> int, commitErrno: nat -> int): (r: ConnState)
    ensures r.stmts == s.stmts && r.lastCommit == s.lastCommit && r.lastAccess == s.lastAccess
    ensures s.error.Some? ==> r.error.Some?
    ensures Lookup(s.stmts, id).None? ==> r.error == Some(NotPrepared(id)) && r.needCommit == s.needCommit
    ensures r.needCommit <==> s.needCommit || (Lookup(s.stmts, id).Some? && !bindFails && ExecLoop(0, execErrno, commitErrno).succeeded)
  {
    if Lookup(s.stmts, id).None? then s.(error := Some(NotPrepared(id)))
    else if bindFails then s
    else
      var o := ExecLoop(0, execErrno, commitErrno);
      Raise(s.(needCommit := s.needCommit || o.succeeded), o.error)
  }

  /** `_commit` on the connection state, for `qps` queries per transaction. */
  function CommitEffect(s: ConnState, qps: nat, commitErrno: nat -> int, now: int): (r: ConnState)
    ensures r.stmts == s.stmts
    ensures s.error.Some? ==> r.error.Some?
    ensures qps <= 1 ==> r == s
    ensures qps > 1 ==> (r.needCommit <==> s.needCommit && CommitLoop(0, commitErrno).0 != 0)
    ensures qps > 1 ==> r.lastCommit == (if r.needCommit then s.lastCommit else now)
    ensures r.error != s.error ==> r.error == CommitLoop(0, commitErrno).1
  {
    if qps <= 1 then s
    else if !s.needCommit then s.(lastCommit := now)
    else
      var c := CommitLoop(0, commitErrno);
      if c.0 == 0 then s.(needCommit := false, lastCommit := now, lastAccess := now)
      else Raise(s, c.1)
  }

  /** The handler of a task type in the processing table. */
  function Handle(s: ConnState, t: Task, o: TaskOutcome, qps: nat): (r: ConnState)
    ensures s.error.Some? ==> r.error.Some?
    ensures r.stmts.Keys <= s.stmts.Keys + (if t.kind == PrepareKind then {t.id} else {})
  {
    if t.kind == CommitKind then CommitEffect(s, qps, o.commitErrno, o.now)
    else if t.kind == PrepareKind then PrepareEffect(s, t.id, t.query, o.prepareOk)
    else if t.kind == StatementKind then StatementEffect(s, t.id, o.bindFails, o.execErrno, o.commitErrno)
    else Raise(s.(needCommit := s.needCommit || o.otherSucceeded), o.otherError)
  }

  /**
   * Running one task in `_process_tasks`: a type outside the table changes
   * nothing; otherwise its handler runs, followed by a commit when the
   * commit delay has passed since the last commit.
   */
  function RunTask(s: ConnState, t: Task, o: TaskOutcome, qps: nat, maxDelay: int): (r: ConnState)
    ensures s.error.Some? ==> r.error.Some?
    ensures t.kind >= HandlerCount ==> r == s
    ensures r.stmts.Keys <= s.stmts.Keys + (if t.kind == PrepareKind then {t.id} else {})
  {
    if t.kind >= HandlerCount then s
    else
      var h := Handle(s, t, o, qps);
      if o.now > h.lastCommit + maxDelay then CommitEffect(h, qps, o.delayedCommitErrno, o.now) else h
  }

  /**
   * `_process_tasks` from the task at position `i` of the batch: each task
   * runs, and is popped (recording the access time) only when no error is
   * active afterwards. The result is the final state and the number popped.
   */
  function Drain(s: ConnState, tasks: seq<Task>, outcomes: nat -> TaskOutcome, i: nat, qps: nat, maxDelay: int): (r: (ConnState, nat))
    ensures r.1 <= |tasks|
    ensures |tasks| > 0 ==> (r.1 < |tasks| <==> r.0.error.Some?)
    ensures |tasks| == 0 ==> r == (s, 0)
    decreases |tasks|
  {
    if |tasks| == 0 then (s, 0)
    else
      var s1 := RunTask(s, tasks[0], outcomes(i), qps, maxDelay);
      if s1.error.Some? then (s1, 0)
      else
        var r := Drain(s1.(lastAccess := outcomes(i).now), tasks[1..], outcomes, i + 1, qps, maxDelay);
        (r.0, r.1 + 1)
  }

  /** One step of the loop: the front task runs, and the rest continues only without an error. */
  lemma DrainStep(s: ConnState, tasks: seq<Task>, outcomes: nat -> TaskOutcome, i: nat, qps: nat, maxDelay: int)
    requires |tasks| > 0
    ensures var s1 := RunTask(s, tasks[0], outcomes(i), qps, maxDelay);
      Drain(s, tasks, outcomes, i, qps, maxDelay)
        == if s1.error.Some? then (s1, 0)
           else var r := Drain(s1.(lastAccess := outcomes(i).now), tasks[1..], outcomes, i + 1, qps, maxDelay);
             (r.0, r.1 + 1)
  {
  }

  /** While an error is active, the front task still runs and nothing is popped. */
  lemma DrainWhileErrorActive(s: ConnState, tasks: seq<Task>, outcomes: nat -> TaskOutcome, i: nat, qps: nat, maxDelay: int)
    requires s.error.Some? && |tasks| > 0
    ensures Drain(s, tasks, outcomes, i, qps, maxDelay) == (RunTask(s, tasks[0], outcomes(i), qps, maxDelay), 0)
  {
  }

  /**
   * The loop stops right after the first task that leaves an error set: the
   * tasks before it are drained without error, and the final state is that
   * task run on the state they leave.
   */
  lemma {:induction false} DrainStopsAtError(s: ConnState, tasks: seq<Task>, outcomes: nat -> TaskOutcome, i: nat, qps: nat, maxDelay: int)
    ensures var r := Drain(s, tasks, outcomes, i, qps, maxDelay);
      var p := Drain(s, tasks[..r.1], outcomes, i, qps, maxDelay);
      && p.1 == r.1
      && (r.1 > 0 ==> p.0.error.None?)
      && (r.1 < |tasks| ==> r.0 == RunTask(p.0, tasks[r.1], outcomes(i + r.1), qps, maxDelay) && r.0.error.Some?)
    decreases |tasks|
  {
    if |tasks| > 0 {
      var s1 := RunTask(s, tasks[0], outcomes(i), qps, maxDelay);
      if s1.error.None? {
        var s2 := s1.(lastAccess := outcomes(i).now);
        DrainStopsAtError(s2, tasks[1..], outcomes, i + 1, qps, maxDelay);
        var r := Drain(s, tasks, outcomes, i, qps, maxDelay);
        var q := Drain(s2, tasks[1..], outcomes, i + 1, qps, maxDelay);
        assert r == (q.0, q.1 + 1);
        assert tasks[..r.1][1..] == tasks[1..][..q.1];
        if r.1 < |tasks| {
          assert tasks[r.1] == tasks[1..][q.1];
        }
      }
    }
  }

  /** The ids of the prepare tasks of a batch. */
  function PreparedIds(tasks: seq<Task>): (ids: set<nat>)
    ensures forall id :: id in ids <==> exists k :: 0 <= k < |tasks| && tasks[k].kind == PrepareKind && tasks[k].id == id
  {
    if |tasks| == 0 then {}
    else
      assert forall k :: 1 <= k < |tasks| ==> tasks[k] == tasks[1..][k - 1];
      (if tasks[0].kind == PrepareKind then {tasks[0].id} else {}) + PreparedIds(tasks[1..])
  }

  /** Draining a batch adds statements only under the ids its prepare tasks carry. */
  lemma {:induction false} DrainAddsOnlyPrepared(s: ConnState, tasks: seq<Task>, outcomes: nat -> TaskOutcome, i: nat, qps: nat, maxDelay: int)
    ensures Drain(s, tasks, outcomes, i, qps, maxDelay).0.stmts.Keys <= s.stmts.Keys + PreparedIds(tasks)
    decreases |tasks|
  {
    if |tasks| > 0 {
      var s1 := RunTask(s, tasks[0], outcomes(i), qps, maxDelay);
      if s1.error.None? {
        DrainAddsOnlyPrepared(s1.(lastAccess := outcomes(i).now), tasks[1..], outcomes, i + 1, qps, maxDelay);
      }
    }
  }

  /**
   * With the corrected lookup, a batch that prepares statement `id` and then
   * executes it, with the library accepting both and no commit delay
   * involved (one query per transaction), pops both tasks, stores the
   * statement and marks a commit as needed.
   */
  lemma PrepareThenStatement(s: ConnState, id: nat, query: string, outcomes: nat -> TaskOutcome, maxDelay: int)
    requires s.error.None? && id !in s.stmts
    requires outcomes(0).prepareOk && !outcomes(1).bindFails && outcomes(1).execErrno(0) == 0
    ensures var r := Drain(s, [Task(PrepareKind, id, query), Task(StatementKind, id, "")], outcomes, 0, 1, maxDelay);
      && r.1 == 2
      && r.0.stmts == s.stmts[id := Some(query)]
      && r.0.needCommit
      && r.0.error.None?
  {
    var tasks := [Task(PrepareKind, id, query), Task(StatementKind, id, "")];
    var s1 := RunTask(s, tasks[0], outcomes(0), 1, maxDelay);
    assert s1 == s.(stmts := s.stmts[id := Some(query)]);
    var s2 := s1.(lastAccess := outcomes(0).now);
    assert tasks[1..] == [Task(StatementKind, id, "")];
    var s3 := RunTask(s2, tasks[1], outcomes(1), 1, maxDelay);
    assert s3 == s2.(needCommit := true);
  }

  /** The configuration a connection is built from. */
  datatype DatabaseConfig = DatabaseConfig(
    host: string, socket: string, user: string, password: string, name: string, port: nat,
    queriesPerTransaction: nat, maxCommitDelay: int)

  /** The largest 64-bit `time_t`, the last commit time of a connection that commits every query. */
  const MaxTime: int := 0x7FFF_FFFF_FFFF_FFFF

  class Connection {
    const host: string
    const socket: string
    const user: string
    const pwd: string
    const name: string
    const port: nat
    const qps: nat
    const maxCommitDelay: int
    var needCommit: bool
    var lastCommit: int
    var lastAccess: int
    var error: Option<ConnError>
    var stmts: map<nat, Option<string>>
    var tasks: seq<Task>
    var tasksCount: int
    var finishAsked: bool
    var finished: bool

    constructor (cfg: DatabaseConfig)
      ensures host == cfg.host && socket == cfg.socket && user == cfg.user && pwd == cfg.password
      ensures name == cfg.name && port == cfg.port && qps == cfg.queriesPerTransaction
      ensures maxCommitDelay == cfg.maxCommitDelay
      ensures lastCommit == (if cfg.queriesPerTransaction > 1 then 0 else MaxTime) && lastAccess == 0
      ensures !needCommit && error.None? && stmts == map[] && tasks == [] && tasksCount == 0
      ensures !finishAsked && !finished
    {
      host, socket, user, pwd, name, port, qps := cfg.host, cfg.socket, cfg.user, cfg.password, cfg.name, cfg.port, cfg.queriesPerTransaction;
      maxCommitDelay := cfg.maxCommitDelay;
      needCommit, lastAccess, error := false, 0, None;
      lastCommit := if cfg.queriesPerTransaction > 1 then 0 else MaxTime;
      stmts, tasks, tasksCount, finishAsked, finished := map[], [], 0, false, false;
    }

    /** The fields the task handlers change. */
    function State(): ConnState
      reads this
    {
      ConnState(stmts, needCommit, error, lastCommit, lastAccess)
    }

    /** `match_config`: every connection parameter agrees; the commit delay is not compared. */
    function MatchConfig(cfg: DatabaseConfig): (b: bool)
      reads this
      ensures b <==> DatabaseConfig(host, socket, user, pwd, name, port, qps, cfg.maxCommitDelay) == cfg
    {
      cfg.host == host && cfg.socket == socket && cfg.user == user && cfg.password == pwd
        && cfg.name == name && cfg.port == port && cfg.queriesPerTransaction == qps
    }

    /** `_prepare`, given whether the library accepts the query. */
    method Prepare(id: nat, query: string, prepareOk: bool)
      modifies this
      ensures stmts == AfterPrepare(old(stmts), id, query, prepareOk)
      ensures id !in old(stmts) && !prepareOk ==> error == Some(PrepareFailed)
      ensures !(id !in old(stmts) && !prepareOk) ==> error == old(error)
      ensures needCommit == old(needCommit) && tasks == old(tasks)
      ensures State() == PrepareEffect(old(State()), id, query, prepareOk)
      ensures tasksCount == old(tasksCount) && finishAsked == old(finishAsked) && finished == old(finished)
    {
      if id in stmts {
        return;
      }
      if prepareOk {
        stmts := stmts[id := Some(query)];
      } else {
        error := Some(PrepareFailed);
      }
    }

    /**
     * `_statement` with the corrected lookup. A failed parameter binding is
     * only logged. Returns the number of executions made.
     */
    method Statement(id: nat, bindFails: bool, execErrno: nat -> int, commitErrno: nat -> int)
      returns (executions: nat)
      modifies this
      ensures stmts == old(stmts) && tasks == old(tasks)
      ensures Lookup(stmts, id).None? ==>
        executions == 0 && error == Some(NotPrepared(id)) && needCommit == old(needCommit)
      ensures Lookup(stmts, id).Some? && bindFails ==>
        executions == 0 && error == old(error) && needCommit == old(needCommit)
      ensures Lookup(stmts, id).Some? && !bindFails ==>
        var o := ExecLoop(0, execErrno, commitErrno);
        && executions == o.executions
        && needCommit == (old(needCommit) || o.succeeded)
        && error == (if o.error.Some? then o.error else old(error))
      ensures State() == StatementEffect(old(State()), id, bindFails, execErrno, commitErrno)
      ensures tasksCount == old(tasksCount) && finishAsked == old(finishAsked) && finished == old(finished)
    {
      if Lookup(stmts, id).None? {
        error := Some(NotPrepared(id));
        return 0;
      }
      if bindFails {
        return 0;
      }
      var attempts: int := 0;
      executions := 0;
      while true
        invariant 0 <= attempts == executions < MaxAttempts
        invariant ExecLoop(0, execErrno, commitErrno) == ExecLoop(executions, execErrno, commitErrno)
        invariant State() == old(State()) && tasks == old(tasks)
        invariant tasksCount == old(tasksCount) && finishAsked == old(finishAsked) && finished == old(finished)
        decreases MaxAttempts - attempts
      {
        var e := execErrno(executions);
        executions := executions + 1;
        if e != 0 {
          if ServerError(e) {
            error := Some(ExecFailed(e));
            break;
          }
          if e != DeadlockError && e != LockWaitTimeout {
            attempts := MaxAttempts;
          }
          if commitErrno(executions - 1) != 0 {
            error := Some(CommitAfterExecFailed);
            break;
          }
          attempts := attempts + 1;
          if attempts >= MaxAttempts {
            break;
          }
        } else {
          needCommit := true;
          break;
        }
      }
    }

    /**
     * `_commit`: with at most one query per transaction nothing happens;
     * otherwise pending queries are committed, and nothing pending counts as
     * a success. A success clears `needCommit`. A task, when given, is
     * resolved with true whatever happened.
     */
    method Commit(hasTask: bool, commitErrno: nat -> int, now: int) returns (resolved: Option<bool>)
      modifies this
      ensures resolved == (if hasTask then Some(true) else None)
      ensures stmts == old(stmts) && tasks == old(tasks)
      ensures qps <= 1 ==>
        needCommit == old(needCommit) && error == old(error) && lastCommit == old(lastCommit) && lastAccess == old(lastAccess)
      ensures qps > 1 && !old(needCommit) ==>
        !needCommit && lastCommit == now && error == old(error) && lastAccess == old(lastAccess)
      ensures qps > 1 && old(needCommit) ==>
        var c := CommitLoop(0, commitErrno);
        && error == (if c.1.Some? then c.1 else old(error))
        && needCommit == (c.0 != 0)
        && lastCommit == (if c.0 == 0 then now else old(lastCommit))
        && lastAccess == (if c.0 == 0 then now else old(lastAccess))
      ensures State() == CommitEffect(old(State()), qps, commitErrno, now)
      ensures tasksCount == old(tasksCount) && finishAsked == old(finishAsked) && finished == old(finished)
    {
      if qps > 1 {
        var res := 0;
        if needCommit {
          var attempts := 0;
          res := commitErrno(0);
          attempts := 1;
          while res != 0 && !ServerError(res) && attempts < MaxAttempts
            invariant 1 <= attempts <= MaxAttempts
            invariant res == commitErrno(attempts - 1)
            invariant CommitLoop(0, commitErrno) ==
              if res == 0 || ServerError(res) || attempts == MaxAttempts then CommitLoop(attempts - 1, commitErrno)
              else CommitLoop(attempts, commitErrno)
            invariant error == old(error)
            decreases MaxAttempts - attempts
          {
            res := commitErrno(attempts);
            attempts := attempts + 1;
          }
          if res != 0 && ServerError(res) {
            error := Some(CommitFailed(res));
          }
          if res == 0 {
            lastAccess := now;
          }
        }
        if res == 0 {
          needCommit := false;
          lastCommit := now;
        }
      }
      resolved := if hasTask then Some(true) else None;
    }

    /**
     * One task of `_process_tasks`: the handler of its type from the
     * processing table, then a commit when the commit delay has passed; a
     * type outside the table is only logged.
     */
    method RunTaskOnce(task: Task, o: TaskOutcome)
      modifies this
      ensures State() == RunTask(old(State()), task, o, qps, maxCommitDelay)
      ensures tasks == old(tasks) && tasksCount == old(tasksCount)
      ensures finishAsked == old(finishAsked) && finished == old(finished)
    {
      if task.kind < HandlerCount {
        ghost var before := State();
        if task.kind == CommitKind {
          var resolved := Commit(true, o.commitErrno, o.now);
        } else if task.kind == PrepareKind {
          Prepare(task.id, task.query, o.prepareOk);
        } else if task.kind == StatementKind {
          var executions := Statement(task.id, o.bindFails, o.execErrno, o.commitErrno);
        } else {
          if o.otherSucceeded {
            needCommit := true;
          }
          if o.otherError.Some? {
            error := o.otherError;
          }
        }
        assert State() == Handle(before, task, o, qps);
        if o.now > lastCommit + maxCommitDelay {
          var resolved := Commit(false, o.delayedCommitErrno, o.now);
        }
      }
    }

    /**
     * `_process_tasks`: runs the front task through its handler, commits
     * when the commit delay has passed, and pops the task when no error is
     * active afterwards; it returns with the task still in front otherwise.
     * The task counter goes down once per task run. `outcomes(k)` is what
     * the library and the clock answer for the `k`-th task of the batch.
     */
    method ProcessTasks(outcomes: nat -> TaskOutcome)
      modifies this
      ensures var r := Drain(old(State()), old(tasks), outcomes, 0, qps, maxCommitDelay);
        && State() == r.0
        && tasks == old(tasks)[r.1..]
        && tasksCount == old(tasksCount) - r.1 - (if r.1 < |old(tasks)| then 1 else 0)
      ensures finishAsked == old(finishAsked) && finished == old(finished)
    {
      var n: nat := 0;
      while tasks != []
        invariant n <= |old(tasks)| && tasks == old(tasks)[n..]
        invariant var r := Drain(State(), tasks, outcomes, n, qps, maxCommitDelay);
          Drain(old(State()), old(tasks), outcomes, 0, qps, maxCommitDelay) == (r.0, r.1 + n)
        invariant tasksCount == old(tasksCount) - n
        invariant finishAsked == old(finishAsked) && finished == old(finished)
        decreases |tasks|
      {
        DrainStep(State(), tasks, outcomes, n, qps, maxCommitDelay);
        var stop := RunFront(outcomes, n);
        if stop {
          return;
        }
        assert old(tasks)[n..][1..] == old(tasks)[n + 1..];
        n := n + 1;
      }
    }

    /**
     * One turn of the task loop: the front task runs; without an error it is
     * popped and the access time is renewed, with one it stays in the queue.
     */
    method RunFront(outcomes: nat -> TaskOutcome, n: nat) returns (stop: bool)
      requires tasks != []
      modifies this
      ensures var s1 := RunTask(old(State()), old(tasks)[0], outcomes(n), qps, maxCommitDelay);
        && (stop <==> s1.error.Some?)
        && (stop ==> State() == s1 && tasks == old(tasks))
        && (!stop ==> State() == s1.(lastAccess := outcomes(n).now) && tasks == old(tasks)[1..])
      ensures tasksCount == old(tasksCount) - 1
      ensures finishAsked == old(finishAsked) && finished == old(finished)
    {
      tasksCount := tasksCount - 1;
      var task := tasks[0];
      var o := outcomes(n);
      RunTaskOnce(task, o);
      stop := error.Some?;
      if !stop {
        tasks := tasks[1..];
        lastAccess := o.now;
      }
    }

    /** `_push`: refused once finishing was asked or the connection is finished. */
    method Push(t: Task) returns (accepted: bool)
      modifies this
      ensures accepted <==> !old(finishAsked) && !old(finished)
      ensures accepted ==> tasks == old(tasks) + [t] && tasksCount == old(tasksCount) + 1
      ensures !accepted ==> tasks == old(tasks) && tasksCount == old(tasksCount)
      ensures finishAsked == old(finishAsked) && finished == old(finished)
    {
      if finishAsked || finished {
        return false;
      }
      tasks := tasks + [t];
      tasksCount := tasksCount + 1;
      accepted := true;
    }

    /** `finish`: asks the connection to stop accepting tasks. */
    method Finish()
      modifies this
      ensures finishAsked && tasks == old(tasks) && finished == old(finished)
    {
      finishAsked := true;
    }
  }
}
