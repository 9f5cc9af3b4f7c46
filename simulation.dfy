/**
 * The simulation job queue of src/controllers/simulation.js: a single
 * worker serving a FIFO queue, a status table keyed by job id, the
 * `isProcessing` flag, the id of the running job and the next id to hand
 * out. The handlers' HTTP shaping is reduced to reply values; timestamps
 * are dropped; the run itself is a parameter `run` that yields a result or
 * the message of what it threw; the `setTimeout` re-dispatch is `Drain`.
 */
module JobQueue {
  import opened Wrappers
  import opened Vectors
  import opened SimLog
  import opened Integrator
  import opened JsParseInt

  /**
   * The job object's `position` key: the submitted coordinates, or the
   * 1-based queue place that a query of a QUEUED job writes over them
   * (the query's reply is the stored object itself).
   */
  datatype PositionKey = Coords(coords: Vec3) | Place(place: int)

  /** The job's `velocity`, `position` and `mass` keys. */
  datatype Params = Params(velocity: Vec3, position: PositionKey, mass: real)

  /** `main_sim(velocity, position, mass)`, from the three objects it is handed to the outcome it leaves. */
  type Runner = (Vec3, Vec3, real) -> RunOutcome

  /**
   * The vector `main_sim` builds from the `position` key with
   * `new THREE.Vector3(positionObj.x, positionObj.y, positionObj.z)`: a
   * number has no `x`, `y` or `z`, and the Vector3 constructor takes an
   * undefined component as 0.
   */
  function StartPosition(k: PositionKey): Vec3 {
    match k
    case Coords(c) => c
    case Place(_) => Zero
  }

  /** The run a dispatch starts for a job's keys. */
  function Launch(p: Params, run: Runner): RunOutcome {
    run(p.velocity, StartPosition(p.position), p.mass)
  }

  /** The job's `status`, with what the dispatcher stores beside it. */
  datatype Phase =
    | Queued
    | Processing
    | Completed(converge: bool, logData: seq<Snapshot>)
    | Failed(error: string)

  /** The `STATUS` constants. */
  function StatusCode(ph: Phase): (c: nat)
    ensures c <= 3
    ensures (c == 0) == ph.Queued? && (c == 1) == ph.Processing?
    ensures (c == 2) == ph.Completed? && (c == 3) == ph.Failed?
  {
    match ph
    case Queued => 0
    case Processing => 1
    case Completed(_, _) => 2
    case Failed(_) => 3
  }

  /**
   * A stored job object. A query writes `message` into it, and for a
   * QUEUED job overwrites its `position` key with the queue place (the
   * reply IS the stored object, and the queue holds the same object); a
   * later dispatch spreads both along and runs from the overwritten key.
   */
  datatype JobRecord = JobRecord(id: nat, params: Params, phase: Phase, message: Option<string>)

  /** One body field: null/undefined, or a value and what `parseFloat` makes of it (`None` is NaN). */
  datatype Field = Missing | Given(parsed: Option<real>)

  datatype Submission = Submission(vx: Field, vy: Field, vz: Field, dx: Field, dy: Field, dz: Field, mass: Field)

  const MissingParameters := "Missing required parameters: vx, vy, vz, dx, dy, dz, mass"
  const InvalidNumbers := "All parameters must be valid numbers"

  /** A field `parseFloat` turns into a number. */
  predicate IsNumber(f: Field) {
    f.Given? && f.parsed.Some?
  }

  predicate AnyMissing(s: Submission) {
    s.vx.Missing? || s.vy.Missing? || s.vz.Missing? || s.dx.Missing? || s.dy.Missing? || s.dz.Missing? || s.mass.Missing?
  }

  predicate AllNumbers(s: Submission) {
    IsNumber(s.vx) && IsNumber(s.vy) && IsNumber(s.vz) && IsNumber(s.dx) && IsNumber(s.dy) && IsNumber(s.dz) && IsNumber(s.mass)
  }

  /**
   * The two checks of `runSimulation`: first that no field is missing,
   * then that none parses to NaN.
   */
  function Validate(s: Submission): (r: Result<Params, string>)
    ensures r.Success? <==> AllNumbers(s)
    ensures AnyMissing(s) ==> r == Failure(MissingParameters)
    ensures !AnyMissing(s) && !AllNumbers(s) ==> r == Failure(InvalidNumbers)
    ensures r.Success? ==> r.value.velocity == Vec3(s.vx.parsed.value, s.vy.parsed.value, s.vz.parsed.value)
    ensures r.Success? ==> r.value.position == Coords(Vec3(s.dx.parsed.value, s.dy.parsed.value, s.dz.parsed.value))
    ensures r.Success? ==> r.value.mass == s.mass.parsed.value
  {
    if AnyMissing(s) then
      Failure(MissingParameters)
    else if !AllNumbers(s) then
      Failure(InvalidNumbers)
    else
      Success(Params(Vec3(s.vx.parsed.value, s.vy.parsed.value, s.vz.parsed.value),
                     Coords(Vec3(s.dx.parsed.value, s.dy.parsed.value, s.dz.parsed.value)),
                     s.mass.parsed.value))
  }

  /** The record a finished run leaves: rebuilt from the queued object, not from the PROCESSING one. */
  function Finish(queued: JobRecord, outcome: RunOutcome): (r: JobRecord)
    ensures r.id == queued.id && r.params == queued.params
    ensures r.message == queued.message
    ensures outcome.Success? ==> r.phase == Completed(outcome.value.converge, outcome.value.logData)
    ensures outcome.Failure? ==> r.phase == Failed(outcome.error)
  {
    match outcome
    case Success(res) => queued.(phase := Completed(res.converge, res.logData))
    case Failure(msg) => queued.(phase := Failed(msg))
  }

  /** `findIndex(s => s.id === id)`: the first index holding `id`, or -1. */
  function FindIndex(q: seq<nat>, id: int): (r: int)
    ensures -1 <= r < |q|
    ensures r == -1 <==> id !in q
    ensures r >= 0 ==> q[r] == id && forall j :: 0 <= j < r ==> q[j] != id
  {
    if |q| == 0 then -1
    else if q[0] == id then 0
    else
      var r := FindIndex(q[1..], id);
      if r == -1 then -1 else r + 1
  }

  /**
   * The fields a query writes into the stored object for its status: the
   * id, the message and, for a QUEUED job, its place in the queue under
   * the `position` key, in place of the coordinates.
   */
  function Annotate(rec: JobRecord, id: nat, q: seq<nat>): (r: JobRecord)
    ensures r.phase == rec.phase && r.id == id && r.message.Some?
    ensures r.params.velocity == rec.params.velocity && r.params.mass == rec.params.mass
    ensures rec.phase.Queued? ==> r.params.position == Place(FindIndex(q, id) + 1)
    ensures !rec.phase.Queued? ==> r.params == rec.params
  {
    match rec.phase
    case Queued => rec.(id := id, message := Some("Simulation is queued"), params := rec.params.(position := Place(FindIndex(q, id) + 1)))
    case Processing => rec.(id := id, message := Some("Simulation is currently processing"))
    case Completed(_, _) => rec.(id := id, message := Some("Simulation completed successfully"))
    case Failed(_) => rec.(id := id, message := Some("Simulation failed"))
  }

  datatype SubmitReply =
    | SubmitRejected(httpStatus: nat, error: string)
    | Accepted(id: nat, status: nat, position: nat, parameters: Params)

  datatype QueryReply =
    | QueryRejected(httpStatus: nat, error: string)
    | NotFound(id: int)
    | Found(record: JobRecord)

  /** What `getSimulationQueue` reports. */
  datatype QueueView = QueueView(queue: seq<(nat, nat)>, currentProcessing: Option<nat>, isProcessing: bool, totalSimulations: nat)

  /** `main_sim` as the source has it: every job ends in ERROR with this message. */
  lemma AsWrittenEveryJobFails(rec: JobRecord)
    ensures Finish(rec, Launch(rec.params, MainSimAsWritten)).phase
         == Failed("as.heightAboveEarthSurface is not a function")
  {
  }

  /** The ids 1 .. n-1. */
  function IdRange(n: nat): (r: set<nat>)
    ensures forall k :: k in r <==> 1 <= k < n
    ensures n >= 1 ==> |r| == n - 1
  {
    if n <= 1 then {} else IdRange(n - 1) + {n - 1}
  }

  /** Every stored record carries its own key as its id. */
  ghost predicate IdsMatch(st: map<nat, JobRecord>) {
    forall k :: k in st ==> st[k].id == k
  }

  /** Every queued id has a QUEUED record, and every QUEUED record is in the queue. */
  ghost predicate QueueIsQueued(q: seq<nat>, st: map<nat, JobRecord>) {
    && (forall i :: 0 <= i < |q| ==> q[i] in st && st[q[i]].phase == Queued)
    && (forall k :: k in st && st[k].phase == Queued ==> k in q)
  }

  /** Ids enter the queue in increasing order. */
  ghost predicate Increasing(q: seq<nat>) {
    forall i, j :: 0 <= i < j < |q| ==> q[i] < q[j]
  }

  ghost predicate NoneProcessing(st: map<nat, JobRecord>) {
    forall k :: k in st ==> st[k].phase != Processing
  }

  /**
   * The queue and the status table agree: the ids handed out are exactly
   * 1 .. nextId-1, each with its record; the queue holds, in increasing id
   * order, exactly the QUEUED jobs; no job is PROCESSING.
   */
  ghost predicate Consistent(q: seq<nat>, st: map<nat, JobRecord>, nextId: nat) {
    && nextId >= 1
    && st.Keys == IdRange(nextId)
    && IdsMatch(st)
    && QueueIsQueued(q, st)
    && Increasing(q)
    && NoneProcessing(st)
  }

  lemma DequeueKeepsQueueIsQueued(q: seq<nat>, st: map<nat, JobRecord>, rec: JobRecord)
    requires QueueIsQueued(q, st) && Increasing(q) && q != [] && rec.phase != Queued
    ensures QueueIsQueued(q[1..], st[q[0] := rec])
  {
    var st' := st[q[0] := rec];
    forall i | 0 <= i < |q[1..]|
      ensures q[1..][i] in st' && st'[q[1..][i]].phase == Queued
    {
      assert q[0] < q[i + 1];
    }
    forall k | k in st' && st'[k].phase == Queued
      ensures k in q[1..]
    {
      assert k in q && k != q[0];
      var i :| 0 <= i < |q| && q[i] == k;
      assert i > 0 && q[1..][i - 1] == k;
    }
  }

  lemma IncreasingTail(q: seq<nat>)
    requires Increasing(q) && q != []
    ensures Increasing(q[1..])
  {
    forall i, j | 0 <= i < j < |q| - 1
      ensures q[1..][i] < q[1..][j]
    {
      assert q[1..][i] == q[i + 1] && q[1..][j] == q[j + 1];
    }
  }

  lemma IncreasingSnoc(q: seq<nat>, n: nat)
    requires Increasing(q) && forall i :: 0 <= i < |q| ==> q[i] < n
    ensures Increasing(q + [n])
  {
    var q' := q + [n];
    forall i, j | 0 <= i < j < |q'|
      ensures q'[i] < q'[j]
    {
      assert q'[i] == q[i];
      if j < |q| {
        assert q'[j] == q[j];
      }
    }
  }

  /** Storing a record under its own id keeps every record under its own id. */
  lemma StoreKeepsIdsMatch(st: map<nat, JobRecord>, rec: JobRecord)
    requires IdsMatch(st)
    ensures IdsMatch(st[rec.id := rec])
  {
  }

  lemma StoreKeepsNoneProcessing(st: map<nat, JobRecord>, k: nat, rec: JobRecord)
    requires NoneProcessing(st) && rec.phase != Processing
    ensures NoneProcessing(st[k := rec])
  {
  }

  lemma NextKeys(st: map<nat, JobRecord>, nextId: nat, rec: JobRecord)
    requires st.Keys == IdRange(nextId) && nextId >= 1
    ensures st[nextId := rec].Keys == IdRange(nextId + 1)
  {
    assert st[nextId := rec].Keys == st.Keys + {nextId};
  }

  /** Taking the head off the queue and storing its finished record keeps the two in agreement. */
  lemma DequeueKeepsConsistent(q: seq<nat>, st: map<nat, JobRecord>, nextId: nat, outcome: RunOutcome)
    requires Consistent(q, st, nextId) && q != []
    ensures Consistent(q[1..], st[q[0] := Finish(st[q[0]], outcome)], nextId)
  {
    var rec := Finish(st[q[0]], outcome);
    DequeueKeepsQueueIsQueued(q, st, rec);
    IncreasingTail(q);
    StoreKeepsIdsMatch(st, rec);
    StoreKeepsNoneProcessing(st, q[0], rec);
    assert st[q[0] := rec].Keys == st.Keys;
  }

  lemma EnqueueKeepsQueueIsQueued(q: seq<nat>, st: map<nat, JobRecord>, rec: JobRecord)
    requires QueueIsQueued(q, st) && rec.id !in st && rec.phase == Queued
    ensures QueueIsQueued(q + [rec.id], st[rec.id := rec])
  {
    var q' := q + [rec.id];
    forall k | k in st[rec.id := rec] && st[rec.id := rec][k].phase == Queued
      ensures k in q'
    {
      if k != rec.id {
        assert k in q;
      } else {
        assert q'[|q|] == k;
      }
    }
  }

  /** Appending a fresh QUEUED job with the next id keeps the two in agreement. */
  lemma EnqueueKeepsConsistent(q: seq<nat>, st: map<nat, JobRecord>, nextId: nat, p: Params)
    requires Consistent(q, st, nextId)
    ensures Consistent(q + [nextId], st[nextId := JobRecord(nextId, p, Queued, None)], nextId + 1)
  {
    var rec := JobRecord(nextId, p, Queued, None);
    EnqueueKeepsQueueIsQueued(q, st, rec);
    NextKeys(st, nextId, rec);
    StoreKeepsIdsMatch(st, rec);
    StoreKeepsNoneProcessing(st, nextId, rec);
    assert forall i :: 0 <= i < |q| ==> q[i] < nextId by {
      forall i | 0 <= i < |q|
        ensures q[i] < nextId
      {
        assert q[i] in st;
      }
    }
    IncreasingSnoc(q, nextId);
  }

  /** A query's annotation of one record keeps the two in agreement. */
  lemma AnnotateKeepsConsistent(q: seq<nat>, st: map<nat, JobRecord>, nextId: nat, id: nat)
    requires Consistent(q, st, nextId) && id in st
    ensures Consistent(q, st[id := Annotate(st[id], id, q)], nextId)
    ensures st[id := Annotate(st[id], id, q)].Keys == st.Keys
    ensures forall k :: k in st ==> st[id := Annotate(st[id], id, q)][k].phase == st[k].phase
  {
    var st' := st[id := Annotate(st[id], id, q)];
    assert st'.Keys == st.Keys;
    assert QueueIsQueued(q, st');
  }

  /** Moving the head of the pending part to the end of the done part keeps their concatenation. */
  lemma MoveHead(done: seq<nat>, pending: seq<nat>)
    requires pending != []
    ensures done + [pending[0]] + pending[1..] == done + pending
  {
    assert [pending[0]] + pending[1..] == pending;
  }

  /** A second store under the same key replaces the first. */
  lemma UpdateTwice<K, V>(m: map<K, V>, k: K, a: V, b: V)
    ensures m[k := a][k := b] == m[k := b]
  {
    assert m[k := a][k := b].Keys == m[k := b].Keys;
  }

  /** The table after the jobs of `q` have run, one after the other, each from its stored record. */
  function RunAll(q: seq<nat>, st: map<nat, JobRecord>, run: Runner): map<nat, JobRecord>
    requires forall i :: 0 <= i < |q| ==> q[i] in st
    decreases |q|
  {
    if q == [] then st
    else RunAll(q[1..], st[q[0] := Finish(st[q[0]], Launch(st[q[0]].params, run))], run)
  }

  /**
   * Running a queue of distinct stored ids finishes each of them from its
   * stored record and leaves every other record, and the set of ids, as it was.
   */
  lemma {:induction false} RunAllEffect(q: seq<nat>, st: map<nat, JobRecord>, run: Runner)
    requires forall i :: 0 <= i < |q| ==> q[i] in st
    requires Increasing(q)
    ensures RunAll(q, st, run).Keys == st.Keys
    ensures forall k :: k in st && k !in q ==> RunAll(q, st, run)[k] == st[k]
    ensures forall k :: k in q ==> RunAll(q, st, run)[k] == Finish(st[k], Launch(st[k].params, run))
    decreases |q|
  {
    if q != [] {
      var st' := st[q[0] := Finish(st[q[0]], Launch(st[q[0]].params, run))];
      RunAllEffect(q[1..], st', run);
      assert q == [q[0]] + q[1..];
      forall k | k in q[1..]
        ensures k != q[0]
      {
        var i :| 0 <= i < |q[1..]| && q[1..][i] == k;
        assert q[0] < q[i + 1];
      }
    }
  }

  /**
   * The reply of `simulationResults` for a table and queue: a missing or
   * empty id and one `parseInt` reads as NaN are rejected, an id with no
   * record is not found, and a known one comes back annotated for its
   * status, keeping its id and status.
   */
  function Respond(st: map<nat, JobRecord>, q: seq<nat>, idParam: Option<string>): (reply: QueryReply)
    ensures idParam == None || idParam == Some("") ==>
      reply == QueryRejected(400, "Missing required parameter: id")
    ensures idParam != None && idParam != Some("") && ParseInt(idParam.value) == None ==>
      reply == QueryRejected(400, "ID must be a valid number")
    ensures idParam != None && idParam != Some("") && ParseInt(idParam.value).Some? ==>
      var id := ParseInt(idParam.value).value;
      if id >= 0 && id in st then
        && reply == Found(Annotate(st[id], id, q))
        && reply.record.id == id && reply.record.phase == st[id].phase
      else
        reply == NotFound(id)
  {
    if idParam == None || idParam == Some("") then QueryRejected(400, "Missing required parameter: id")
    else
      match ParseInt(idParam.value)
      case None => QueryRejected(400, "ID must be a valid number")
      case Some(id) =>
        if id >= 0 && id in st then Found(Annotate(st[id], id, q)) else NotFound(id)
  }

  class Scheduler {
    var queue: seq<nat>
    var status: map<nat, JobRecord>
    var currentId: Option<nat>
    var isProcessing: bool
    var nextId: nat

    /**
     * Between handlers the queue and the table agree and the worker is
     * idle: a dispatch runs to its end before the handler that started it
     * returns.
     */
    ghost predicate Valid()
      reads this
    {
      Consistent(queue, status, nextId) && !isProcessing && currentId == None
    }

    constructor ()
      ensures Valid() && queue == [] && status == map[] && nextId == 1
    {
      queue := [];
      status := map[];
      currentId := None;
      isProcessing := false;
      nextId := 1;
    }

    /**
     * `processNextSimulation`: nothing when a job is running or the queue
     * is empty; otherwise the head leaves the queue, is PROCESSING while it
     * runs, and ends COMPLETED or ERROR; the worker ends idle.
     */
    method DispatchOne(run: Runner) returns (started: Option<nat>)
      requires Valid()
      modifies this
      ensures Valid() && nextId == old(nextId)
      ensures old(queue) == [] ==> started == None && queue == old(queue) && status == old(status)
      ensures old(queue) != [] ==>
        var id := old(queue)[0];
        && started == Some(id)
        && queue == old(queue)[1..]
        && status == old(status)[id := Finish(old(status)[id], Launch(old(status)[id].params, run))]
    {
      if isProcessing || |queue| == 0 {
        started := None;
        return;
      }
      ghost var q0, st0 := queue, status;
      isProcessing := true;
      var id := queue[0];
      queue := queue[1..];
      currentId := Some(id);
      var simulation := status[id];
      status := status[id := simulation.(phase := Processing)];
      var outcome := Launch(simulation.params, run);
      status := status[id := Finish(simulation, outcome)];
      UpdateTwice(st0, id, simulation.(phase := Processing), Finish(simulation, outcome));
      DequeueKeepsConsistent(q0, st0, nextId, outcome);
      assert Consistent(queue, status, nextId);
      isProcessing := false;
      currentId := None;
      started := Some(id);
    }

    /**
     * The re-dispatch loop: jobs are run one at a time in queue order until
     * the queue is empty. `finished` lists them in the order they ran.
     */
    method Drain(run: Runner) returns (finished: seq<nat>)
      requires Valid()
      modifies this
      ensures Valid() && queue == [] && nextId == old(nextId)
      ensures finished == old(queue)
      ensures status == RunAll(old(queue), old(status), run)
      ensures status.Keys == old(status).Keys
      ensures forall k :: k in status && k !in old(queue) ==> status[k] == old(status)[k]
      ensures forall k :: k in old(queue) ==> status[k] == Finish(old(status)[k], Launch(old(status)[k].params, run))
    {
      ghost var q0, st0 := queue, status;
      finished := [];
      while queue != []
        invariant Valid() && nextId == old(nextId)
        invariant finished + queue == q0
        invariant RunAll(queue, status, run) == RunAll(q0, st0, run)
        decreases |queue|
      {
        ghost var q := queue;
        var started := DispatchOne(run);
        finished := finished + [started.value];
        MoveHead(finished[..|finished| - 1], q);
      }
      RunAllEffect(q0, st0, run);
    }

    /**
     * `runSimulation`: an invalid body changes nothing; a valid one gets
     * the next id, is appended as QUEUED and the dispatcher runs at once.
     * Since nothing is ever left running, the dispatch takes the queue head
     * and runs it before the reply is built: the reply says QUEUED with the
     * queue length after that dispatch.
     */
    method Submit(body: Submission, run: Runner) returns (reply: SubmitReply)
      requires Valid()
      modifies this
      ensures Valid()
      ensures old(queue) == [] ==> queue == []
      ensures Validate(body).Failure? ==>
        && reply == SubmitRejected(400, Validate(body).error)
        && queue == old(queue) && status == old(status) && nextId == old(nextId)
      ensures Validate(body).Success? ==>
        var id := old(nextId);
        var queuedRec := JobRecord(id, Validate(body).value, Queued, None);
        var pushed := old(status)[id := queuedRec];
        var head := (old(queue) + [id])[0];
        && reply == Accepted(id, StatusCode(Queued), |queue|, Validate(body).value)
        && nextId == old(nextId) + 1
        && queue == (old(queue) + [id])[1..]
        && status == pushed[head := Finish(pushed[head], Launch(pushed[head].params, run))]
    {
      var v := Validate(body);
      if v.Failure? {
        reply := SubmitRejected(400, v.error);
        return;
      }
      var id := Push(v.value);
      var _ := DispatchOne(run);
      reply := Accepted(id, StatusCode(Queued), |queue|, v.value);
    }

    /** The enqueue step of `runSimulation`: the next id, stored as QUEUED and appended to the queue. */
    method Push(p: Params) returns (id: nat)
      requires Valid()
      modifies this
      ensures Valid() && id == old(nextId) && nextId == old(nextId) + 1
      ensures queue == old(queue) + [id]
      ensures status == old(status)[id := JobRecord(id, p, Queued, None)]
    {
      id := nextId;
      EnqueueKeepsConsistent(queue, status, id, p);
      nextId := nextId + 1;
      queue := queue + [id];
      status := status[id := JobRecord(id, p, Queued, None)];
    }

    /**
     * `simulationResults`: the reply is `Respond`'s, and a found job's
     * annotated object is what the table holds afterwards, since the reply
     * IS the stored object. No status changes.
     */
    method Query(idParam: Option<string>) returns (reply: QueryReply)
      requires Valid()
      modifies this
      ensures Valid() && queue == old(queue) && nextId == old(nextId)
      ensures status.Keys == old(status).Keys
      ensures forall k :: k in status ==> status[k].phase == old(status)[k].phase
      ensures reply == Respond(old(status), queue, idParam)
      ensures reply.Found? ==> status == old(status)[reply.record.id := reply.record]
      ensures !reply.Found? ==> status == old(status)
    {
      if idParam == None || idParam == Some("") {
        return QueryRejected(400, "Missing required parameter: id");
      }
      var parsed := ParseInt(idParam.value);
      if parsed == None {
        return QueryRejected(400, "ID must be a valid number");
      }
      var id := parsed.value;
      if id < 0 || id !in status {
        return NotFound(id);
      }
      var response := Annotate(status[id], id, queue);
      AnnotateKeepsConsistent(queue, status, nextId, id);
      status := status[id := response];
      reply := Found(response);
    }

    /** `getSimulationQueue`: the queued jobs with their status codes, the worker state and the job count. */
    function View(): (v: QueueView)
      reads this
      requires Valid()
      ensures |v.queue| == |queue|
      ensures forall i :: 0 <= i < |queue| ==> v.queue[i] == (queue[i], 0)
      ensures !v.isProcessing && v.currentProcessing == None
      ensures v.totalSimulations == nextId - 1
    {
      var q := queue;
      var st := status;
      QueueView(seq(|q|, i requires 0 <= i < |q| => (q[i], StatusCode(st[q[i]].phase))),
                currentId, isProcessing, |st|)
    }
  }

  /**
   * A queried QUEUED job is reported at its 1-based place in the queue.
   */
  lemma QueuedPosition(q: seq<nat>, rec: JobRecord, id: nat)
    requires rec.phase == Queued && id in q
    ensures var r := Annotate(rec, id, q);
      && r.params.position.Place? && 1 <= r.params.position.place <= |q|
      && q[r.params.position.place - 1] == id
      && forall j :: 0 <= j < r.params.position.place - 1 ==> q[j] != id
  {
  }

  /**
   * Once a query has reported a QUEUED job's place, the job's coordinates
   * are gone: its dispatch hands `main_sim` a number for the position, so
   * the body starts at the origin whatever was submitted, while the
   * velocity and mass are kept.
   */
  lemma QueryMovesQueuedJobToOrigin(rec: JobRecord, id: nat, q: seq<nat>, run: Runner)
    requires rec.phase == Queued
    ensures var r := Annotate(rec, id, q);
      Launch(r.params, run) == run(rec.params.velocity, Zero, rec.params.mass)
  {
  }

  /** A job no query has touched runs from the coordinates it was submitted with. */
  lemma SubmittedJobRunsFromItsCoordinates(p: Params, v: Vec3, run: Runner)
    requires p.position == Coords(v)
    ensures Launch(p, run) == run(p.velocity, v, p.mass)
  {
  }
}
