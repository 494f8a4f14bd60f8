/** The SQL store's idempotent create (internal/store/sql_ops.go) as transactions whose statements
    interleave: read committed, and an insert on a key waits for a rival that has inserted it and
    not finished. Compared with serial runs of the memory store's create and abandon. */
module SqlCreate {
  import opened Seqs
  import opened MemoryStore

  datatype Request = Request(key: string, hash: string, sub: Submission)

  /** The next thing a transaction does. Own writes: the submission row in `Inserted`, `Lost` and
      `Losing`, and the key row as well in `Won`. */
  datatype Stage =
    | Begun
    | Found(id: string)
    | Absent
    | Inserted
    | Won
    | Lost
    | Losing(id: string)
    | Dropped(id: string)
    | Answering(sub: Submission)
    | Returned(answer: Answer)
    | Errored

  datatype Tx = Tx(req: Request, stage: Stage)

  /** The next thing an abandon does: read the status, delete the row, delete the key row, commit. Its
      deletes take effect at the commit; `bound` records whether a key row was deleted. */
  datatype DropStage =
    | Asked
    | Accepting
    | RowDeleted
    | KeyDeleted(bound: bool)
    | DropDone

  datatype Drop = Drop(id: string, key: string, stage: DropStage)

  /** Completed operations, in the order in which they took effect. */
  datatype Op = Create(req: Request, answer: Answer) | Abandon(id: string, key: string, dropped: bool)

  datatype State = State(db: Store, txs: seq<Tx>, drops: seq<Drop>, used: set<string>, log: seq<Op>)

  datatype Event =
    | Begin(req: Request)
    | SelectKey(t: nat)
    | SelectBody(t: nat)
    | InsertSubmission(t: nat)
    | InsertKey(t: nat)
    | Reread(t: nat)
    | DeleteOwn(t: nat)
    | SelectWinner(t: nat)
    | Finish(t: nat)
    | Fail(t: nat)
    | AskDrop(id: string, key: string)
    | CheckDrop(d: nat)
    | DeleteRow(d: nat)
    | DeleteKeyRow(d: nat)
    | CommitDrop(d: nat)
    | FailDrop(d: nat)

  predicate OwnsRow(g: Stage) {
    g.Inserted? || g.Won? || g.Lost? || g.Losing?
  }

  /** What a statement of the transaction reads: committed rows and its own row. */
  function View(db: Store, tx: Tx): (v: Store) {
    if OwnsRow(tx.stage) then DoPut(db, tx.req.sub) else db
  }

  predicate Ended(g: Stage) {
    g.Returned? || g.Errored?
  }

  predicate At(s: State, t: nat, g: Stage) {
    t < |s.txs| && s.txs[t].stage == g
  }

  /** Another transaction has inserted the key and not finished. */
  predicate KeyLocked(s: State, t: nat)
    requires t < |s.txs|
  {
    exists o :: 0 <= o < |s.txs| && o != t && s.txs[o].stage.Won? && s.txs[o].req.key == s.txs[t].req.key
  }

  /** The abandon has deleted a row and not finished. */
  predicate HoldsRow(g: DropStage) {
    g.RowDeleted? || g.KeyDeleted?
  }

  /** Another abandon has deleted the row and not finished. */
  predicate RowLocked(s: State, d: nat)
    requires d < |s.drops|
  {
    exists o :: 0 <= o < |s.drops| && o != d && HoldsRow(s.drops[o].stage) && s.drops[o].id == s.drops[d].id
  }

  predicate DropAt(s: State, d: nat, g: DropStage) {
    d < |s.drops| && s.drops[d].stage == g
  }

  /** Every key bound to the submission is the given one. */
  ghost predicate OnlyKey(db: Store, id: string, key: string) {
    forall k :: k in db.idempotency && db.idempotency[k] == id ==> k == key
  }

  /** Ids are fresh. Creates and abandons are not in flight together, and an abandon names the key that
      its submission was created with. */
  ghost predicate Enabled(s: State, e: Event) {
    match e
    case Begin(req) => req.sub.id !in s.used && (forall d :: 0 <= d < |s.drops| ==> s.drops[d].stage.DropDone?)
    case SelectKey(t) => At(s, t, Begun) && s.txs[t].req.key != ""
    case SelectBody(t) => t < |s.txs| && s.txs[t].stage.Found?
    case InsertSubmission(t) => At(s, t, Absent) || (At(s, t, Begun) && s.txs[t].req.key == "")
    case InsertKey(t) => At(s, t, Inserted) && s.txs[t].req.key != "" && !KeyLocked(s, t)
    case Reread(t) => At(s, t, Lost)
    case DeleteOwn(t) => t < |s.txs| && s.txs[t].stage.Losing?
    case SelectWinner(t) => t < |s.txs| && s.txs[t].stage.Dropped?
    case Finish(t) => t < |s.txs| && (s.txs[t].stage.Won? || s.txs[t].stage.Answering? || (s.txs[t].stage.Inserted? && s.txs[t].req.key == ""))
    case Fail(t) => t < |s.txs| && !Ended(s.txs[t].stage)
    case AskDrop(id, key) => (forall t :: 0 <= t < |s.txs| ==> Ended(s.txs[t].stage)) && OnlyKey(s.db, id, key)
    case CheckDrop(d) => DropAt(s, d, Asked)
    case DeleteRow(d) => DropAt(s, d, Accepting) && !RowLocked(s, d)
    case DeleteKeyRow(d) => DropAt(s, d, RowDeleted)
    case CommitDrop(d) => d < |s.drops| && s.drops[d].stage.KeyDeleted?
    case FailDrop(d) => d < |s.drops| && !s.drops[d].stage.DropDone?
  }

  function SetStage(s: State, t: nat, g: Stage): (r: State)
    requires t < |s.txs|
  {
    s.(txs := s.txs[t := s.txs[t].(stage := g)])
  }

  /** The transaction ends with an answer; a rollback has no effect on committed rows. */
  function Answered(s: State, t: nat, a: Answer): (r: State)
    requires t < |s.txs|
  {
    SetStage(s, t, Returned(a)).(log := s.log + [Create(s.txs[t].req, a)])
  }

  function StepSelectKey(s: State, t: nat): (r: State)
    requires t < |s.txs|
  {
    var req, v := s.txs[t].req, View(s.db, s.txs[t]);
    if req.key !in v.idempotency then SetStage(s, t, Absent)
    else if Clash(HashOf(v, req.key), req.hash) then Answered(s, t, Conflict)
    else SetStage(s, t, Found(v.idempotency[req.key]))
  }

  function StepSelectBody(s: State, t: nat): (r: State)
    requires t < |s.txs| && (s.txs[t].stage.Found? || s.txs[t].stage.Dropped?)
  {
    var v, id := View(s.db, s.txs[t]), s.txs[t].stage.id;
    SetStage(s, t, if id in v.submissions then Answering(v.submissions[id]) else Errored)
  }

  function StepReread(s: State, t: nat): (r: State)
    requires t < |s.txs|
  {
    var req, v := s.txs[t].req, View(s.db, s.txs[t]);
    if req.key !in v.idempotency then SetStage(s, t, Errored)
    else if Clash(HashOf(v, req.key), req.hash) then Answered(s, t, Conflict)
    else SetStage(s, t, Losing(v.idempotency[req.key]))
  }

  /** Commit makes the transaction's own rows visible. */
  function StepFinish(s: State, t: nat): (r: State)
    requires t < |s.txs|
  {
    var req := s.txs[t].req;
    match s.txs[t].stage
    case Answering(sub) => Answered(s, t, Replayed(sub))
    case Won =>
      Answered(s, t, Created(req.sub)).(
      db := DoPut(s.db, req.sub).(
      idempotency := s.db.idempotency[req.key := req.sub.id], idemHash := s.db.idemHash[req.key := req.hash]))
    case _ => Answered(s, t, Created(req.sub)).(db := DoPut(s.db, req.sub))
  }

  function SetDrop(s: State, d: nat, g: DropStage): (r: State)
    requires d < |s.drops|
  {
    s.(drops := s.drops[d := s.drops[d].(stage := g)])
  }

  /** The abandon ends with an answer. */
  function DropAnswered(s: State, d: nat, dropped: bool): (r: State)
    requires d < |s.drops|
  {
    SetDrop(s, d, DropDone).(log := s.log + [Abandon(s.drops[d].id, s.drops[d].key, dropped)])
  }

  function StepCheckDrop(s: State, d: nat): (r: State)
    requires d < |s.drops|
  {
    var id := s.drops[d].id;
    if id in s.db.submissions && s.db.submissions[id].status == Accepted then SetDrop(s, d, Accepting)
    else DropAnswered(s, d, false)
  }

  /** Nothing deleted means that a rival was faster. */
  function StepDeleteRow(s: State, d: nat): (r: State)
    requires d < |s.drops|
  {
    if s.drops[d].id in s.db.submissions then SetDrop(s, d, RowDeleted) else DropAnswered(s, d, false)
  }

  function StepDeleteKeyRow(s: State, d: nat): (r: State)
    requires d < |s.drops|
  {
    var x := s.drops[d];
    SetDrop(s, d, KeyDeleted(x.key != "" && x.key in s.db.idempotency && s.db.idempotency[x.key] == x.id))
  }

  function StepCommitDrop(s: State, d: nat): (r: State)
    requires d < |s.drops| && s.drops[d].stage.KeyDeleted?
  {
    var x := s.drops[d];
    var db := s.db.(submissions := s.db.submissions - {x.id});
    DropAnswered(s, d, true).(
    db := if x.stage.bound then db.(idempotency := db.idempotency - {x.key}, idemHash := db.idemHash - {x.key}) else db)
  }

  ghost function Apply(s: State, e: Event): (r: State)
    requires Enabled(s, e)
  {
    match e
    case Begin(req) => s.(txs := s.txs + [Tx(req, Begun)], used := s.used + {req.sub.id})
    case SelectKey(t) => StepSelectKey(s, t)
    case SelectBody(t) => StepSelectBody(s, t)
    case InsertSubmission(t) => SetStage(s, t, Inserted)
    case InsertKey(t) => SetStage(s, t, if s.txs[t].req.key in s.db.idempotency then Lost else Won)
    case Reread(t) => StepReread(s, t)
    case DeleteOwn(t) => SetStage(s, t, Dropped(s.txs[t].stage.id))
    case SelectWinner(t) => StepSelectBody(s, t)
    case Finish(t) => StepFinish(s, t)
    case Fail(t) => SetStage(s, t, Errored)
    case AskDrop(id, key) => s.(drops := s.drops + [Drop(id, key, Asked)])
    case CheckDrop(d) => StepCheckDrop(s, d)
    case DeleteRow(d) => StepDeleteRow(s, d)
    case DeleteKeyRow(d) => StepDeleteKeyRow(s, d)
    case CommitDrop(d) => StepCommitDrop(s, d)
    case FailDrop(d) => SetDrop(s, d, DropDone)
  }

  ghost function After(s: State, events: seq<Event>): (r: Option<State>) {
    if events == [] then Some(s)
    else
      var h, e := After(s, events[..|events| - 1]), events[|events| - 1];
      if h.Some? && Enabled(h.value, e) then Some(Apply(h.value, e)) else None
  }

  // ---- serial runs of the memory store ----

  /** The memory store performs one operation: its new value, and the operation with its answer. */
  function Perform(st: Store, op: Op): (r: (Store, Op)) {
    match op
    case Create(req, _) =>
      var (st', a) := DoPutIdempotent(st, req.key, req.hash, req.sub);
      (st', Create(req, a))
    case Abandon(id, key, _) =>
      var (st', dropped) := DoAbandon(st, id, key);
      (st', Abandon(id, key, dropped))
  }

  /** The value after performing the operations one after the other. */
  function Serial(st: Store, log: seq<Op>): (r: Store) {
    if log == [] then st else Perform(Serial(st, log[..|log| - 1]), log[|log| - 1]).0
  }

  /** Every operation got the answer that the serial run gives. */
  ghost predicate SerialAnswers(st: Store, log: seq<Op>) {
    forall i :: 0 <= i < |log| ==> Perform(Serial(st, log[..i]), log[i]).1 == log[i]
  }

  lemma SerialSnoc(st: Store, log: seq<Op>, op: Op)
    requires SerialAnswers(st, log) && Perform(Serial(st, log), op).1 == op
    ensures SerialAnswers(st, log + [op]) && Serial(st, log + [op]) == Perform(Serial(st, log), op).0
  {
    hide Perform, Serial;
    var longer := log + [op];
    assert longer[..|log|] == log;
    forall i | 0 <= i < |longer| ensures Perform(Serial(st, longer[..i]), longer[i]).1 == longer[i] {
      if i < |log| { assert longer[..i] == log[..i]; }
    }
    SerialUnfold(st, log, op);
  }

  lemma SerialUnfold(st: Store, log: seq<Op>, op: Op)
    ensures Serial(st, log + [op]) == Perform(Serial(st, log), op).0
  {
    hide Perform;
    assert (log + [op])[..|log|] == log;
  }

  // ---- the invariant ----

  ghost predicate TxOk(db: Store, tx: Tx) {
    var req := tx.req;
    match tx.stage
    case Found(id) => req.key in db.idempotency && db.idempotency[req.key] == id && !Clash(HashOf(db, req.key), req.hash) && req.key != ""
    case Won => req.key !in db.idempotency && req.key != ""
    case Lost => req.key in db.idempotency && req.key != ""
    case Losing(id) => req.key in db.idempotency && db.idempotency[req.key] == id && !Clash(HashOf(db, req.key), req.hash) && req.key != ""
    case Dropped(id) => req.key in db.idempotency && db.idempotency[req.key] == id && !Clash(HashOf(db, req.key), req.hash) && req.key != ""
    case Answering(sub) =>
      && req.key in db.idempotency && req.key != "" && !Clash(HashOf(db, req.key), req.hash)
      && db.idempotency[req.key] in db.submissions && db.submissions[db.idempotency[req.key]] == sub
    case _ => true
  }

  ghost predicate TxsOk(s: State) {
    && (forall t :: 0 <= t < |s.txs| ==> TxOk(s.db, s.txs[t]))
    && (forall t, o :: 0 <= t < o < |s.txs| && s.txs[t].stage.Won? && s.txs[o].stage.Won? ==> s.txs[t].req.key != s.txs[o].req.key)
  }

  predicate IsCreator(g: Stage) {
    g.Returned? && g.answer.Created?
  }

  /** Ids handed out cover what is stored, and only creators have a committed row. */
  ghost predicate IdsOk(s: State) {
    && (forall id :: id in s.db.submissions ==> id in s.used)
    && (forall t :: 0 <= t < |s.txs| ==> s.txs[t].req.sub.id in s.used)
    && (forall t :: 0 <= t < |s.txs| && !IsCreator(s.txs[t].stage) ==> s.txs[t].req.sub.id !in s.db.submissions)
    && (forall t, o :: 0 <= t < o < |s.txs| ==> s.txs[t].req.sub.id != s.txs[o].req.sub.id)
  }

  ghost predicate Inv(s: State, db0: Store) {
    && NoDangling(s.db) && "" !in s.db.idempotency && TxsOk(s) && IdsOk(s)
    && SerialAnswers(db0, s.log) && Serial(db0, s.log) == s.db
  }

  /** A serial step explains the new log and the new committed rows. */
  lemma LogStep(s: State, r: State, db0: Store, op: Op)
    requires SerialAnswers(db0, s.log) && Serial(db0, s.log) == s.db
    requires Perform(s.db, op) == (r.db, op) && r.log == s.log + [op]
    ensures SerialAnswers(db0, r.log) && Serial(db0, r.log) == r.db
  {
    hide Perform, Serial, SerialAnswers;
    SerialSnoc(db0, s.log, op);
  }

  /** A transaction moves without touching committed rows. */
  lemma StageMoves(s: State, t: nat, g: Stage)
    requires TxsOk(s) && IdsOk(s) && t < |s.txs| && !IsCreator(s.txs[t].stage)
    requires TxOk(s.db, s.txs[t].(stage := g)) && (g.Won? ==> !KeyLocked(s, t))
    ensures TxsOk(SetStage(s, t, g)) && IdsOk(SetStage(s, t, g))
  {
    hide TxOk;
    var r := SetStage(s, t, g);
    forall a, b | 0 <= a < b < |r.txs| && r.txs[a].stage.Won? && r.txs[b].stage.Won?
      ensures r.txs[a].req.key != r.txs[b].req.key
    {
      if a != t && b != t { assert s.txs[a].stage.Won? && s.txs[b].stage.Won?; }
    }
  }

  /** A quiet move keeps everything, also the serial explanation. */
  lemma QuietMove(s: State, t: nat, g: Stage, db0: Store)
    requires Inv(s, db0) && t < |s.txs| && !Ended(s.txs[t].stage)
    requires TxOk(s.db, s.txs[t].(stage := g)) && (g.Won? ==> !KeyLocked(s, t))
    ensures Inv(SetStage(s, t, g), db0)
  {
    hide TxsOk, IdsOk, TxOk, SerialAnswers, Serial, KeyLocked;
    StageMoves(s, t, g);
  }

  /** A replay or conflict that the memory store would also answer. */
  lemma AnswerStep(s: State, t: nat, a: Answer, db0: Store)
    requires Inv(s, db0) && t < |s.txs| && !Ended(s.txs[t].stage)
    requires DoPutIdempotent(s.db, s.txs[t].req.key, s.txs[t].req.hash, s.txs[t].req.sub) == (s.db, a)
    ensures Inv(Answered(s, t, a), db0)
  {
    hide TxsOk, IdsOk, SerialAnswers, Serial, DoPutIdempotent;
    StageMoves(s, t, Returned(a));
    LogStep(s, Answered(s, t, a), db0, Create(s.txs[t].req, a));
    TxsOkSame(SetStage(s, t, Returned(a)), Answered(s, t, a));
  }

  lemma TxsOkSame(s: State, r: State)
    requires TxsOk(s) && IdsOk(s) && r.txs == s.txs && r.db == s.db && r.used == s.used
    ensures TxsOk(r) && IdsOk(r)
  {
  }

  // ---- steps ----

  lemma ReadSteps(s: State, e: Event, db0: Store)
    requires Inv(s, db0) && Enabled(s, e) && (e.SelectKey? || e.Reread?)
    ensures Inv(Apply(s, e), db0)
  {
    hide TxsOk, IdsOk, SerialAnswers, Serial;
    var t, req, db := e.t, s.txs[e.t].req, s.db;
    KnownTx(s, t);
    assert View(db, s.txs[t]).idempotency == db.idempotency && View(db, s.txs[t]).idemHash == db.idemHash;
    if req.key in db.idempotency && Clash(HashOf(db, req.key), req.hash) {
      AnswerStep(s, t, Conflict, db0);
    } else {
      QuietMove(s, t, if req.key !in db.idempotency then (if e.SelectKey? then Absent else Errored)
                else if e.SelectKey? then Found(db.idempotency[req.key]) else Losing(db.idempotency[req.key]), db0);
    }
  }

  lemma KnownTx(s: State, t: nat)
    requires TxsOk(s) && t < |s.txs|
    ensures TxOk(s.db, s.txs[t])
  {
  }

  lemma BodySteps(s: State, e: Event, db0: Store)
    requires Inv(s, db0) && Enabled(s, e) && (e.SelectBody? || e.SelectWinner?)
    ensures Inv(Apply(s, e), db0)
  {
    hide TxsOk, IdsOk, SerialAnswers, Serial;
    KnownTx(s, e.t);
    QuietMove(s, e.t, Answering(s.db.submissions[s.txs[e.t].stage.id]), db0);
  }

  lemma WriteSteps(s: State, e: Event, db0: Store)
    requires Inv(s, db0) && Enabled(s, e) && (e.InsertSubmission? || e.InsertKey? || e.DeleteOwn? || e.Fail?)
    ensures Inv(Apply(s, e), db0)
  {
    hide TxsOk, IdsOk, SerialAnswers, Serial, KeyLocked, Inv;
    InvParts(s, db0);
    KnownTx(s, e.t);
    QuietMove(s, e.t, Apply(s, e).txs[e.t].stage, db0);
  }

  lemma InvParts(s: State, db0: Store)
    requires Inv(s, db0)
    ensures TxsOk(s)
  {
  }

  /** The rows of a creator become visible. */
  lemma RowsAppear(s: State, t: nat)
    requires TxsOk(s) && IdsOk(s) && NoDangling(s.db) && "" !in s.db.idempotency && t < |s.txs|
    requires s.txs[t].stage.Won? || (s.txs[t].stage.Inserted? && s.txs[t].req.key == "")
    ensures var r := StepFinish(s, t);
            && TxsOk(r) && IdsOk(r) && NoDangling(r.db) && "" !in r.db.idempotency
            && Perform(s.db, Create(s.txs[t].req, Created(s.txs[t].req.sub))) == (r.db, Create(s.txs[t].req, Created(s.txs[t].req.sub)))
  {
    hide View, KeyLocked;
    var r, req := StepFinish(s, t), s.txs[t].req;
    assert TxOk(s.db, s.txs[t]);
    forall o | 0 <= o < |r.txs| ensures TxOk(r.db, r.txs[o]) {
      if o != t { OtherTxOk(s.db, r.db, s.txs[o], req); }
    }
  }

  lemma OtherTxOk(db: Store, db': Store, tx: Tx, req: Request)
    requires TxOk(db, tx) && req.sub.id !in db.submissions && db'.submissions == db.submissions[req.sub.id := req.sub]
    requires (tx.stage.Won? && req.key != "") ==> tx.req.key != req.key
    requires || (req.key == "" && db'.idempotency == db.idempotency && db'.idemHash == db.idemHash)
             || (&& req.key !in db.idempotency && db'.idempotency == db.idempotency[req.key := req.sub.id]
                 && db'.idemHash == db.idemHash[req.key := req.hash])
    ensures TxOk(db', tx)
  {
  }

  lemma FinishStep(s: State, t: nat, db0: Store)
    requires Inv(s, db0) && Enabled(s, Finish(t))
    ensures Inv(StepFinish(s, t), db0)
  {
    hide TxsOk, IdsOk, SerialAnswers, Serial, KeyLocked, View, NoDangling;
    if s.txs[t].stage.Answering? {
      KnownTx(s, t);
      AnswerStep(s, t, Replayed(s.txs[t].stage.sub), db0);
    } else {
      RowsAppear(s, t);
      LogStep(s, StepFinish(s, t), db0, Create(s.txs[t].req, Created(s.txs[t].req.sub)));
    }
  }

  // ---- abandons ----

  ghost predicate DropOk(db: Store, x: Drop) {
    && (!x.stage.DropDone? ==> OnlyKey(db, x.id, x.key))
    && (x.stage.Accepting? && x.id in db.submissions ==> db.submissions[x.id].status == Accepted)
    && (HoldsRow(x.stage) ==> x.id in db.submissions && db.submissions[x.id].status == Accepted)
    && (x.stage.KeyDeleted? ==> (x.stage.bound <==> x.key != "" && x.key in db.idempotency && db.idempotency[x.key] == x.id))
  }

  /** Abandons in flight are right about the committed rows, hold different rows, and exclude creates. */
  ghost predicate DropsOk(s: State) {
    && (forall d :: 0 <= d < |s.drops| ==> DropOk(s.db, s.drops[d]))
    && (forall d, o :: 0 <= d < o < |s.drops| && HoldsRow(s.drops[d].stage) && HoldsRow(s.drops[o].stage) ==>
          s.drops[d].id != s.drops[o].id)
    && (forall d, t :: 0 <= d < |s.drops| && 0 <= t < |s.txs| ==> s.drops[d].stage.DropDone? || Ended(s.txs[t].stage))
  }

  /** An abandon moves without touching committed rows. */
  lemma DropMoves(s: State, d: nat, g: DropStage)
    requires DropsOk(s) && d < |s.drops| && !s.drops[d].stage.DropDone?
    requires DropOk(s.db, s.drops[d].(stage := g)) && (HoldsRow(g) && !HoldsRow(s.drops[d].stage) ==> !RowLocked(s, d))
    ensures DropsOk(SetDrop(s, d, g))
  {
    hide DropOk;
    var r := SetDrop(s, d, g);
    forall a, b | 0 <= a < b < |r.drops| && HoldsRow(r.drops[a].stage) && HoldsRow(r.drops[b].stage)
      ensures r.drops[a].id != r.drops[b].id
    {
      if a != d && b != d { assert HoldsRow(s.drops[a].stage) && HoldsRow(s.drops[b].stage); }
    }
  }

  lemma DropsSame(s: State, r: State)
    requires DropsOk(s) && r.db == s.db && r.drops == s.drops && r.txs == s.txs
    ensures DropsOk(r)
  {
  }

  /** Statements of an abandon before its commit, answers without effect included. */
  lemma DropSteps(s: State, e: Event, db0: Store)
    requires Inv(s, db0) && DropsOk(s) && Enabled(s, e)
    requires e.CheckDrop? || e.DeleteRow? || e.DeleteKeyRow? || e.FailDrop?
    ensures Inv(Apply(s, e), db0) && DropsOk(Apply(s, e))
  {
    hide SerialAnswers, Serial, TxsOk, IdsOk, RowLocked, DropsOk;
    var r, x := Apply(s, e), s.drops[e.d];
    DropKnown(s, e.d);
    DropMoves(s, e.d, r.drops[e.d].stage);
    if r.log != s.log {
      LogStep(s, r, db0, Abandon(x.id, x.key, false));
      DropsSame(SetDrop(s, e.d, DropDone), r);
    }
    TxsOkSame(s, r);
  }

  lemma DropKnown(s: State, d: nat)
    requires DropsOk(s) && d < |s.drops|
    ensures DropOk(s.db, s.drops[d])
  {
  }

  /** The statements of a committed abandon have the effect of the memory store's abandon. */
  lemma CommittedDropAgrees(s: State, d: nat)
    requires DropsOk(s) && d < |s.drops| && s.drops[d].stage.KeyDeleted?
    ensures DoAbandon(s.db, s.drops[d].id, s.drops[d].key) == (StepCommitDrop(s, d).db, true)
  {
    DropKnown(s, d);
  }

  /** The other abandons stay right when one commits. */
  lemma CommitKeepsDrops(s: State, d: nat)
    requires DropsOk(s) && d < |s.drops| && s.drops[d].stage.KeyDeleted?
    ensures DropsOk(StepCommitDrop(s, d))
  {
    var r, x := StepCommitDrop(s, d), s.drops[d];
    DropKnown(s, d);
    forall o | 0 <= o < |r.drops| ensures DropOk(r.db, r.drops[o]) {
      DropKnown(s, o);
      if o != d && HoldsRow(s.drops[o].stage) { assert s.drops[o].id != x.id; }
    }
    forall a, b | 0 <= a < b < |r.drops| && HoldsRow(r.drops[a].stage) && HoldsRow(r.drops[b].stage)
      ensures r.drops[a].id != r.drops[b].id
    {
      assert HoldsRow(s.drops[a].stage) && HoldsRow(s.drops[b].stage);
    }
  }

  lemma CommitDropStep(s: State, d: nat, db0: Store)
    requires Inv(s, db0) && DropsOk(s) && Enabled(s, CommitDrop(d))
    ensures Inv(StepCommitDrop(s, d), db0) && DropsOk(StepCommitDrop(s, d))
  {
    hide SerialAnswers, Serial, KeyLocked, DropsOk;
    var r, x := StepCommitDrop(s, d), s.drops[d];
    CommittedDropAgrees(s, d);
    LogStep(s, r, db0, Abandon(x.id, x.key, true));
    CommitKeepsDrops(s, d);
    RowsVanish(s, d);
  }

  lemma RowsVanish(s: State, d: nat)
    requires TxsOk(s) && IdsOk(s) && NoDangling(s.db) && DropsOk(s) && "" !in s.db.idempotency
    requires d < |s.drops| && s.drops[d].stage.KeyDeleted?
    ensures var r := StepCommitDrop(s, d); TxsOk(r) && IdsOk(r) && NoDangling(r.db)
  {
    var r := StepCommitDrop(s, d);
    DropKnown(s, d);
    forall t | 0 <= t < |r.txs| ensures TxOk(r.db, r.txs[t]) { assert Ended(s.txs[t].stage); }
  }

  lemma AskDropStep(s: State, id: string, key: string, db0: Store)
    requires Inv(s, db0) && DropsOk(s) && Enabled(s, AskDrop(id, key))
    ensures Inv(Apply(s, AskDrop(id, key)), db0) && DropsOk(Apply(s, AskDrop(id, key)))
  {
    hide SerialAnswers, Serial, TxsOk, IdsOk, OnlyKey;
    TxsOkSame(s, Apply(s, AskDrop(id, key)));
  }

  /** A step of a create happens while no abandon is in flight. */
  lemma CreateKeepsDrops(s: State, e: Event)
    requires DropsOk(s) && Enabled(s, e) && IsCreateEvent(e)
    ensures DropsOk(Apply(s, e))
  {
    hide KeyLocked, View;
    var r := Apply(s, e);
    assert r.drops == s.drops;
    forall d | 0 <= d < |s.drops| ensures s.drops[d].stage.DropDone? {
      if !e.Begin? { assert !Ended(s.txs[e.t].stage); }
    }
  }

  predicate IsCreateEvent(e: Event) {
    || e.Begin? || e.SelectKey? || e.SelectBody? || e.InsertSubmission? || e.InsertKey? || e.Reread? || e.DeleteOwn?
    || e.SelectWinner? || e.Finish? || e.Fail?
  }

  lemma BeginStep(s: State, req: Request, db0: Store)
    requires Inv(s, db0) && Enabled(s, Begin(req))
    ensures Inv(Apply(s, Begin(req)), db0)
  {
    hide SerialAnswers, Serial, KeyLocked, View;
  }

  lemma CreateSteps(s: State, e: Event, db0: Store)
    requires Inv(s, db0) && Enabled(s, e) && IsCreateEvent(e)
    ensures Inv(Apply(s, e), db0)
  {
    hide Inv, Enabled, StepFinish;
    if e.Begin? {
      BeginStep(s, e.req, db0);
    } else if e.SelectKey? || e.Reread? {
      ReadSteps(s, e, db0);
    } else if e.SelectBody? || e.SelectWinner? {
      BodySteps(s, e, db0);
    } else if e.Finish? {
      FinishStep(s, e.t, db0);
    } else {
      WriteSteps(s, e, db0);
    }
  }

  lemma StepKeepsInv(s: State, e: Event, db0: Store)
    requires Inv(s, db0) && DropsOk(s) && Enabled(s, e)
    ensures Inv(Apply(s, e), db0) && DropsOk(Apply(s, e))
  {
    hide Inv, DropsOk, Enabled, StepCommitDrop;
    if IsCreateEvent(e) {
      CreateSteps(s, e, db0);
      CreateKeepsDrops(s, e);
    } else if e.AskDrop? {
      AskDropStep(s, e.id, e.key, db0);
    } else if e.CommitDrop? {
      CommitDropStep(s, e.d, db0);
    } else {
      DropSteps(s, e, db0);
    }
  }

  /** No transaction yet, every stored id already handed out, and no dangling key. */
  ghost predicate Initial(s: State) {
    && s.txs == [] && s.drops == [] && s.log == [] && NoDangling(s.db) && "" !in s.db.idempotency
    && (forall id :: id in s.db.submissions ==> id in s.used)
  }

  lemma {:induction false} RunKeepsInv(s: State, events: seq<Event>)
    requires Initial(s) && After(s, events).Some?
    ensures Inv(After(s, events).value, s.db) && DropsOk(After(s, events).value)
    decreases |events|
  {
    hide Apply, Enabled;
    if events != [] {
      var m := |events| - 1;
      RunKeepsInv(s, events[..m]);
      StepKeepsInv(After(s, events[..m]).value, events[m], s.db);
    }
  }

  /** Every interleaving ends in the rows and the answers of a serial run of the memory store. */
  lemma Serializable(s: State, events: seq<Event>)
    requires Initial(s) && After(s, events).Some?
    ensures var r := After(s, events).value;
            r.db == Serial(s.db, r.log) && SerialAnswers(s.db, r.log) && NoDangling(r.db)
  {
    hide After, Serial, SerialAnswers;
    RunKeepsInv(s, events);
  }

  /** Each answered transaction is in the log, with its answer. */
  lemma {:induction false} AnswersLogged(s: State, events: seq<Event>, t: nat)
    requires Initial(s) && After(s, events).Some? && t < |After(s, events).value.txs|
    requires After(s, events).value.txs[t].stage.Returned?
    ensures var r := After(s, events).value; Create(r.txs[t].req, r.txs[t].stage.answer) in r.log
    decreases |events|
  {
    hide Enabled, KeyLocked, View;
    var m := |events| - 1;
    var mid, e := After(s, events[..m]).value, events[m];
    LogGrows(mid, e, t);
    if t < |mid.txs| && mid.txs[t].stage.Returned? && mid.txs[t] == After(s, events).value.txs[t] {
      AnswersLogged(s, events[..m], t);
    }
  }

  /** A step keeps the log's entries, keeps ended transactions, and logs a new answer. */
  lemma LogGrows(s: State, e: Event, t: nat)
    requires Enabled(s, e) && t < |Apply(s, e).txs|
    ensures s.log <= Apply(s, e).log
    ensures Apply(s, e).txs[t].stage.Returned? ==>
              || (t < |s.txs| && s.txs[t] == Apply(s, e).txs[t])
              || Create(Apply(s, e).txs[t].req, Apply(s, e).txs[t].stage.answer) in Apply(s, e).log
  {
    hide KeyLocked, View;
  }

  // ---- what the serial order means ----

  /** A request that did not create leaves no submission row behind, whether it replayed, lost the
      race, conflicted, failed or is still running. */
  lemma LoserLeavesNothing(s: State, events: seq<Event>, t: nat)
    requires Initial(s) && After(s, events).Some? && t < |After(s, events).value.txs|
    requires !IsCreator(After(s, events).value.txs[t].stage)
    ensures var r := After(s, events).value; r.txs[t].req.sub.id !in r.db.submissions
  {
    hide After, Serial, SerialAnswers, TxsOk;
    RunKeepsInv(s, events);
  }

  ghost predicate BoundTo(st: Store, key: string, id: string, hash: string) {
    && key in st.idempotency && st.idempotency[key] == id && HashOf(st, key) == hash
    && id in st.submissions && st.submissions[id].id == id
  }

  /** The operation is an abandon that removed the submission. */
  predicate Drops(op: Op, id: string) {
    op.Abandon? && op.dropped && op.id == id
  }

  lemma BindingKept(st: Store, op: Op, key: string, id: string, hash: string)
    requires BoundTo(st, key, id, hash) && NoDangling(st) && Perform(st, op).1 == op && !Drops(op, id)
    ensures BoundTo(Perform(st, op).0, key, id, hash)
    ensures key != "" && op.Create? && op.req.key == key ==>
              if Clash(hash, op.req.hash) then op.answer == Conflict else op.answer.Replayed? && op.answer.sub.id == id
  {
  }

  lemma {:induction false} BindingLasts(st: Store, log: seq<Op>, i: nat, j: nat)
    requires SerialAnswers(st, log) && i < j <= |log| && log[i].Create? && log[i].answer.Created? && log[i].req.key != ""
    requires forall m :: i < m < j ==> !Drops(log[m], log[i].req.sub.id)
    requires forall m :: 0 <= m <= |log| ==> NoDangling(Serial(st, log[..m]))
    ensures BoundTo(Serial(st, log[..j]), log[i].req.key, log[i].req.sub.id, log[i].req.hash)
    decreases j
  {
    hide Perform, Serial, BoundTo, NoDangling;
    var m := j - 1;
    assert log[..j] == log[..m] + [log[m]];
    SerialUnfold(st, log[..m], log[m]);
    if m == i {
      CreateBinds(Serial(st, log[..i]), log[i]);
    } else {
      BindingLasts(st, log, i, m);
      BindingKept(Serial(st, log[..m]), log[m], log[i].req.key, log[i].req.sub.id, log[i].req.hash);
    }
  }

  lemma CreateBinds(st: Store, op: Op)
    requires op.Create? && op.answer.Created? && op.req.key != "" && Perform(st, op).1 == op
    ensures BoundTo(Perform(st, op).0, op.req.key, op.req.sub.id, op.req.hash)
  {
  }

  lemma {:induction false} SerialKeepsKeys(s: State, events: seq<Event>, m: nat)
    requires Initial(s) && After(s, events).Some? && m <= |After(s, events).value.log|
    ensures NoDangling(Serial(s.db, After(s, events).value.log[..m]))
    decreases |events|
  {
    hide Enabled, KeyLocked, View, Serial, SerialAnswers, NoDangling, Apply;
    var log := After(s, events).value.log;
    RunKeepsInv(s, events);
    if m == |log| {
      assert log[..m] == log;
    } else {
      assert events != [];
      var before := events[..|events| - 1];
      var mid := After(s, before).value;
      LogStepLength(mid, events[|events| - 1]);
      assert log[..m] == mid.log[..m];
      SerialKeepsKeys(s, before, m);
    }
  }

  lemma LogStepLength(s: State, e: Event)
    requires Enabled(s, e)
    ensures s.log <= Apply(s, e).log && |Apply(s, e).log| <= |s.log| + 1
  {
    hide KeyLocked, View;
  }

  /** After a create and before an abandon of its submission, every finished request with the same key conflicts
      exactly when the fingerprints clash, and otherwise gets the creator's submission. */
  lemma OneCreatorPerKey(s: State, events: seq<Event>, i: nat, j: nat)
    requires Initial(s) && After(s, events).Some?
    requires var log := After(s, events).value.log;
             && i < j < |log| && log[i].Create? && log[i].answer.Created? && log[i].req.key != ""
             && log[j].Create? && log[j].req.key == log[i].req.key && (forall m :: i < m < j ==> !Drops(log[m], log[i].req.sub.id))
    ensures var log := After(s, events).value.log;
            if Clash(log[i].req.hash, log[j].req.hash) then log[j].answer == Conflict
            else log[j].answer.Replayed? && log[j].answer.sub.id == log[i].req.sub.id
  {
    hide After, Serial, Perform, NoDangling;
    var log := After(s, events).value.log;
    Serializable(s, events);
    forall m | 0 <= m <= |log| ensures NoDangling(Serial(s.db, log[..m])) { SerialKeepsKeys(s, events, m); }
    BindingLasts(s.db, log, i, j);
    BindingKept(Serial(s.db, log[..j]), log[j], log[i].req.key, log[i].req.sub.id, log[i].req.hash);
  }

  /** No deadlock: an unfinished transaction, or the rival that holds its key, can take a step. */
  lemma SomeoneCanMove(s: State, t: nat) returns (e: Event)
    requires t < |s.txs| && !Ended(s.txs[t].stage)
    ensures Enabled(s, e) && IsCreateEvent(e) && !e.Fail? && !e.Begin?
    ensures e.t == t || (e.t < |s.txs| && s.txs[e.t].stage.Won? && s.txs[e.t].req.key == s.txs[t].req.key)
  {
    var tx := s.txs[t];
    match tx.stage
    case Begun => e := if tx.req.key == "" then InsertSubmission(t) else SelectKey(t);
    case Found(_) => e := SelectBody(t);
    case Absent => e := InsertSubmission(t);
    case Inserted =>
      if tx.req.key == "" {
        e := Finish(t);
      } else if KeyLocked(s, t) {
        var o :| 0 <= o < |s.txs| && o != t && s.txs[o].stage.Won? && s.txs[o].req.key == tx.req.key;
        e := Finish(o);
      } else {
        e := InsertKey(t);
      }
    case Won => e := Finish(t);
    case Lost => e := Reread(t);
    case Losing(_) => e := DeleteOwn(t);
    case Dropped(_) => e := SelectWinner(t);
    case Answering(_) => e := Finish(t);
  }

  lemma DropCanMove(s: State, d: nat) returns (e: Event)
    requires d < |s.drops| && !s.drops[d].stage.DropDone?
    ensures Enabled(s, e) && !IsCreateEvent(e) && !e.FailDrop? && !e.AskDrop?
    ensures e.d == d || (e.d < |s.drops| && HoldsRow(s.drops[e.d].stage) && s.drops[e.d].id == s.drops[d].id)
  {
    match s.drops[d].stage
    case Asked => e := CheckDrop(d);
    case Accepting =>
      if RowLocked(s, d) {
        var o :| 0 <= o < |s.drops| && o != d && HoldsRow(s.drops[o].stage) && s.drops[o].id == s.drops[d].id;
        e := if s.drops[o].stage.RowDeleted? then DeleteKeyRow(o) else CommitDrop(o);
      } else {
        e := DeleteRow(d);
      }
    case RowDeleted => e := DeleteKeyRow(d);
    case KeyDeleted(_) => e := CommitDrop(d);
  }

  // ---- a create alone, and dangling keys ----

  /** Nothing is in flight. */
  ghost predicate Quiet(s: State) {
    && (forall t :: 0 <= t < |s.txs| ==> Ended(s.txs[t].stage))
    && (forall d :: 0 <= d < |s.drops| ==> s.drops[d].stage.DropDone?)
  }

  predicate Dangling(db: Store, key: string) {
    key in db.idempotency && db.idempotency[key] !in db.submissions
  }

  /** The statements of a create that runs alone on these rows. */
  function Alone(db: Store, req: Request, t: nat): (events: seq<Event>) {
    if req.key == "" then [Begin(req), InsertSubmission(t), Finish(t)]
    else if req.key !in db.idempotency then [Begin(req), SelectKey(t), InsertSubmission(t), InsertKey(t), Finish(t)]
    else if Clash(HashOf(db, req.key), req.hash) then [Begin(req), SelectKey(t)]
    else if Dangling(db, req.key) then [Begin(req), SelectKey(t), SelectBody(t)]
    else [Begin(req), SelectKey(t), SelectBody(t), Finish(t)]
  }

  lemma AfterSnoc(s: State, events: seq<Event>, e: Event)
    requires After(s, events).Some? && Enabled(After(s, events).value, e)
    ensures After(s, events + [e]) == Some(Apply(After(s, events).value, e))
  {
    hide Apply, Enabled;
    assert (events + [e])[..|events|] == events;
  }

  /** `r` is `s` with one more transaction, at this stage, and no other change of rows. */
  ghost predicate OneMore(s: State, r: State, req: Request, g: Stage) {
    r.db == s.db && r.drops == s.drops && r.txs == s.txs + [Tx(req, g)]
  }

  /** After the first two statements of a keyed create. */
  lemma KeySelected(s: State, req: Request)
    requires Quiet(s) && req.sub.id !in s.used && req.key != ""
    ensures var events := [Begin(req), SelectKey(|s.txs|)];
            && After(s, events).Some?
            && OneMore(s, After(s, events).value, req,
                 if req.key !in s.db.idempotency then Absent
                 else if Clash(HashOf(s.db, req.key), req.hash) then Returned(Conflict)
                 else Found(s.db.idempotency[req.key]))
  {
    var t := |s.txs|;
    var s1 := Apply(s, Begin(req));
    assert After(s, []) == Some(s);
    AfterSnoc(s, [], Begin(req));
    assert [] + [Begin(req)] == [Begin(req)];
    AfterSnoc(s, [Begin(req)], SelectKey(t));
    assert [Begin(req)] + [SelectKey(t)] == [Begin(req), SelectKey(t)];
  }

  lemma InsertsAlone(s: State, r: State, req: Request)
    requires Quiet(s) && OneMore(s, r, req, Absent) && req.key != "" && req.key !in s.db.idempotency
    ensures var t := |s.txs|; var r1 := SetStage(r, t, Inserted); var r2 := SetStage(r1, t, Won);
            && Enabled(r, InsertSubmission(t)) && Apply(r, InsertSubmission(t)) == r1
            && Enabled(r1, InsertKey(t)) && Apply(r1, InsertKey(t)) == r2
            && Enabled(r2, Finish(t)) && Apply(r2, Finish(t)) == StepFinish(r2, t)
            && StepFinish(r2, t).txs == s.txs + [Tx(req, Returned(Created(req.sub)))]
            && StepFinish(r2, t).db == DoPutIdempotent(s.db, req.key, req.hash, req.sub).0
  {
    hide View;
  }

  lemma NewKeyAlone(s: State, req: Request)
    requires Quiet(s) && req.sub.id !in s.used && req.key != "" && req.key !in s.db.idempotency
    ensures var r := After(s, Alone(s.db, req, |s.txs|));
            && r.Some? && r.value.txs == s.txs + [Tx(req, Returned(Created(req.sub)))]
            && r.value.db == DoPutIdempotent(s.db, req.key, req.hash, req.sub).0
  {
    hide After, Apply, Enabled, StepFinish, DoPutIdempotent;
    var t := |s.txs|;
    var e2 := [Begin(req), SelectKey(t)];
    KeySelected(s, req);
    InsertsAlone(s, After(s, e2).value, req);
    AfterSnoc(s, e2, InsertSubmission(t));
    var e3 := e2 + [InsertSubmission(t)];
    AfterSnoc(s, e3, InsertKey(t));
    var e4 := e3 + [InsertKey(t)];
    AfterSnoc(s, e4, Finish(t));
    assert e4 + [Finish(t)] == Alone(s.db, req, t);
  }

  lemma NoKeyAlone(s: State, req: Request)
    requires Quiet(s) && req.sub.id !in s.used && req.key == ""
    ensures var r := After(s, Alone(s.db, req, |s.txs|));
            && r.Some? && r.value.txs == s.txs + [Tx(req, Returned(Created(req.sub)))]
            && r.value.db == DoPutIdempotent(s.db, req.key, req.hash, req.sub).0
  {
    hide View;
    var t := |s.txs|;
    assert After(s, []) == Some(s);
    AfterSnoc(s, [], Begin(req));
    assert [] + [Begin(req)] == [Begin(req)];
    AfterSnoc(s, [Begin(req)], InsertSubmission(t));
    var e2 := [Begin(req)] + [InsertSubmission(t)];
    AfterSnoc(s, e2, Finish(t));
    assert e2 + [Finish(t)] == Alone(s.db, req, t);
  }

  lemma ReadsAlone(s: State, r: State, req: Request)
    requires req.key in s.db.idempotency && OneMore(s, r, req, Found(s.db.idempotency[req.key]))
    ensures var t, id := |s.txs|, s.db.idempotency[req.key];
            && Enabled(r, SelectBody(t))
            && OneMore(s, Apply(r, SelectBody(t)), req, if Dangling(s.db, req.key) then Errored else Answering(s.db.submissions[id]))
  {
  }

  lemma AnswersAlone(s: State, r: State, req: Request, sub: Submission)
    requires OneMore(s, r, req, Answering(sub))
    ensures var t := |s.txs|; Enabled(r, Finish(t)) && OneMore(s, Apply(r, Finish(t)), req, Returned(Replayed(sub)))
  {
  }

  lemma KnownKeyAlone(s: State, req: Request)
    requires Quiet(s) && req.sub.id !in s.used && req.key != "" && req.key in s.db.idempotency
    ensures var r := After(s, Alone(s.db, req, |s.txs|));
            && r.Some?
            && OneMore(s, r.value, req,
                 if Clash(HashOf(s.db, req.key), req.hash) then Returned(Conflict)
                 else if Dangling(s.db, req.key) then Errored
                 else Returned(Replayed(s.db.submissions[s.db.idempotency[req.key]])))
  {
    hide After, Apply, Enabled, OneMore, HashOf, Clash;
    var t := |s.txs|;
    var e2 := [Begin(req), SelectKey(t)];
    KeySelected(s, req);
    if !Clash(HashOf(s.db, req.key), req.hash) {
      ReadsAlone(s, After(s, e2).value, req);
      AfterSnoc(s, e2, SelectBody(t));
      var e3 := e2 + [SelectBody(t)];
      if !Dangling(s.db, req.key) {
        AnswersAlone(s, After(s, e3).value, req, s.db.submissions[s.db.idempotency[req.key]]);
        AfterSnoc(s, e3, Finish(t));
      }
      assert Alone(s.db, req, t) == if Dangling(s.db, req.key) then e3 else e3 + [Finish(t)];
    }
  }

  /** Run alone, a create leaves the rows and gives the answer of the memory store exactly when its key
      does not dangle. On a dangling key the SQL store changes nothing and reports a conflict or an
      error, by the fingerprints, where the memory store binds the key anew. */
  lemma AloneAgreesIff(s: State, req: Request)
    requires Quiet(s) && req.sub.id !in s.used && "" !in s.db.idempotency
    ensures var r := After(s, Alone(s.db, req, |s.txs|)); var (st, a) := DoPutIdempotent(s.db, req.key, req.hash, req.sub);
            && r.Some? && |r.value.txs| == |s.txs| + 1 && Ended(r.value.txs[|s.txs|].stage)
            && (r.value.db == st && r.value.txs[|s.txs|].stage == Returned(a) <==> !Dangling(s.db, req.key))
            && (Dangling(s.db, req.key) ==>
                  && a == Created(req.sub) && r.value.db == s.db
                  && r.value.txs[|s.txs|].stage == if Clash(HashOf(s.db, req.key), req.hash) then Returned(Conflict) else Errored)
  {
    hide After, Alone;
    if req.key == "" {
      NoKeyAlone(s, req);
    } else if req.key !in s.db.idempotency {
      NewKeyAlone(s, req);
    } else {
      KnownKeyAlone(s, req);
    }
  }

  /** The statements are the only ones: a transaction never has a choice, so `Alone` is what it does. */
  lemma NextStepUnique(s: State, e: Event, f: Event)
    requires Enabled(s, e) && Enabled(s, f) && IsCreateEvent(e) && IsCreateEvent(f)
    requires !e.Begin? && !f.Begin? && !e.Fail? && !f.Fail? && e.t == f.t
    ensures e == f
  {
    hide KeyLocked;
  }

  // ---- no false errors ----

  /** In every interleaving a create ends in an error only when one of its statements fails. */
  lemma {:induction false} OnlyFailuresErr(s: State, events: seq<Event>, t: nat)
    requires Initial(s) && After(s, events).Some? && t < |After(s, events).value.txs|
    requires After(s, events).value.txs[t].stage.Errored?
    ensures Fail(t) in events
    decreases |events|
  {
    hide Apply, Enabled, Inv, DropsOk;
    if events != [] {
      var m := |events| - 1;
      var mid, e := After(s, events[..m]).value, events[m];
      assert events == events[..m] + [e];
      RunKeepsInv(s, events[..m]);
      if e != Fail(t) {
        ErrsOnFailure(mid, s.db, e, t);
        OnlyFailuresErr(s, events[..m], t);
      }
    }
  }

  lemma ErrsOnFailure(s: State, db0: Store, e: Event, t: nat)
    requires Inv(s, db0) && Enabled(s, e) && t < |Apply(s, e).txs| && Apply(s, e).txs[t].stage.Errored? && e != Fail(t)
    ensures t < |s.txs| && s.txs[t].stage.Errored?
  {
    hide SerialAnswers, Serial, KeyLocked, Clash, HashOf, OnlyKey, IdsOk;
    if t < |s.txs| { assert TxOk(s.db, s.txs[t]); }
  }
}
