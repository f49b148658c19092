/** A status change: the one-statement fast path and the transaction path it must agree with. */
module Transitions {
  import opened Options
  import opened StateMachine

  // ---------- values, columns and rows ----------

  datatype Operator = OpSet | OpIncrement | OpNot | OpLte | OtherOperator(name: string)

  /** A JavaScript value in the update data or in a guard. */
  datatype Value =
    | Undefined
    | Null
    | Text(text: string)
    | Whole(n: int)
    | Fraction(x: real)
    | When(at: int)
    | Object(fields: seq<(Operator, Value)>)

  datatype Column =
    | AssignedPrinterId | ClaimedByAgentId | ClaimedBySessionId | ReleaseCodeDigest | ReleaseCodeEncrypted
    | PrintConfirmedById | PrintError | PaymentId | PaymentProvider | OtpHash | OtpCode | AbsentReason
    | CounterPaymentConfirmedById | CounterPaymentReference | CounterPaymentAmountPaise
    | ReleaseCodeGeneratedAt | QueuedAt | ArrivedAt | QueueLeftAt | NearFrontNotifiedAt | RevealedAt | RevealDeadlineAt
    | ArrivingNotifiedAt | AbsentAt | SpoolAcceptedAt | PrintConfirmedAt | OtpExpiresAt | CashCollectedAt
    | CounterPaymentConfirmedAt
    | PaymentStatusColumn | CounterPaymentMethodColumn | PrintCompletionMethodColumn
    | CheckInCount | PrintAttempts
    | Unlisted(name: string)

  datatype EnumType = PaymentStatus | CounterPaymentMethod | PrintCompletionMethod

  datatype ColumnKind = TextKind | IntKind | TimestampKind | EnumKind(enumType: EnumType) | IncrementKind

  datatype SqlType = SqlText | SqlInteger | SqlTimestamp | SqlEnum(enumType: EnumType) | SqlOther

  datatype Cell = NullCell | TextCell(text: string) | IntCell(n: int) | TimeCell(at: int) | EnumCell(enumType: EnumType, text: string) | OtherCell(value: Value)

  type Cells = map<Column, Cell>

  datatype Row = Row(status: JobStatus, updatedAt: int, cells: Cells)

  function Read(cells: Cells, c: Column): Cell {
    if c in cells then cells[c] else NullCell
  }

  /** FAST_COLUMNS: the columns the fast path may set, with the SQL type each one needs. */
  function FastKind(c: Column): Option<ColumnKind> {
    match c
    case AssignedPrinterId => Some(TextKind) case ClaimedByAgentId => Some(TextKind) case ClaimedBySessionId => Some(TextKind)
    case ReleaseCodeDigest => Some(TextKind) case ReleaseCodeEncrypted => Some(TextKind) case PrintConfirmedById => Some(TextKind)
    case PrintError => Some(TextKind) case PaymentId => Some(TextKind) case PaymentProvider => Some(TextKind)
    case OtpHash => Some(TextKind) case OtpCode => Some(TextKind) case AbsentReason => Some(TextKind)
    case CounterPaymentConfirmedById => Some(TextKind) case CounterPaymentReference => Some(TextKind)
    case CounterPaymentAmountPaise => Some(IntKind)
    case ReleaseCodeGeneratedAt => Some(TimestampKind) case QueuedAt => Some(TimestampKind) case ArrivedAt => Some(TimestampKind)
    case QueueLeftAt => Some(TimestampKind) case NearFrontNotifiedAt => Some(TimestampKind) case RevealedAt => Some(TimestampKind)
    case RevealDeadlineAt => Some(TimestampKind) case ArrivingNotifiedAt => Some(TimestampKind) case AbsentAt => Some(TimestampKind)
    case SpoolAcceptedAt => Some(TimestampKind) case PrintConfirmedAt => Some(TimestampKind) case OtpExpiresAt => Some(TimestampKind)
    case CashCollectedAt => Some(TimestampKind) case CounterPaymentConfirmedAt => Some(TimestampKind)
    case PaymentStatusColumn => Some(EnumKind(PaymentStatus))
    case CounterPaymentMethodColumn => Some(EnumKind(CounterPaymentMethod))
    case PrintCompletionMethodColumn => Some(EnumKind(PrintCompletionMethod))
    case CheckInCount => Some(IncrementKind) case PrintAttempts => Some(IncrementKind)
    case Unlisted(_) => None
  }

  /** The type the database schema declares for the column. */
  function SchemaType(c: Column): SqlType {
    if c.Unlisted? then SqlOther
    else if c.PaymentStatusColumn? then SqlEnum(PaymentStatus)
    else if c.CounterPaymentMethodColumn? then SqlEnum(CounterPaymentMethod)
    else if c.PrintCompletionMethodColumn? then SqlEnum(PrintCompletionMethod)
    else if c.CheckInCount? || c.PrintAttempts? || c.CounterPaymentAmountPaise? then SqlInteger
    else if c in {ReleaseCodeGeneratedAt, QueuedAt, ArrivedAt, QueueLeftAt, NearFrontNotifiedAt, RevealedAt, RevealDeadlineAt,
                  ArrivingNotifiedAt, AbsentAt, SpoolAcceptedAt, PrintConfirmedAt, OtpExpiresAt, CashCollectedAt,
                  CounterPaymentConfirmedAt} then SqlTimestamp
    else SqlText
  }

  /** The columns the schema does not declare optional. */
  predicate Nullable(c: Column) { !c.PaymentStatusColumn? && !c.CheckInCount? && !c.PrintAttempts? }

  predicate IsLabel(enumType: EnumType, text: string) {
    match enumType
    case PaymentStatus => text in ["pending", "counter_due", "cash_due", "paid", "refunding", "refunded", "failed"]
    case CounterPaymentMethod => text in ["cash", "shop_upi"]
    case PrintCompletionMethod => text in ["simulator", "staff_confirmed"]
  }

  type Entry = (Column, Value)

  predicate DistinctKeys(entries: seq<Entry>) {
    forall i, j :: 0 <= i < j < |entries| ==> entries[i].0 != entries[j].0
  }

  /** What the data's static type admits for one column. */
  predicate Typed(c: Column, v: Value) {
    c.Unlisted? ||
      match v
      case Undefined => true
      case Null => Nullable(c)
      case Object(fields) =>
        |fields| == 1 &&
          ((fields[0].0.OpSet? && !fields[0].1.Object? && Typed(c, fields[0].1))
           || (fields[0].0.OpIncrement? && fields[0].1.Whole? && SchemaType(c).SqlInteger?))
      case Text(text) => SchemaType(c).SqlText? || (SchemaType(c).SqlEnum? && IsLabel(SchemaType(c).enumType, text))
      case Whole(_) => SchemaType(c).SqlInteger?
      case When(_) => SchemaType(c).SqlTimestamp?
      case Fraction(_) => false
  }

  /** An object literal: one value per column, each of its column's type. */
  predicate TypedData(data: seq<Entry>) {
    DistinctKeys(data) && forall i :: 0 <= i < |data| ==> Typed(data[i].0, data[i].1)
  }

  // ---------- the transaction path ----------

  function AddTo(cell: Cell, n: int): Cell {
    if cell.IntCell? then IntCell(cell.n + n) else cell
  }

  /** The new value of one column under an update with this value. */
  function Updated(c: Column, before: Cell, v: Value): Cell
    requires Typed(c, v)
  {
    match v
    case Undefined => before
    case Null => NullCell
    case Object(fields) =>
      if c.Unlisted? then OtherCell(v)
      else if fields[0].0.OpSet? then Updated(c, before, fields[0].1)
      else AddTo(before, fields[0].1.n)
    case Text(text) => if c.Unlisted? then OtherCell(v) else if SchemaType(c).SqlText? then TextCell(text) else EnumCell(SchemaType(c).enumType, text)
    case Whole(n) => if c.Unlisted? then OtherCell(v) else IntCell(n)
    case When(at) => if c.Unlisted? then OtherCell(v) else TimeCell(at)
    case Fraction(_) => OtherCell(v)
  }

  function UpdateData(cells: Cells, data: seq<Entry>): Cells
    requires TypedData(data)
  {
    if data == [] then cells
    else
      var (c, v) := data[|data| - 1];
      var front := UpdateData(cells, data[..|data| - 1]);
      if v.Undefined? then front else front[c := Updated(c, Read(front, c), v)]
  }

  /** Filters of other shapes: what the query layer answers is a parameter. */
  type OtherFilters = (Column, Cell, Value) -> bool

  predicate FieldMatches(c: Column, cell: Cell, field: (Operator, Value), others: OtherFilters) {
    match field
    case (OpNot, Null) => !cell.NullCell?
    case (OpLte, When(at)) => cell.TimeCell? && cell.at <= at
    case _ => others(c, cell, Object([field]))
  }

  predicate FieldsMatch(c: Column, cell: Cell, fields: seq<(Operator, Value)>, others: OtherFilters) {
    fields == [] || (FieldsMatch(c, cell, fields[..|fields| - 1], others) && FieldMatches(c, cell, fields[|fields| - 1], others))
  }

  /** Whether one filter of a `where` object admits the cell. */
  predicate Matches(c: Column, cell: Cell, filter: Value, others: OtherFilters) {
    match filter
    case Null => cell.NullCell?
    case Text(text) => if SchemaType(c).SqlText? then cell == TextCell(text) else others(c, cell, filter)
    case Object(fields) => FieldsMatch(c, cell, fields, others)
    case _ => others(c, cell, filter)
  }

  predicate Admits(cells: Cells, guard: seq<Entry>, others: OtherFilters) {
    forall i :: 0 <= i < |guard| ==> Matches(guard[i].0, Read(cells, guard[i].0), guard[i].1, others)
  }

  datatype ActorType = Student | Shop | Agent | System
  datatype Actor = Actor(kind: ActorType, id: Option<string>)
  datatype EventName = Own(event: JobEvent) | Audit(text: string)

  datatype EventRow = EventRow(id: string, jobId: string, fromStatus: JobStatus, toStatus: JobStatus, name: EventName, actor: Actor)
  datatype OutboxRow = OutboxRow(id: string, jobEventId: string, jobId: string)
  datatype Db = Db(jobs: map<string, Row>, events: seq<EventRow>, outbox: seq<OutboxRow>)

  datatype Request = Request(jobId: string, from: JobStatus, event: JobEvent, actor: Actor, data: seq<Entry>,
                             auditEvent: Option<string>, guard: Option<seq<Entry>>)

  /** The clock reading and the fresh ids one call uses. */
  datatype Env = Env(now: int, eventId: string, outboxId: string)

  datatype Outcome = Moved(row: Row) | LostRace | InvalidTransition

  function NameOf(rq: Request): EventName {
    if rq.auditEvent.Some? then Audit(rq.auditEvent.value) else Own(rq.event)
  }

  function GuardOf(rq: Request): seq<Entry> {
    if rq.guard.Some? then rq.guard.value else []
  }

  /** Update the row if status and guard admit it, then write its audit event and its outbox row. */
  function TransactionPath(db: Db, rq: Request, to: JobStatus, env: Env, others: OtherFilters): (Db, Outcome)
    requires TypedData(rq.data)
  {
    if rq.jobId in db.jobs && db.jobs[rq.jobId].status == rq.from && Admits(db.jobs[rq.jobId].cells, GuardOf(rq), others) then
      var row := Row(to, env.now, UpdateData(db.jobs[rq.jobId].cells, rq.data));
      (Db(db.jobs[rq.jobId := row],
          db.events + [EventRow(env.eventId, rq.jobId, rq.from, to, NameOf(rq), rq.actor)],
          db.outbox + [OutboxRow(env.outboxId, env.eventId, rq.jobId)]),
       Moved(row))
    else (db, LostRace)
  }

  /** A status change as a whole. */
  function Transitioned(db: Db, rq: Request, env: Env, others: OtherFilters): (Db, Outcome)
    requires TypedData(rq.data)
  {
    var to := Transition(rq.from, rq.event);
    if to.None? then (db, InvalidTransition) else TransactionPath(db, rq, to.value, env, others)
  }

  // ---------- the generated SQL and what PostgreSQL does with it ----------

  datatype Expr = NullLiteral | TextParam(text: string) | IntParam(n: int) | TimeParam(at: int) | CastText(text: string, enumType: EnumType) | Plus(column: Column, n: int)
  datatype Assignment = Assignment(column: Column, rhs: Expr)
  datatype Clause = IsNull(column: Column) | IsNotNull(column: Column) | EqualsText(column: Column, text: string) | AtMost(column: Column, at: int)

  datatype Statement = Statement(jobId: string, from: JobStatus, to: JobStatus, sets: seq<Assignment>, now: int, guards: seq<Clause>,
                                 name: EventName, actor: Actor, eventId: string, outboxId: string)

  datatype Truth = Yes | No | Unknown

  function Judge(b: bool): Truth { if b then Yes else No }

  /** Three-valued: a comparison with NULL is unknown. */
  function Evaluate(g: Clause, cells: Cells): Truth {
    var cell := Read(cells, g.column);
    match g
    case IsNull(_) => Judge(cell.NullCell?)
    case IsNotNull(_) => Judge(!cell.NullCell?)
    case EqualsText(_, text) => if cell.NullCell? then Unknown else Judge(cell == TextCell(text))
    case AtMost(_, at) => if cell.NullCell? then Unknown else Judge(cell.TimeCell? && cell.at <= at)
  }

  function And(a: Truth, b: Truth): Truth {
    if a.No? || b.No? then No else if a.Unknown? || b.Unknown? then Unknown else Yes
  }

  function Conjunction(guards: seq<Clause>, cells: Cells): Truth {
    if guards == [] then Yes
    else And(Conjunction(guards[..|guards| - 1], cells), Evaluate(guards[|guards| - 1], cells))
  }

  /** None is a database error: a failed cast, a type mismatch or NULL in a NOT NULL column. */
  function Stored(c: Column, e: Expr, before: Cells): Option<Cell> {
    match e
    case NullLiteral => if Nullable(c) then Some(NullCell) else None
    case TextParam(text) => if SchemaType(c).SqlText? then Some(TextCell(text)) else None
    case IntParam(n) => if SchemaType(c).SqlInteger? then Some(IntCell(n)) else None
    case TimeParam(at) => if SchemaType(c).SqlTimestamp? then Some(TimeCell(at)) else None
    case CastText(text, enumType) => if IsLabel(enumType, text) && SchemaType(c) == SqlEnum(enumType) then Some(EnumCell(enumType, text)) else None
    case Plus(from, n) => if SchemaType(c).SqlInteger? && SchemaType(from).SqlInteger? then Some(AddTo(Read(before, from), n)) else None
  }

  /** Every right-hand side is evaluated on the row as it was. */
  function Assign(before: Cells, sets: seq<Assignment>): Option<Cells> {
    if sets == [] then Some(before)
    else
      var a := sets[|sets| - 1];
      var front := Assign(before, sets[..|sets| - 1]);
      var cell := Stored(a.column, a.rhs, before);
      if front.None? || cell.None? then None else Some(front.value[a.column := cell.value])
  }

  function InsertEvents(q: Statement, upd: seq<Row>): seq<EventRow> {
    if upd == [] then [] else [EventRow(q.eventId, q.jobId, q.from, q.to, q.name, q.actor)] + InsertEvents(q, upd[1..])
  }

  function InsertOutbox(q: Statement, ev: seq<EventRow>): seq<OutboxRow> {
    if ev == [] then [] else [OutboxRow(q.outboxId, ev[0].id, q.jobId)] + InsertOutbox(q, ev[1..])
  }

  /** The three data-modifying CTEs: `upd` has at most one row, `ev` one row per row of `upd`, `ob` one per row of `ev`. None is a database error. */
  function Execute(db: Db, q: Statement): Option<(Db, seq<Row>)> {
    var hit := q.jobId in db.jobs && And(Judge(db.jobs[q.jobId].status == q.from), Conjunction(q.guards, db.jobs[q.jobId].cells)).Yes?;
    if !hit then Some((db, []))
    else
      var cells := Assign(db.jobs[q.jobId].cells, q.sets);
      if cells.None? then None
      else
        var upd := [Row(q.to, q.now, cells.value)];
        var ev := InsertEvents(q, upd);
        var ob := InsertOutbox(q, ev);
        Some((Db(db.jobs[q.jobId := upd[0]], db.events + ev, db.outbox + ob), upd))
  }

  // ---------- the compiler ----------

  function FieldOf(v: Value, op: Operator): Value {
    if v.Object? && exists i :: 0 <= i < |v.fields| && v.fields[i].0 == op then Lookup(v.fields, op) else Undefined
  }

  function Lookup(fields: seq<(Operator, Value)>, op: Operator): Value {
    if fields == [] then Undefined else if fields[0].0 == op then fields[0].1 else Lookup(fields[1..], op)
  }

  function SetClause(c: Column, kind: ColumnKind, v: Value): Option<Assignment> {
    if kind.IncrementKind? then
      var inc := FieldOf(v, OpIncrement);
      if inc.Whole? then Some(Assignment(c, Plus(c, inc.n))) else None
    else if v.Null? then Some(Assignment(c, NullLiteral))
    else match kind
      case TextKind => if v.Text? then Some(Assignment(c, TextParam(v.text))) else None
      case IntKind => if v.Whole? then Some(Assignment(c, IntParam(v.n))) else None
      case TimestampKind => if v.When? then Some(Assignment(c, TimeParam(v.at))) else None
      case EnumKind(enumType) => if v.Text? then Some(Assignment(c, CastText(v.text, enumType))) else None
  }

  function CompileEntry(e: Entry): Option<seq<Assignment>> {
    if e.1.Undefined? then Some([])
    else if FastKind(e.0).None? then None
    else
      var clause := SetClause(e.0, FastKind(e.0).value, e.1);
      if clause.None? then None else Some([clause.value])
  }

  function Extend<T>(front: Option<seq<T>>, last: Option<seq<T>>): Option<seq<T>> {
    if front.None? || last.None? then None else Some(front.value + last.value)
  }

  function CompileSets(data: seq<Entry>): Option<seq<Assignment>> {
    if data == [] then Some([]) else Extend(CompileSets(data[..|data| - 1]), CompileEntry(data[|data| - 1]))
  }

  predicate IsGuardText(c: Column) { c.ClaimedByAgentId? || c.ClaimedBySessionId? }
  predicate IsGuardNullOnly(c: Column) { c.SpoolAcceptedAt? }
  predicate IsGuardTimestamp(c: Column) { c.RevealedAt? || c.RevealDeadlineAt? }

  function CompileField(c: Column, field: (Operator, Value)): Option<seq<Clause>> {
    if field.0.OpNot? && field.1.Null? then Some([IsNotNull(c)])
    else if field.0.OpLte? && field.1.When? then Some([AtMost(c, field.1.at)])
    else None
  }

  function CompileFields(c: Column, fields: seq<(Operator, Value)>): Option<seq<Clause>> {
    if fields == [] then Some([]) else Extend(CompileFields(c, fields[..|fields| - 1]), CompileField(c, fields[|fields| - 1]))
  }

  function CompileCondition(c: Column, cond: Value): Option<seq<Clause>> {
    if IsGuardText(c) && (cond.Null? || cond.Text?) then
      Some([if cond.Null? then IsNull(c) else EqualsText(c, cond.text)])
    else if IsGuardNullOnly(c) && cond.Null? then Some([IsNull(c)])
    else if !IsGuardTimestamp(c) || !cond.Object? then None
    else CompileFields(c, cond.fields)
  }

  function CompileGuard(guard: seq<Entry>): Option<seq<Clause>> {
    if guard == [] then Some([])
    else Extend(CompileGuard(guard[..|guard| - 1]), CompileCondition(guard[|guard| - 1].0, guard[|guard| - 1].1))
  }

  function FastPath(rq: Request, to: JobStatus, env: Env): Option<Statement> {
    var sets, guards := CompileSets(rq.data), CompileGuard(GuardOf(rq));
    if sets.None? || guards.None? then None
    else Some(Statement(rq.jobId, rq.from, to, sets.value, env.now, guards.value, NameOf(rq), rq.actor, env.eventId, env.outboxId))
  }

  // ---------- the two paths agree ----------

  lemma LookupField(fields: seq<(Operator, Value)>, op: Operator)
    requires |fields| == 1
    ensures FieldOf(Object(fields), op) == if fields[0].0 == op then fields[0].1 else Undefined
  {
    if fields[0].0 == op { assert exists i :: 0 <= i < |fields| && fields[i].0 == op; }
  }

  /** Every accepted value lands in a column of its own schema type: no cast fails, no NULL is refused. */
  lemma EntryStores(e: Entry, before: Cells)
    requires Typed(e.0, e.1) && CompileEntry(e).Some? && !e.1.Undefined?
    ensures |CompileEntry(e).value| == 1 && CompileEntry(e).value[0].column == e.0
    ensures Stored(e.0, CompileEntry(e).value[0].rhs, before) == Some(Updated(e.0, Read(before, e.0), e.1))
  {
    if e.1.Object? { LookupField(e.1.fields, OpIncrement); }
  }

  lemma {:induction false} UntouchedColumns(cells: Cells, data: seq<Entry>, c: Column)
    requires TypedData(data)
    requires forall i :: 0 <= i < |data| ==> data[i].0 != c || data[i].1.Undefined?
    ensures Read(UpdateData(cells, data), c) == Read(cells, c)
  {
    if data != [] { UntouchedColumns(cells, data[..|data| - 1], c); }
  }

  lemma {:induction false} SetsAgree(cells: Cells, data: seq<Entry>)
    requires TypedData(data) && CompileSets(data).Some?
    ensures Assign(cells, CompileSets(data).value) == Some(UpdateData(cells, data))
  {
    if data != [] {
      var front, last := data[..|data| - 1], data[|data| - 1];
      SetsAgree(cells, front);
      var sets := CompileSets(data).value;
      if last.1.Undefined? {
        assert sets == CompileSets(front).value;
      } else {
        EntryStores(last, cells);
        UntouchedColumns(cells, front, last.0);
        assert sets[..|sets| - 1] == CompileSets(front).value;
      }
    }
  }

  lemma {:induction false} ConjunctionAppend(a: seq<Clause>, b: seq<Clause>, cells: Cells)
    ensures Conjunction(a + b, cells).Yes? <==> Conjunction(a, cells).Yes? && Conjunction(b, cells).Yes?
  {
    if b == [] {
      assert a + b == a;
    } else {
      assert (a + b)[..|a + b| - 1] == a + b[..|b| - 1];
      ConjunctionAppend(a, b[..|b| - 1], cells);
    }
  }

  lemma FieldAgrees(cells: Cells, c: Column, field: (Operator, Value), others: OtherFilters)
    requires CompileField(c, field).Some?
    ensures Conjunction(CompileField(c, field).value, cells).Yes? <==> FieldMatches(c, Read(cells, c), field, others)
  {
    SingleClause(CompileField(c, field).value[0], cells);
  }

  lemma {:induction false} FieldsAgree(cells: Cells, c: Column, fields: seq<(Operator, Value)>, others: OtherFilters)
    requires CompileFields(c, fields).Some?
    ensures Conjunction(CompileFields(c, fields).value, cells).Yes? <==> Matches(c, Read(cells, c), Object(fields), others)
  {
    if fields != [] {
      var front, last := fields[..|fields| - 1], fields[|fields| - 1];
      FieldsAgree(cells, c, front, others);
      FieldAgrees(cells, c, last, others);
      ConjunctionAppend(CompileFields(c, front).value, CompileField(c, last).value, cells);
    }
  }

  lemma SingleClause(g: Clause, cells: Cells)
    ensures Conjunction([g], cells) == Evaluate(g, cells)
  {
    assert [g][..0] == [];
  }

  lemma ConditionAgrees(cells: Cells, c: Column, cond: Value, others: OtherFilters)
    requires CompileCondition(c, cond).Some?
    ensures Conjunction(CompileCondition(c, cond).value, cells).Yes? <==> Matches(c, Read(cells, c), cond, others)
  {
    if IsGuardTimestamp(c) {
      FieldsAgree(cells, c, cond.fields, others);
    } else {
      SingleClause(CompileCondition(c, cond).value[0], cells);
    }
  }

  /** The SQL guard, in three-valued logic, selects exactly the rows the filter admits. */
  lemma {:induction false} GuardsAgree(cells: Cells, guard: seq<Entry>, others: OtherFilters)
    requires CompileGuard(guard).Some?
    ensures Conjunction(CompileGuard(guard).value, cells).Yes? <==> Admits(cells, guard, others)
  {
    if guard != [] {
      var front, last := guard[..|guard| - 1], guard[|guard| - 1];
      GuardsAgree(cells, front, others);
      ConditionAgrees(cells, last.0, last.1, others);
      ConjunctionAppend(CompileGuard(front).value, CompileCondition(last.0, last.1).value, cells);
      assert forall i :: 0 <= i < |front| ==> front[i] == guard[i];
    }
  }

  lemma OneRowEach(q: Statement, row: Row)
    ensures var event := EventRow(q.eventId, q.jobId, q.from, q.to, q.name, q.actor);
      InsertEvents(q, [row]) == [event] && InsertOutbox(q, [event]) == [OutboxRow(q.outboxId, q.eventId, q.jobId)]
  {
    assert [row][1..] == [];
    var event := EventRow(q.eventId, q.jobId, q.from, q.to, q.name, q.actor);
    assert [event][1..] == [];
  }

  /**
   * Whenever the compiler accepts the data and the guard, its one statement never errs and leaves the
   * same job row, the same single audit event and the same single outbox row as the transaction path,
   * and nothing at all when the conditional update matches no row.
   */
  lemma FastPathAgrees(db: Db, rq: Request, to: JobStatus, env: Env, others: OtherFilters)
    requires TypedData(rq.data) && FastPath(rq, to, env).Some?
    ensures var (after, outcome) := TransactionPath(db, rq, to, env, others);
      Execute(db, FastPath(rq, to, env).value) == Some((after, if outcome.Moved? then [outcome.row] else []))
  {
    hide Assign, UpdateData, CompileSets, CompileGuard, Conjunction, Admits, TypedData;
    if rq.jobId in db.jobs {
      var cells := db.jobs[rq.jobId].cells;
      GuardsAgree(cells, GuardOf(rq), others);
      SetsAgree(cells, rq.data);
      OneRowEach(FastPath(rq, to, env).value, Row(to, env.now, UpdateData(cells, rq.data)));
    }
  }

  /** A guard or a datum outside the listed shapes is never half-translated: one of them refuses the whole. */
  lemma {:induction false} RefusalIsWhole(data: seq<Entry>, i: nat)
    requires i < |data|
    ensures CompileEntry(data[i]).None? ==> CompileSets(data).None?
  {
    if i < |data| - 1 { RefusalIsWhole(data[..|data| - 1], i); }
  }

  // ---------- what a status change does ----------

  /** A transition always changes the status, so of two calls that expect the same status only the first wins. */
  lemma OnlyOneWins(db: Db, first: Request, e1: Env, second: Request, e2: Env, others: OtherFilters)
    requires TypedData(first.data) && TypedData(second.data)
    requires first.jobId == second.jobId && first.from == second.from
    requires Transitioned(db, first, e1, others).1.Moved?
    ensures var after := Transitioned(db, first, e1, others).0;
      !Transitioned(after, second, e2, others).1.Moved? && Transitioned(after, second, e2, others).0 == after
  {
  }

  /**
   * Over a whole run of calls that expect one status of one job, from any number of callers, at most one wins.
   */
  lemma {:induction false} OneWinnerPerStatus(db: Db, calls: seq<Call>, others: OtherFilters, jobId: string, from: JobStatus)
    requires TypedCalls(calls)
    requires forall i :: 0 <= i < |calls| ==> calls[i].rq.jobId == jobId && calls[i].rq.from == from
    ensures var after := Run(db, calls, others);
      && (after == db || (|after.events| == |db.events| + 1 && |after.outbox| == |db.outbox| + 1
                          && jobId in after.jobs && after.jobs[jobId].status != from))
  {
    if calls != [] { OneWinnerPerStatus(db, calls[..|calls| - 1], others, jobId, from); }
  }

  /** A winner moves exactly one job, to the status the table names, and touches only the columns it was given. */
  lemma WinnerTouchesOnlyItsColumns(db: Db, rq: Request, env: Env, others: OtherFilters, c: Column)
    requires TypedData(rq.data) && Transitioned(db, rq, env, others).1.Moved?
    ensures var after := Transitioned(db, rq, env, others).0;
      && after.jobs.Keys == db.jobs.Keys
      && (forall j :: j in db.jobs && j != rq.jobId ==> after.jobs[j] == db.jobs[j])
      && Some(after.jobs[rq.jobId].status) == Transition(db.jobs[rq.jobId].status, rq.event)
      && ((forall i :: 0 <= i < |rq.data| ==> rq.data[i].0 != c || rq.data[i].1.Undefined?) ==>
            Read(after.jobs[rq.jobId].cells, c) == Read(db.jobs[rq.jobId].cells, c))
  {
    if forall i :: 0 <= i < |rq.data| ==> rq.data[i].0 != c || rq.data[i].1.Undefined? {
      UntouchedColumns(db.jobs[rq.jobId].cells, rq.data, c);
    }
  }

  // ---------- which call wins, what it writes, which path it takes ----------

  const TEXT_COLUMNS := {AssignedPrinterId, ClaimedByAgentId, ClaimedBySessionId, ReleaseCodeDigest, ReleaseCodeEncrypted,
                         PrintConfirmedById, PrintError, PaymentId, PaymentProvider, OtpHash, OtpCode, AbsentReason,
                         CounterPaymentConfirmedById, CounterPaymentReference}

  const ENUM_COLUMNS := {PaymentStatusColumn, CounterPaymentMethodColumn, PrintCompletionMethodColumn}

  const COUNTERS := {CheckInCount, PrintAttempts}

  /** A scalar the listed column can hold; every other listed column than those named here is a timestamp. */
  predicate Holds(c: Column, v: Value) {
    match v
    case Null => c !in COUNTERS + {PaymentStatusColumn}
    case Text(text) =>
      c in TEXT_COLUMNS
      || (c == PaymentStatusColumn && text in ["pending", "counter_due", "cash_due", "paid", "refunding", "refunded", "failed"])
      || (c == CounterPaymentMethodColumn && text in ["cash", "shop_upi"])
      || (c == PrintCompletionMethodColumn && text in ["simulator", "staff_confirmed"])
    case Whole(_) => c in COUNTERS + {CounterPaymentAmountPaise}
    case When(_) => c !in TEXT_COLUMNS + ENUM_COLUMNS + COUNTERS + {CounterPaymentAmountPaise}
    case _ => false
  }

  /** What the data's type admits for a listed column: a scalar it can hold, also behind `set`, or a whole increment of a number. */
  lemma TypesAdmit(c: Column, v: Value)
    requires !c.Unlisted?
    ensures !v.Object? && !v.Undefined? ==> (Typed(c, v) <==> Holds(c, v))
    ensures v.Object? && |v.fields| == 1 && v.fields[0].0 == OpIncrement ==>
      (Typed(c, v) <==> v.fields[0].1.Whole? && c in COUNTERS + {CounterPaymentAmountPaise})
    ensures v.Object? && |v.fields| == 1 && v.fields[0].0 == OpSet && !v.fields[0].1.Undefined? ==> (Typed(c, v) <==> Holds(c, v.fields[0].1))
  {
    ColumnsSplit(c);
    if v.Object? && |v.fields| == 1 && v.fields[0].0 == OpSet && !v.fields[0].1.Undefined? { ScalarsAdmit(c, v.fields[0].1); }
    ScalarsAdmit(c, v);
  }

  lemma ColumnsSplit(c: Column)
    requires !c.Unlisted?
    ensures SchemaType(c)
      == if c in TEXT_COLUMNS then SqlText
         else if c == PaymentStatusColumn then SqlEnum(PaymentStatus)
         else if c == CounterPaymentMethodColumn then SqlEnum(CounterPaymentMethod)
         else if c == PrintCompletionMethodColumn then SqlEnum(PrintCompletionMethod)
         else if c in COUNTERS + {CounterPaymentAmountPaise} then SqlInteger
         else SqlTimestamp
  {
    match c
    case _ =>
  }

  lemma ScalarsAdmit(c: Column, v: Value)
    requires !c.Unlisted?
    ensures !v.Object? && !v.Undefined? ==> (Typed(c, v) <==> Holds(c, v))
  {
    ColumnsSplit(c);
  }

  /** `not NULL` and `lte` an instant, the two bounds a guard uses. */
  predicate PlainField(f: (Operator, Value)) { f == (OpNot, Null) || (f.0 == OpLte && f.1.When?) }

  predicate FieldPasses(cell: Cell, f: (Operator, Value)) {
    if f.0 == OpNot then cell != NullCell else f.1.When? && cell.TimeCell? && cell.at <= f.1.at
  }

  /** The single filters a guard uses, on the cell. */
  predicate Passes(cell: Cell, filter: Value) {
    match filter
    case Null => cell == NullCell
    case Text(text) => cell == TextCell(text)
    case Object(fields) =>
forall i :: 0 <= i < |fields| ==> FieldPasses(cell, fields[i])
    case _ => false
  }

  /** The guards the fast path translates: text or NULL of a claim column, NULL of the acknowledgement, bounds of a reveal column. */
  predicate PlainGuard(e: Entry) {
    (e.0 in {ClaimedByAgentId, ClaimedBySessionId} && (e.1.Null? || e.1.Text?))
    || (e.0 == SpoolAcceptedAt && e.1.Null?)
    || (e.0 in {RevealedAt, RevealDeadlineAt} && e.1.Object? && forall f :: f in e.1.fields ==> PlainField(f))
  }

  lemma {:induction false} FieldsPass(c: Column, cell: Cell, fields: seq<(Operator, Value)>, others: OtherFilters)
    requires forall f :: f in fields ==> PlainField(f)
    ensures FieldsMatch(c, cell, fields, others) <==> Passes(cell, Object(fields))
  {
    hide PlainField, FieldPasses, FieldMatches;
    if fields != [] {
      var front, last := fields[..|fields| - 1], fields[|fields| - 1];
      assert last in fields && forall f :: f in front ==> f in fields;
      FieldsPass(c, cell, front, others);
      FieldPass(c, cell, last, others);
      assert forall i :: 0 <= i < |front| ==> front[i] == fields[i];
    }
  }

  lemma FieldPass(c: Column, cell: Cell, f: (Operator, Value), others: OtherFilters)
    requires PlainField(f)
    ensures FieldMatches(c, cell, f, others) <==> FieldPasses(cell, f)
  {
  }

  lemma PlainGuardPasses(e: Entry, cell: Cell, others: OtherFilters)
    requires PlainGuard(e)
    ensures Matches(e.0, cell, e.1, others) <==> Passes(cell, e.1)
  {
    if e.1.Object? { FieldsPass(e.0, cell, e.1.fields, others); }
  }

  /**
   * Which call wins, exactly, for guards of the plain shapes: the event leaves the expected status, the job has it, and its
   * row passes every guard. It then adds one audit event and one outbox row for it; any other call writes nothing.
   */
  lemma WinsIff(db: Db, rq: Request, env: Env, others: OtherFilters)
    requires TypedData(rq.data) && (rq.guard.Some? ==> forall i :: 0 <= i < |rq.guard.value| ==> PlainGuard(rq.guard.value[i]))
    ensures var (after, outcome) := Transitioned(db, rq, env, others);
      var name := match rq.auditEvent case Some(text) => Audit(text) case None => Own(rq.event);
      && (outcome.InvalidTransition? <==> rq.from !in Sources(rq.event))
      && (outcome.Moved? <==>
            rq.from in Sources(rq.event) && rq.jobId in db.jobs && db.jobs[rq.jobId].status == rq.from
            && (rq.guard.Some? ==> forall i :: 0 <= i < |rq.guard.value| ==>
                  Passes(Read(db.jobs[rq.jobId].cells, rq.guard.value[i].0), rq.guard.value[i].1)))
      && (outcome.Moved? ==>
            after.events == db.events + [EventRow(env.eventId, rq.jobId, rq.from, Target(rq.event), name, rq.actor)]
            && after.outbox == db.outbox + [OutboxRow(env.outboxId, env.eventId, rq.jobId)]
            && after.jobs == db.jobs[rq.jobId := outcome.row] && outcome.row.status == Target(rq.event) && outcome.row.updatedAt == env.now)
      && (!outcome.Moved? ==> after == db)
  {
    hide Matches, Passes, PlainGuard, UpdateData, TypedData, Transition;
    EventHasOneTarget(rq.from, rq.event);
    if rq.jobId in db.jobs && rq.guard.Some? {
      var cells := db.jobs[rq.jobId].cells;
      forall i | 0 <= i < |rq.guard.value|
        ensures Matches(rq.guard.value[i].0, Read(cells, rq.guard.value[i].0), rq.guard.value[i].1, others)
           <==> Passes(Read(cells, rq.guard.value[i].0), rq.guard.value[i].1)
      {
        PlainGuardPasses(rq.guard.value[i], Read(cells, rq.guard.value[i].0), others);
      }
    }
  }

  /** The cell a scalar leaves in a listed column. */
  function CellOf(c: Column, v: Value): Cell {
    match v
    case Text(text) =>
      if c == PaymentStatusColumn then EnumCell(PaymentStatus, text)
      else if c == CounterPaymentMethodColumn then EnumCell(CounterPaymentMethod, text)
      else if c == PrintCompletionMethodColumn then EnumCell(PrintCompletionMethod, text)
      else TextCell(text)
    case Whole(n) => IntCell(n)
    case When(at) => TimeCell(at)
    case _ => NullCell
  }

  lemma {:induction false} GivenColumn(cells: Cells, data: seq<Entry>, i: nat)
    requires TypedData(data) && i < |data| && !data[i].1.Undefined?
    ensures Read(UpdateData(cells, data), data[i].0) == Updated(data[i].0, Read(cells, data[i].0), data[i].1)
  {
    hide Updated, Typed;
    var front, last := data[..|data| - 1], data[|data| - 1];
    assert TypedData(front);
    if i < |front| {
      GivenColumn(cells, front, i);
      assert front[i] == data[i];
    } else {
      UntouchedColumns(cells, front, last.0);
    }
  }

  /** What a winner writes into a listed column it was given: the scalar itself, or a counter plus the increment. */
  lemma WinnerWrites(db: Db, rq: Request, env: Env, others: OtherFilters, i: nat)
    requires TypedData(rq.data) && Transitioned(db, rq, env, others).1.Moved? && i < |rq.data|
    requires !rq.data[i].0.Unlisted? && !rq.data[i].1.Undefined?
    ensures var (c, v) := rq.data[i];
      var before, after := Read(db.jobs[rq.jobId].cells, c), Read(Transitioned(db, rq, env, others).0.jobs[rq.jobId].cells, c);
      && (!v.Object? ==> after == CellOf(c, v))
      && (v.Object? && v.fields[0].0 == OpSet && !v.fields[0].1.Undefined? ==> after == CellOf(c, v.fields[0].1))
      && (v.Object? && v.fields[0].0 == OpIncrement && before.IntCell? ==> after == IntCell(before.n + v.fields[0].1.n))
  {
    hide UpdateData, Admits, Transition;
    var (c, v) := rq.data[i];
    GivenColumn(db.jobs[rq.jobId].cells, rq.data, i);
    if v.Object? {
      if v.fields[0].0 == OpSet && !v.fields[0].1.Undefined? { ScalarUpdated(c, Read(db.jobs[rq.jobId].cells, c), v.fields[0].1); }
    } else {
      ScalarUpdated(c, Read(db.jobs[rq.jobId].cells, c), v);
    }
  }

  lemma ScalarUpdated(c: Column, before: Cell, v: Value)
    requires Typed(c, v) && !c.Unlisted? && !v.Object? && !v.Undefined?
    ensures Updated(c, before, v) == CellOf(c, v)
  {
    ColumnsSplit(c);
  }

  /** The data the fast path translates: left out, or of a listed column and a value of its type; a counter only as a whole increment. */
  predicate PlainDatum(e: Entry) {
    e.1.Undefined?
    || (!e.0.Unlisted?
        && (if e.0 in COUNTERS then e.1.Object? && FieldOf(e.1, OpIncrement).Whole?
            else e.1.Null?
                 || (e.1.Text? && e.0 in TEXT_COLUMNS + ENUM_COLUMNS)
                 || (e.1.Whole? && e.0 == CounterPaymentAmountPaise)
                 || (e.1.When? && e.0 !in TEXT_COLUMNS + ENUM_COLUMNS + {CounterPaymentAmountPaise})))
  }

  lemma DatumCompiles(e: Entry)
    ensures CompileEntry(e).Some? <==> PlainDatum(e)
  {
    if !e.0.Unlisted? { KindsSplit(e.0); }
  }

  lemma KindsSplit(c: Column)
    requires !c.Unlisted?
    ensures FastKind(c)
      == Some(if c in TEXT_COLUMNS then TextKind
              else if c == PaymentStatusColumn then EnumKind(PaymentStatus)
              else if c == CounterPaymentMethodColumn then EnumKind(CounterPaymentMethod)
              else if c == PrintCompletionMethodColumn then EnumKind(PrintCompletionMethod)
              else if c in COUNTERS then IncrementKind
              else if c == CounterPaymentAmountPaise then IntKind
              else TimestampKind)
  {
    match c
    case _ =>
  }

  lemma {:induction false} FieldsCompile(c: Column, fields: seq<(Operator, Value)>)
    ensures CompileFields(c, fields).Some? <==> forall f :: f in fields ==> PlainField(f)
  {
    hide CompileField, PlainField;
    if fields != [] {
      var front, last := fields[..|fields| - 1], fields[|fields| - 1];
      FieldsCompile(c, front);
      FieldCompiles(c, last);
      assert fields == front + [last];
    }
  }

  lemma FieldCompiles(c: Column, f: (Operator, Value))
    ensures CompileField(c, f).Some? <==> PlainField(f)
  {
  }

  lemma {:induction false} EntriesCompile(data: seq<Entry>, guard: seq<Entry>)
    ensures CompileSets(data).Some? <==> forall e :: e in data ==> PlainDatum(e)
    ensures CompileGuard(guard).Some? <==> forall e :: e in guard ==> PlainGuard(e)
    decreases |data| + |guard|
  {
    hide CompileEntry, PlainDatum, CompileCondition, PlainGuard;
    if data != [] {
      var front, last := data[..|data| - 1], data[|data| - 1];
      EntriesCompile(front, []);
      DatumCompiles(last);
      assert data == front + [last];
    }
    if guard != [] {
      var front, last := guard[..|guard| - 1], guard[|guard| - 1];
      EntriesCompile([], front);
      ConditionCompiles(last);
      assert guard == front + [last];
    }
  }

  lemma ConditionCompiles(e: Entry)
    ensures CompileCondition(e.0, e.1).Some? <==> PlainGuard(e)
  {
    if e.1.Object? { FieldsCompile(e.0, e.1.fields); }
  }

  /** A call takes the one-statement path exactly when all its data and all its guards are of the plain shapes. */
  lemma FastPathTakenIff(rq: Request, to: JobStatus, env: Env)
    ensures FastPath(rq, to, env).Some?
      <==> (forall e :: e in rq.data ==> PlainDatum(e)) && (rq.guard.Some? ==> forall e :: e in rq.guard.value ==> PlainGuard(e))
  {
    hide PlainDatum, PlainGuard, CompileSets, CompileGuard;
    EntriesCompile(rq.data, if rq.guard.Some? then rq.guard.value else []);
  }

  // ---------- the audit trail over whole runs ----------

  datatype Call = Call(rq: Request, env: Env)

  predicate TypedCalls(calls: seq<Call>) { forall i :: 0 <= i < |calls| ==> TypedData(calls[i].rq.data) }

  function Run(db: Db, calls: seq<Call>, others: OtherFilters): Db
    requires TypedCalls(calls)
  {
    if calls == [] then db
    else Transitioned(Run(db, calls[..|calls| - 1], others), calls[|calls| - 1].rq, calls[|calls| - 1].env, others).0
  }

  /** One job's audit events, oldest first. */
  function TrailOf(events: seq<EventRow>, jobId: string): seq<EventRow> {
    if events == [] then []
    else
      var front := TrailOf(events[..|events| - 1], jobId);
      if events[|events| - 1].jobId == jobId then front + [events[|events| - 1]] else front
  }

  predicate Legal(from: JobStatus, to: JobStatus) { exists e: JobEvent :: Transition(from, e) == Some(to) }

  /** The events read as a path of the state machine from one status to another. */
  predicate Explains(trail: seq<EventRow>, from: JobStatus, to: JobStatus) {
    if trail == [] then from == to
    else
      var last := trail[|trail| - 1];
      last.toStatus == to && Legal(last.fromStatus, to) && Explains(trail[..|trail| - 1], from, last.fromStatus)
  }

  predicate Mirrored(events: seq<EventRow>, outbox: seq<OutboxRow>) {
    |outbox| == |events| && forall i :: 0 <= i < |events| ==> outbox[i].jobEventId == events[i].id && outbox[i].jobId == events[i].jobId
  }

  /**
   * From an empty log, every run of status changes leaves each job a trail that explains its status
   * step by step, and an outbox with exactly one row per event.
   */
  lemma {:induction false} TrailExplainsStatus(db: Db, calls: seq<Call>, others: OtherFilters, jobId: string)
    requires TypedCalls(calls) && db.events == [] && db.outbox == [] && jobId in db.jobs
    ensures var after := Run(db, calls, others);
      && jobId in after.jobs && Mirrored(after.events, after.outbox)
      && Explains(TrailOf(after.events, jobId), db.jobs[jobId].status, after.jobs[jobId].status)
  {
    hide Transitioned, Explains, Mirrored, TrailOf;
    if calls == [] {
      NothingToExplain(db, jobId);
    } else {
      var before := Run(db, calls[..|calls| - 1], others);
      TrailExplainsStatus(db, calls[..|calls| - 1], others, jobId);
      TransitionExtendsTrail(before, calls[|calls| - 1].rq, calls[|calls| - 1].env, others, jobId, db.jobs[jobId].status);
    }
  }

  lemma NothingToExplain(db: Db, jobId: string)
    requires db.events == [] && db.outbox == [] && jobId in db.jobs
    ensures Mirrored(db.events, db.outbox) && Explains(TrailOf(db.events, jobId), db.jobs[jobId].status, db.jobs[jobId].status)
  {
  }

  lemma TransitionExtendsTrail(before: Db, rq: Request, env: Env, others: OtherFilters, jobId: string, start: JobStatus)
    requires TypedData(rq.data) && jobId in before.jobs && Mirrored(before.events, before.outbox)
    requires Explains(TrailOf(before.events, jobId), start, before.jobs[jobId].status)
    ensures var after := Transitioned(before, rq, env, others).0;
      && jobId in after.jobs && Mirrored(after.events, after.outbox)
      && Explains(TrailOf(after.events, jobId), start, after.jobs[jobId].status)
  {
    hide Admits, UpdateData, TypedData, Transition, Explains, TrailOf, Mirrored;
    var after := Transitioned(before, rq, env, others).0;
    if after != before {
      var added := EventRow(env.eventId, rq.jobId, rq.from, after.jobs[rq.jobId].status, NameOf(rq), rq.actor);
      MirrorOneMore(before.events, before.outbox, added, OutboxRow(env.outboxId, env.eventId, rq.jobId));
      TrailOneMore(before.events, added, jobId, start, before.jobs[jobId].status, rq.event);
    }
  }

  lemma MirrorOneMore(events: seq<EventRow>, outbox: seq<OutboxRow>, added: EventRow, row: OutboxRow)
    requires Mirrored(events, outbox) && row.jobEventId == added.id && row.jobId == added.jobId
    ensures Mirrored(events + [added], outbox + [row])
  {
  }

  lemma TrailOneMore(events: seq<EventRow>, added: EventRow, jobId: string, start: JobStatus, now: JobStatus, event: JobEvent)
    requires Explains(TrailOf(events, jobId), start, now)
    requires added.jobId == jobId ==> added.fromStatus == now && Transition(now, event) == Some(added.toStatus)
    ensures Explains(TrailOf(events + [added], jobId), start, if added.jobId == jobId then added.toStatus else now)
  {
    hide Transition;
    assert (events + [added])[..|events|] == events;
    var front := TrailOf(events, jobId);
    assert (front + [added])[..|front|] == front;
  }

  // ---------- the code in its own form ----------

  lemma {:induction false} SetsPrefix(data: seq<Entry>, i: nat)
    requires i <= |data| && CompileSets(data[..i]).None?
    ensures CompileSets(data).None?
  {
    if i == |data| {
      assert data[..i] == data;
    } else {
      assert data[..|data| - 1][..i] == data[..i];
      SetsPrefix(data[..|data| - 1], i);
    }
  }

  lemma {:induction false} GuardPrefix(guard: seq<Entry>, i: nat)
    requires i <= |guard| && CompileGuard(guard[..i]).None?
    ensures CompileGuard(guard).None?
  {
    if i == |guard| {
      assert guard[..i] == guard;
    } else {
      assert guard[..|guard| - 1][..i] == guard[..i];
      GuardPrefix(guard[..|guard| - 1], i);
    }
  }

  lemma {:induction false} FieldsPrefix(c: Column, fields: seq<(Operator, Value)>, i: nat)
    requires i <= |fields| && CompileFields(c, fields[..i]).None?
    ensures CompileFields(c, fields).None?
  {
    if i == |fields| {
      assert fields[..i] == fields;
    } else {
      assert fields[..|fields| - 1][..i] == fields[..i];
      FieldsPrefix(c, fields[..|fields| - 1], i);
    }
  }

  method TimestampClauses(c: Column, fields: seq<(Operator, Value)>) returns (out: Option<seq<Clause>>)
    ensures out == CompileFields(c, fields)
  {
    var clauses: seq<Clause> := [];
    for i := 0 to |fields|
      invariant CompileFields(c, fields[..i]) == Some(clauses)
    {
      assert fields[..i + 1][..i] == fields[..i];
      var (op, operand) := fields[i];
      if op.OpNot? && operand.Null? {
        clauses := clauses + [IsNotNull(c)];
      } else if op.OpLte? && operand.When? {
        clauses := clauses + [AtMost(c, operand.at)];
      } else {
        FieldsPrefix(c, fields, i + 1);
        return None;
      }
    }
    assert fields[..|fields|] == fields;
    out := Some(clauses);
  }

  method GuardClauses(guard: Option<seq<Entry>>) returns (out: Option<seq<Clause>>)
    ensures out == CompileGuard(if guard.Some? then guard.value else [])
  {
    if guard.None? { return Some([]); }
    var conds := guard.value;
    var clauses: seq<Clause> := [];
    for i := 0 to |conds|
      invariant CompileGuard(conds[..i]) == Some(clauses)
    {
      assert conds[..i + 1][..i] == conds[..i];
      var (column, cond) := conds[i];
      if IsGuardText(column) && (cond.Null? || cond.Text?) {
        clauses := clauses + [if cond.Null? then IsNull(column) else EqualsText(column, cond.text)];
      } else if IsGuardNullOnly(column) && cond.Null? {
        clauses := clauses + [IsNull(column)];
      } else if !IsGuardTimestamp(column) || !cond.Object? {
        GuardPrefix(conds, i + 1);
        return None;
      } else {
        var more := TimestampClauses(column, cond.fields);
        if more.None? {
          GuardPrefix(conds, i + 1);
          return None;
        }
        clauses := clauses + more.value;
      }
    }
    assert conds[..|conds|] == conds;
    out := Some(clauses);
  }

  method FastPathSql(rq: Request, to: JobStatus, env: Env) returns (statement: Option<Statement>)
    ensures statement == FastPath(rq, to, env)
  {
    var sets: seq<Assignment> := [];
    for i := 0 to |rq.data|
      invariant CompileSets(rq.data[..i]) == Some(sets)
    {
      assert rq.data[..i + 1][..i] == rq.data[..i];
      var (column, value) := rq.data[i];
      if value.Undefined? {
        assert sets + [] == sets;
        continue;
      }
      var kind := FastKind(column);
      var clause := if kind.Some? then SetClause(column, kind.value, value) else None;
      if clause.None? {
        SetsPrefix(rq.data, i + 1);
        return None;
      }
      sets := sets + [clause.value];
    }
    assert rq.data[..|rq.data|] == rq.data;
    var guards := GuardClauses(rq.guard);
    if guards.None? { return None; }
    statement := Some(Statement(rq.jobId, rq.from, to, sets, env.now, guards.value, NameOf(rq), rq.actor, env.eventId, env.outboxId));
  }

  /** The job, event and outbox tables. */
  class JobTables {
    var jobs: map<string, Row>
    var events: seq<EventRow>
    var outbox: seq<OutboxRow>

    function Tables(): Db
      reads this
    {
      Db(jobs, events, outbox)
    }

    /** Whichever path runs, the tables and the answer are the transaction path's. */
    method ApplyTransition(rq: Request, env: Env, others: OtherFilters) returns (outcome: Outcome)
      requires TypedData(rq.data)
      modifies this
      ensures (Tables(), outcome) == Transitioned(old(Tables()), rq, env, others)
    {
      var target := Transition(rq.from, rq.event);
      if target.None? { return InvalidTransition; }
      var to := target.value;
      var fast := FastPathSql(rq, to, env);
      if fast.Some? {
        FastPathAgrees(Tables(), rq, to, env, others);
        var (after, returned) := Execute(Tables(), fast.value).value;
        jobs, events, outbox := after.jobs, after.events, after.outbox;
        if returned == [] { return LostRace; }
        return Moved(returned[0]);
      }
      if rq.jobId !in jobs || jobs[rq.jobId].status != rq.from || !Admits(jobs[rq.jobId].cells, GuardOf(rq), others) {
        return LostRace;
      }
      var row := Row(to, env.now, UpdateData(jobs[rq.jobId].cells, rq.data));
      jobs := jobs[rq.jobId := row];
      events := events + [EventRow(env.eventId, rq.jobId, rq.from, to, NameOf(rq), rq.actor)];
      outbox := outbox + [OutboxRow(env.outboxId, env.eventId, rq.jobId)];
      outcome := Moved(row);
    }
  }
}
