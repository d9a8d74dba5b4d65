/**
 * The cleaning loop: tasks, the rooms they drive, and the redo a failed inspection raises. Tasks are
 * numbered in insertion order. `redo` is a history of which task was raised for which rejected one;
 * the tables keep that link only in the redo's free-text notes.
 */
module Housekeeping {
  import opened Common
  import opened Decimal

  type RoomId = nat
  type StaffId = nat

  datatype TaskType = CheckoutClean | Stayover | DeepClean | AreaClean | Custom
  datatype Priority = Low | Normal | High
  datatype Status = Pending | InProgress | Completed | Inspected | Rejected
  datatype RoomStatus = Available | Occupied | Dirty | Cleaning | InspectedRoom | Ready | Maintenance | OutOfOrder

  datatype Room = Room(propertyId: string, status: RoomStatus)

  datatype Task = Task(
    propertyId: string, roomId: Option<RoomId>, area: Option<string>, taskType: TaskType, status: Status, priority: Priority,
    guestRequest: Option<string>, notes: Option<string>, assignee: Option<StaffId>, createdBy: Option<StaffId>)

  datatype Board = Board(rooms: map<RoomId, Room>, staff: map<StaffId, string>, tasks: seq<Task>, redo: map<nat, nat>)

  datatype Error = LocationRequired | RoomNotFound | StaffNotFound | TaskNotFound | NotYourTask | InvalidTransition

  datatype Result<+T> = Ok(value: T) | Err(error: Error)

  // ---------- The transition map ----------

  function Transitions(from: Status): seq<Status> {
    match from
    case Pending => [InProgress]
    case InProgress => [Completed]
    case Completed => [Inspected, Rejected]
    case Inspected => []
    case Rejected => []
  }

  predicate CanTransition(from: Status, to: Status) {
    to in Transitions(from)
  }

  predicate IsOpen(s: Status) {
    s == Pending || s == InProgress || s == Completed
  }

  /** Where a task's move sends its room. */
  function RoomStatusAfter(to: Status): RoomStatus
    requires to != Pending
  {
    match to
    case InProgress => Cleaning
    case Completed => InspectedRoom
    case Inspected => Ready
    case Rejected => Dirty
  }

  // ---------- Calls ----------

  datatype Actor = Actor(id: StaffId, isSupervisor: bool)

  datatype CreateInput = CreateInput(
    roomId: Option<RoomId>, area: Option<string>, taskType: TaskType, priority: Option<Priority>,
    guestRequest: Option<string>, notes: Option<string>, assignee: Option<StaffId>)

  /** White space and line terminators, as `String.prototype.trim` strips them. */
  predicate IsSpace(c: char) {
    '\t' <= c <= '\r' || c == ' ' || c == '\U{00A0}' || c == '\U{1680}' || '\U{2000}' <= c <= '\U{200A}'
    || c == '\U{2028}' || c == '\U{2029}' || c == '\U{202F}' || c == '\U{205F}' || c == '\U{3000}' || c == '\U{FEFF}'
  }

  function Trim(s: string): (t: string)
    ensures t != "" ==> !IsSpace(t[0]) && !IsSpace(t[|t| - 1])
  {
    if s == "" then ""
    else if IsSpace(s[0]) then Trim(s[1..])
    else if IsSpace(s[|s| - 1]) then Trim(s[..|s| - 1])
    else s
  }

  /** All but the part between two positions is white space. */
  ghost predicate SpaceOutside(s: string, from: nat, to: nat) {
    forall i :: 0 <= i < |s| && !(from <= i < to) ==> IsSpace(s[i])
  }

  lemma SpaceBefore(s: string, from: nat, to: nat)
    requires s != "" && IsSpace(s[0]) && from <= to < |s| && SpaceOutside(s[1..], from, to)
    ensures SpaceOutside(s, from + 1, to + 1) && s[1..][from..to] == s[from + 1..to + 1]
  {
    hide IsSpace;
    forall i | 0 < i < |s| && !(from + 1 <= i < to + 1) ensures IsSpace(s[i]) {
      assert s[1..][i - 1] == s[i];
    }
  }

  lemma SpaceAfter(s: string, from: nat, to: nat)
    requires s != "" && IsSpace(s[|s| - 1]) && from <= to < |s| && SpaceOutside(s[..|s| - 1], from, to)
    ensures SpaceOutside(s, from, to) && s[..|s| - 1][from..to] == s[from..to]
  {
    hide IsSpace;
    forall i | 0 <= i < |s| - 1 && !(from <= i < to) ensures IsSpace(s[i]) {
      assert s[..|s| - 1][i] == s[i];
    }
  }

  /** Trimming cuts only white space, from the ends only. */
  lemma {:induction false} TrimCutsTheEnds(s: string) returns (from: nat, to: nat)
    ensures from <= to <= |s| && Trim(s) == s[from..to]
    ensures forall i :: 0 <= i < |s| && !(from <= i < to) ==> IsSpace(s[i])
  {
    hide IsSpace;
    if s == "" {
      return 0, 0;
    }
    if IsSpace(s[0]) {
      from, to := TrimCutsTheEnds(s[1..]);
      SpaceBefore(s, from, to);
      from, to := from + 1, to + 1;
    } else if IsSpace(s[|s| - 1]) {
      from, to := TrimCutsTheEnds(s[..|s| - 1]);
      SpaceAfter(s, from, to);
    } else {
      return 0, |s|;
    }
  }

  /** Some character that is not white space. */
  predicate HasText(s: Option<string>) {
    s.Some? && exists i :: 0 <= i < |s.value| && !IsSpace(s.value[i])
  }

  lemma TrimKeepsText(s: string)
    ensures Trim(s) != "" <==> HasText(Some(s))
  {
    var from, to := TrimCutsTheEnds(s);
    if Trim(s) != "" {
      assert !IsSpace(s[from]);
    }
  }

  /** What is left of a text when white space is cut from its ends, and nothing else. */
  ghost predicate CutOf(t: string, s: string) {
    && t != "" && !IsSpace(t[0]) && !IsSpace(t[|t| - 1])
    && exists from, to :: 0 <= from <= to <= |s| && t == s[from..to] && SpaceOutside(s, from, to)
  }

  lemma TrimIsCut(s: string)
    ensures Trim(s) != "" ==> CutOf(Trim(s), s)
  {
    var from, to := TrimCutsTheEnds(s);
    hide Trim, IsSpace;
  }

  /** The white space and line terminators of ECMAScript, one by one. */
  lemma SpacesOneByOne(c: char)
    ensures IsSpace(c) <==> c in {
      '\U{0009}', '\U{000A}', '\U{000B}', '\U{000C}', '\U{000D}', '\U{0020}', '\U{00A0}', '\U{1680}', '\U{2000}',
      '\U{2001}', '\U{2002}', '\U{2003}', '\U{2004}', '\U{2005}', '\U{2006}', '\U{2007}', '\U{2008}', '\U{2009}',
      '\U{200A}', '\U{2028}', '\U{2029}', '\U{202F}', '\U{205F}', '\U{3000}', '\U{FEFF}'}
  {}

  function Create(b: Board, p: string, input: CreateInput, actor: Actor): Result<Board> {
    var area := if input.area.Some? && Trim(input.area.value) != "" then Some(Trim(input.area.value)) else None;
    if input.roomId.Some? == area.Some? then Err(LocationRequired)
    else if input.roomId.Some? && !(input.roomId.value in b.rooms && b.rooms[input.roomId.value].propertyId == p) then Err(RoomNotFound)
    else if input.assignee.Some? && !(input.assignee.value in b.staff && b.staff[input.assignee.value] == p) then Err(StaffNotFound)
    else
      Ok(b.(tasks := b.tasks + [Task(p, input.roomId, area, input.taskType, Pending, input.priority.GetOr(Normal),
                                     input.guestRequest, input.notes, input.assignee, Some(actor.id))]))
  }

  /** Callers see their own property's tasks and no others. */
  predicate HasTask(b: Board, p: string, id: nat) {
    id < |b.tasks| && b.tasks[id].propertyId == p
  }

  /** Assigning asks nothing of the task's status. */
  function Assign(b: Board, p: string, id: nat, staffId: StaffId): Result<Board> {
    if !HasTask(b, p, id) then Err(TaskNotFound)
    else if !(staffId in b.staff && b.staff[staffId] == p) then Err(StaffNotFound)
    else Ok(b.(tasks := b.tasks[id := b.tasks[id].(assignee := Some(staffId))]))
  }

  predicate MayWork(t: Task, actor: Actor) {
    actor.isSupervisor || t.assignee.None? || t.assignee.value == actor.id
  }

  function SetRoom(rooms: map<RoomId, Room>, roomId: Option<RoomId>, status: RoomStatus): map<RoomId, Room> {
    if roomId.Some? && roomId.value in rooms then rooms[roomId.value := rooms[roomId.value].(status := status)] else rooms
  }

  /** A task moved and changed in place, its room following. */
  function MoveTask(b: Board, id: nat, t: Task): Board
    requires id < |b.tasks| && t.status != Pending
  {
    b.(tasks := b.tasks[id := t], rooms := SetRoom(b.rooms, t.roomId, RoomStatusAfter(t.status)))
  }

  /** Starting an unassigned task claims it. */
  function Start(b: Board, p: string, id: nat, actor: Actor): Result<Board> {
    if !HasTask(b, p, id) then Err(TaskNotFound)
    else if !MayWork(b.tasks[id], actor) then Err(NotYourTask)
    else if !CanTransition(b.tasks[id].status, InProgress) then Err(InvalidTransition)
    else Ok(MoveTask(b, id, b.tasks[id].(status := InProgress, assignee := Some(b.tasks[id].assignee.GetOr(actor.id)))))
  }

  function Complete(b: Board, p: string, id: nat, notes: Option<string>, actor: Actor): Result<Board> {
    if !HasTask(b, p, id) then Err(TaskNotFound)
    else if !MayWork(b.tasks[id], actor) then Err(NotYourTask)
    else if !CanTransition(b.tasks[id].status, Completed) then Err(InvalidTransition)
    else Ok(MoveTask(b, id, b.tasks[id].(status := Completed, notes := if notes.Some? then notes else b.tasks[id].notes)))
  }

  function Reason(notes: Option<string>): string {
    if Truthy(notes) then " — " + notes.value else ""
  }

  function RedoNote(id: nat, notes: Option<string>): string {
    "Re-clean after failed inspection of task " + ToDecimal(id) + Reason(notes)
  }

  /** The fresh task for the same work. */
  function RedoOf(t: Task, id: nat, notes: Option<string>, actor: Actor): Task {
    t.(status := Pending, notes := Some(RedoNote(id, notes)), createdBy := Some(actor.id))
  }

  function Inspect(b: Board, p: string, id: nat, pass: bool, notes: Option<string>, actor: Actor): Result<Board> {
    if !HasTask(b, p, id) then Err(TaskNotFound)
    else
      var before, to := b.tasks[id], if pass then Inspected else Rejected;
      if !CanTransition(before.status, to) then Err(InvalidTransition)
      else
        var moved := MoveTask(b, id, before.(status := to, notes := if notes.Some? then notes else before.notes));
        Ok(if pass then moved
           else moved.(tasks := moved.tasks + [RedoOf(before, id, notes, actor)], redo := b.redo[id := |b.tasks|]))
  }

  predicate OpenFor(t: Task, p: string, roomId: RoomId) {
    t.propertyId == p && t.roomId == Some(roomId) && IsOpen(t.status)
  }

  function TurnoverClean(p: string, roomId: RoomId, actor: Option<StaffId>): Task {
    Task(p, Some(roomId), None, CheckoutClean, Pending, Normal, None, Some("Auto-created on guest check-out"), None, actor)
  }

  /** Run on a check-out: adds a turnover clean where nothing is open for the room. The room is a foreign key. */
  function CheckoutHook(b: Board, p: string, roomId: RoomId, actor: Option<StaffId>): Result<Board> {
    if exists i :: 0 <= i < |b.tasks| && OpenFor(b.tasks[i], p, roomId) then Ok(b)
    else if roomId !in b.rooms then Err(RoomNotFound)
    else Ok(b.(tasks := b.tasks + [TurnoverClean(p, roomId, actor)]))
  }

  // ---------- Runs ----------

  datatype Op =
    | CreateTask(property: string, input: CreateInput, creator: Actor)
    | AssignTask(property: string, id: nat, staffId: StaffId)
    | StartTask(property: string, id: nat, actor: Actor)
    | CompleteTask(property: string, id: nat, notes: Option<string>, actor: Actor)
    | InspectTask(property: string, id: nat, pass: bool, notes: Option<string>, actor: Actor)
    | CheckOut(property: string, roomId: RoomId, staff: Option<StaffId>)

  function Attempt(b: Board, op: Op): Result<Board> {
    match op
    case CreateTask(p, input, actor) => Create(b, p, input, actor)
    case AssignTask(p, id, staffId) => Assign(b, p, id, staffId)
    case StartTask(p, id, actor) => Start(b, p, id, actor)
    case CompleteTask(p, id, notes, actor) => Complete(b, p, id, notes, actor)
    case InspectTask(p, id, pass, notes, actor) => Inspect(b, p, id, pass, notes, actor)
    case CheckOut(p, roomId, staff) => CheckoutHook(b, p, roomId, staff)
  }

  function Apply(b: Board, op: Op): Board {
    var r := Attempt(b, op);
    if r.Ok? then r.value else b
  }

  function Run(b: Board, ops: seq<Op>): Board
    decreases |ops|
  {
    if ops == [] then b else Run(Apply(b, ops[0]), ops[1..])
  }
}
