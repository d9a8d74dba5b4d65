/** Work is never lost: what every run of the cleaning loop keeps. */
module HousekeepingRuns {
  import opened Common
  import opened Rounding
  import opened Decimal
  import opened Housekeeping

  /** The same work: same place, kind and urgency. */
  predicate SameWork(t: Task, u: Task) {
    t.propertyId == u.propertyId && t.roomId == u.roomId && t.area == u.area && t.taskType == u.taskType && t.priority == u.priority
  }

  predicate TaskOk(t: Task) {
    && t.roomId.Some? != t.area.Some?
    && (t.status != Pending ==> t.assignee.Some?)
  }

  /** Exactly the rejected tasks have a redo, each its own, raised later, for the same work. */
  ghost predicate RedoOk(tasks: seq<Task>, redo: map<nat, nat>) {
    && (forall i :: 0 <= i < |tasks| ==> (tasks[i].status == Rejected <==> i in redo))
    && (forall i :: i in redo ==> i < redo[i] < |tasks| && SameWork(tasks[i], tasks[redo[i]]))
    && (forall i, j :: i in redo && j in redo && i != j ==> redo[i] != redo[j])
  }

  ghost predicate Consistent(b: Board) {
    (forall i :: 0 <= i < |b.tasks| ==> TaskOk(b.tasks[i])) && RedoOk(b.tasks, b.redo)
  }

  /** A task only moves forward along the map, and never changes what it is for. */
  predicate Advances(t: Task, u: Task) {
    SameWork(t, u) && Rank(t.status) <= Rank(u.status)
    && (t.status == Inspected || t.status == Rejected ==> u.status == t.status)
    && (t.assignee.Some? ==> u.assignee.Some?)
  }

  function Rank(s: Status): nat {
    match s
    case Pending => 0
    case InProgress => 1
    case Completed => 2
    case Inspected => 3
    case Rejected => 3
  }

  /** What a step may do to the list: change one task in place, and add at most one at the end. */
  ghost predicate Changes(b: Board, after: Board, id: int) {
    && |b.tasks| <= |after.tasks| <= |b.tasks| + 1
    && (forall i :: 0 <= i < |b.tasks| && i != id ==> after.tasks[i] == b.tasks[i])
    && (0 <= id < |b.tasks| ==> Advances(b.tasks[id], after.tasks[id]))
  }

  lemma InspectChanges(b: Board, p: string, id: nat, pass: bool, notes: Option<string>, actor: Actor)
    ensures Changes(b, Apply(b, InspectTask(p, id, pass, notes, actor)), id)
  {
    hide RedoNote, SetRoom;
  }

  lemma ApplyChanges(b: Board, op: Op) returns (id: int)
    ensures Changes(b, Apply(b, op), id)
  {
    hide Trim, RedoNote, SetRoom;
    id := if op.CreateTask? || op.CheckOut? then -1 else op.id;
    if op.InspectTask? {
      InspectChanges(b, op.property, op.id, op.pass, op.notes, op.actor);
    }
  }

  lemma ApplyAdvances(b: Board, op: Op, i: nat)
    requires i < |b.tasks|
    ensures i < |Apply(b, op).tasks| && Advances(b.tasks[i], Apply(b, op).tasks[i])
  {
    hide Apply;
    var _ := ApplyChanges(b, op);
  }

  /** Over any run every task keeps its work and only moves forward; an inspected or rejected one stays so. */
  lemma {:induction false} RunAdvances(b: Board, ops: seq<Op>, i: nat)
    requires i < |b.tasks|
    ensures i < |Run(b, ops).tasks| && Advances(b.tasks[i], Run(b, ops).tasks[i])
    decreases |ops|
  {
    hide Apply;
    if ops != [] {
      ApplyAdvances(b, ops[0], i);
      RunAdvances(Apply(b, ops[0]), ops[1..], i);
    }
  }

  /** Moving one task that is not rejected, to a status that is not rejected either, keeps the redo links. */
  lemma RedoKept(tasks: seq<Task>, redo: map<nat, nat>, id: nat, t: Task)
    requires RedoOk(tasks, redo) && id < |tasks| && SameWork(tasks[id], t)
    requires (t.status == Rejected) == (tasks[id].status == Rejected)
    ensures RedoOk(tasks[id := t], redo)
  {}

  lemma RedoKeptByAdding(tasks: seq<Task>, redo: map<nat, nat>, t: Task)
    requires RedoOk(tasks, redo) && t.status != Rejected
    ensures RedoOk(tasks + [t], redo)
  {
    var after := tasks + [t];
    assert forall i :: 0 <= i < |tasks| ==> after[i] == tasks[i];
  }

  lemma RedoRaised(tasks: seq<Task>, redo: map<nat, nat>, id: nat, t: Task, fresh': Task)
    requires RedoOk(tasks, redo) && id < |tasks| && tasks[id].status != Rejected
    requires SameWork(tasks[id], t) && t.status == Rejected && SameWork(tasks[id], fresh') && fresh'.status != Rejected
    ensures RedoOk(tasks[id := t] + [fresh'], redo[id := |tasks|])
  {
    var after, links := tasks[id := t] + [fresh'], redo[id := |tasks|];
    forall i | 0 <= i < |tasks| ensures after[i] == if i == id then t else tasks[i] {}
    forall i | i in links ensures i < links[i] < |after| && SameWork(after[i], after[links[i]]) {
      if i != id {
        assert SameWork(tasks[i], tasks[redo[i]]);
      }
    }
  }

  lemma TasksStayOk(b: Board, op: Op)
    requires forall i :: 0 <= i < |b.tasks| ==> TaskOk(b.tasks[i])
    ensures forall i :: 0 <= i < |Apply(b, op).tasks| ==> TaskOk(Apply(b, op).tasks[i])
  {
    hide Trim, RedoNote, SetRoom;
  }

  lemma InspectKeepsRedo(b: Board, p: string, id: nat, pass: bool, notes: Option<string>, actor: Actor)
    requires RedoOk(b.tasks, b.redo)
    ensures var after := Apply(b, InspectTask(p, id, pass, notes, actor)); RedoOk(after.tasks, after.redo)
  {
    hide RedoNote, RedoOk, SetRoom;
    var after := Apply(b, InspectTask(p, id, pass, notes, actor));
    if after != b {
      if pass {
        RedoKept(b.tasks, b.redo, id, after.tasks[id]);
      } else {
        RedoRaised(b.tasks, b.redo, id, after.tasks[id], RedoOf(b.tasks[id], id, notes, actor));
      }
    }
  }

  lemma ApplyKeepsRedo(b: Board, op: Op)
    requires RedoOk(b.tasks, b.redo)
    ensures RedoOk(Apply(b, op).tasks, Apply(b, op).redo)
  {
    hide Trim, RedoNote, RedoOk, SetRoom;
    var after := Apply(b, op);
    if op.InspectTask? {
      InspectKeepsRedo(b, op.property, op.id, op.pass, op.notes, op.actor);
    } else if after != b {
      if op.CreateTask? || op.CheckOut? {
        RedoKeptByAdding(b.tasks, b.redo, after.tasks[|b.tasks|]);
      } else {
        RedoKept(b.tasks, b.redo, op.id, after.tasks[op.id]);
      }
    }
  }

  lemma ApplyKeeps(b: Board, op: Op)
    requires Consistent(b)
    ensures Consistent(Apply(b, op))
  {
    hide Apply, TaskOk, RedoOk;
    TasksStayOk(b, op);
    ApplyKeepsRedo(b, op);
  }

  /**
   * In every state a run reaches from an empty board: each task names exactly one of room and area,
   * each task past pending has an assignee, and exactly the rejected tasks have a redo, one each.
   */
  lemma {:induction false} RunKeeps(b: Board, ops: seq<Op>)
    requires Consistent(b) || (b.tasks == [] && b.redo == map[])
    ensures Consistent(Run(b, ops))
    decreases |ops|
  {
    hide Apply;
    if ops != [] {
      ApplyKeeps(b, ops[0]);
      RunKeeps(Apply(b, ops[0]), ops[1..]);
    }
  }

  /** From a task through its redos to the one that carries its work now. */
  function Current(b: Board, i: nat): (c: nat)
    requires i < |b.tasks| && forall k :: k in b.redo ==> k < b.redo[k] < |b.tasks|
    ensures i <= c < |b.tasks| && c !in b.redo
    decreases |b.tasks| - i
  {
    if i in b.redo then Current(b, b.redo[i]) else i
  }

  lemma {:induction false} CurrentCarriesTheWork(b: Board, i: nat)
    requires Consistent(b) && i < |b.tasks|
    ensures var c := Current(b, i);
      i <= c < |b.tasks| && SameWork(b.tasks[i], b.tasks[c]) && b.tasks[c].status != Rejected
    decreases |b.tasks| - i
  {
    if i in b.redo {
      CurrentCarriesTheWork(b, b.redo[i]);
    }
  }

  /**
   * Work is never lost: take any task of any reachable board and let any run follow; its redos end
   * in a task for the very same work that waits, is under way, awaits inspection or has passed it.
   */
  lemma WorkIsNeverLost(b: Board, ops: seq<Op>, i: nat)
    requires Consistent(b) && i < |b.tasks|
    ensures var after := Run(b, ops);
      && Consistent(after) && i < |after.tasks|
      && var c := Current(after, i);
         && SameWork(b.tasks[i], after.tasks[c])
         && (after.tasks[c].status == Pending || after.tasks[c].status == InProgress || after.tasks[c].status == Completed
             || after.tasks[c].status == Inspected)
  {
    RunKeeps(b, ops);
    RunAdvances(b, ops, i);
    CurrentCarriesTheWork(Run(b, ops), i);
  }

  // ---------- Rooms and the check-out hook ----------

  /** Where each move is meant to leave the room. */
  function RoomAfter(op: Op, now: RoomStatus): RoomStatus {
    match op
    case StartTask(_, _, _) => Cleaning
    case CompleteTask(_, _, _, _) => InspectedRoom
    case InspectTask(_, _, pass, _, _) => if pass then Ready else Dirty
    case _ => now
  }

  /** A task's move that succeeds sends its own room there and touches no other; area tasks and other calls
      touch none. */
  lemma RoomFollowsTask(b: Board, op: Op, roomId: RoomId)
    requires roomId in b.rooms
    ensures var after := Apply(b, op);
      && roomId in after.rooms && after.rooms[roomId].propertyId == b.rooms[roomId].propertyId
      && after.rooms[roomId].status ==
           (if (op.StartTask? || op.CompleteTask? || op.InspectTask?) && Attempt(b, op).Ok? && b.tasks[op.id].roomId == Some(roomId) then
              RoomAfter(op, b.rooms[roomId].status)
            else b.rooms[roomId].status)
  {
    hide Trim, RedoNote, MayWork;
  }

  /** A room is at its task's new status, and all others as they were. */
  ghost predicate RoomSent(b: Board, after: Board, id: nat, status: RoomStatus)
    requires id < |b.tasks|
  {
    && after.rooms.Keys == b.rooms.Keys
    && forall r :: r in b.rooms ==>
         after.rooms[r] == if b.tasks[id].roomId == Some(r) then b.rooms[r].(status := status) else b.rooms[r]
  }

  /** One task has moved to a new status for the same work, and all others are as they were. */
  ghost predicate TaskMoved(b: Board, after: Board, id: nat, status: Status)
    requires id < |b.tasks|
  {
    && |b.tasks| <= |after.tasks| && (forall i :: 0 <= i < |b.tasks| && i != id ==> after.tasks[i] == b.tasks[i])
    && SameWork(b.tasks[id], after.tasks[id]) && after.tasks[id].status == status
    && (if status == InProgress then b.tasks[id].status == Pending
        else if status == Completed then b.tasks[id].status == InProgress
        else b.tasks[id].status == Completed && (status == Inspected || status == Rejected))
  }

  lemma MoveIsOne(b: Board, id: nat, t: Task)
    requires id < |b.tasks| && t.status != Pending && SameWork(b.tasks[id], t) && CanTransition(b.tasks[id].status, t.status)
    ensures RoomSent(b, MoveTask(b, id, t), id, RoomStatusAfter(t.status)) && TaskMoved(b, MoveTask(b, id, t), id, t.status)
  {}

  /** The room's tasks that wait, are under way or await inspection. */
  function CountOpen(tasks: seq<Task>, p: string, roomId: RoomId): nat {
    if tasks == [] then 0
    else
      var t := tasks[|tasks| - 1];
      CountOpen(tasks[..|tasks| - 1], p, roomId)
      + (if t.propertyId == p && t.roomId == Some(roomId) && (t.status == Pending || t.status == InProgress || t.status == Completed)
         then 1 else 0)
  }

  /** There is such a task. */
  ghost predicate SomeOpen(tasks: seq<Task>, p: string, roomId: RoomId) {
    exists i :: 0 <= i < |tasks| && tasks[i].propertyId == p && tasks[i].roomId == Some(roomId)
                && (tasks[i].status == Pending || tasks[i].status == InProgress || tasks[i].status == Completed)
  }

  lemma {:induction false} NoneOpen(tasks: seq<Task>, p: string, roomId: RoomId)
    ensures CountOpen(tasks, p, roomId) == 0 <==> forall i :: 0 <= i < |tasks| ==> !OpenFor(tasks[i], p, roomId)
    ensures SomeOpen(tasks, p, roomId) <==> CountOpen(tasks, p, roomId) > 0
  {
    if tasks != [] {
      NoneOpen(tasks[..|tasks| - 1], p, roomId);
      assert forall i :: 0 <= i < |tasks| - 1 ==> tasks[..|tasks| - 1][i] == tasks[i];
    }
  }

  /** The room then has a task that waits, is under way or awaits inspection; one is added only when there was none. */
  lemma CheckoutLeavesOne(b: Board, p: string, roomId: RoomId, actor: Option<StaffId>)
    requires roomId in b.rooms
    ensures var after := Apply(b, CheckOut(p, roomId, actor));
      var open :=
        exists i :: 0 <= i < |b.tasks| && b.tasks[i].propertyId == p && b.tasks[i].roomId == Some(roomId)
                    && (b.tasks[i].status == Pending || b.tasks[i].status == InProgress || b.tasks[i].status == Completed);
      && CountOpen(after.tasks, p, roomId) == (if open then CountOpen(b.tasks, p, roomId) else 1)
      && (open ==> after == b)
      && (!open ==> |after.tasks| == |b.tasks| + 1 && b.tasks <= after.tasks && after == b.(tasks := after.tasks)
                    && after.tasks[|b.tasks|].status == Pending && after.tasks[|b.tasks|].taskType == CheckoutClean
                    && after.tasks[|b.tasks|].propertyId == p && after.tasks[|b.tasks|].roomId == Some(roomId))
  {
    HookMeans(b, p, roomId, actor);
    NoneOpen(b.tasks, p, roomId);
    hide CountOpen, CheckoutHook;
  }

  lemma CountOpenSnoc(tasks: seq<Task>, t: Task, p: string, roomId: RoomId)
    ensures CountOpen(tasks + [t], p, roomId) == CountOpen(tasks, p, roomId) + CountOpen([t], p, roomId)
  {
    assert (tasks + [t])[..|tasks|] == tasks;
  }

  /**
   * What the hook leaves behind when it goes through: nothing new where the room has a task that waits,
   * is under way or awaits inspection, and else one turnover clean, whose room then has that one.
   */
  ghost predicate HookLeaves(b: Board, after: Board, p: string, roomId: RoomId, actor: Option<StaffId>) {
    if SomeOpen(b.tasks, p, roomId) then after == b && CountOpen(b.tasks, p, roomId) > 0
    else
      && CountOpen(after.tasks, p, roomId) == 1
      && after == b.(tasks := b.tasks + [Task(p, Some(roomId), None, CheckoutClean, Pending, Normal, None,
                                              Some("Auto-created on guest check-out"), None, actor)])
  }

  lemma HookMeans(b: Board, p: string, roomId: RoomId, actor: Option<StaffId>)
    ensures var r := CheckoutHook(b, p, roomId, actor);
      && (r.Ok? ==> HookLeaves(b, r.value, p, roomId, actor))
      && (r.Err? <==> !SomeOpen(b.tasks, p, roomId) && roomId !in b.rooms)
  {
    NoneOpen(b.tasks, p, roomId);
    var clean := TurnoverClean(p, roomId, actor);
    assert CountOpen([clean], p, roomId) == 1 by {
      assert [clean][..0] == [];
    }
    CountOpenSnoc(b.tasks, clean, p, roomId);
    hide OpenFor, SomeOpen, CountOpen;
  }

  lemma HookKeeps(b: Board, p: string, roomId: RoomId, actor: Option<StaffId>)
    requires Consistent(b) && CheckoutHook(b, p, roomId, actor).Ok?
    ensures Consistent(CheckoutHook(b, p, roomId, actor).value)
  {
    hide Consistent, CheckoutHook, Create, Assign, Start, Complete, Inspect;
    ApplyKeeps(b, CheckOut(p, roomId, actor));
  }

  // ---------- Writes that come late ----------

  /**
   * Starting, completing and inspecting read the task before their transaction. A move decided on an
   * earlier reading keeps the board in order exactly when the task has not been rejected meanwhile.
   */
  lemma LateMove(b: Board, id: nat, t: Task)
    requires Consistent(b) && id < |b.tasks| && SameWork(b.tasks[id], t) && t.assignee.Some?
    requires t.status == InProgress || t.status == Completed || t.status == Inspected
    ensures Consistent(MoveTask(b, id, t)) <==> b.tasks[id].status != Rejected
  {
    var after := MoveTask(b, id, t);
    assert TaskOk(b.tasks[id]) && TaskOk(t);
    if b.tasks[id].status != Rejected {
      RedoKept(b.tasks, b.redo, id, t);
      hide RedoOk;
    } else {
      assert id in b.redo && after.tasks[id].status != Rejected;
    }
  }

  /** A rejection as it is written: the row by its number, the redo from the task as it was read. */
  function WriteRejection(b: Board, id: nat, read: Task, notes: Option<string>, actor: Actor): Board
    requires id < |b.tasks|
  {
    var moved := MoveTask(b, id, b.tasks[id].(status := Rejected, notes := if notes.Some? then notes else read.notes));
    moved.(tasks := moved.tasks + [RedoOf(read, id, notes, actor)], redo := b.redo[id := |b.tasks|])
  }

  /** A rejection written late raises a second redo for the same work exactly when the task has one already. */
  lemma LateRejection(b: Board, id: nat, read: Task, notes: Option<string>, actor: Actor)
    requires Consistent(b) && id < |b.tasks| && SameWork(b.tasks[id], read)
    ensures var after := WriteRejection(b, id, read, notes, actor);
      && SameWork(b.tasks[id], after.tasks[|b.tasks|]) && after.tasks[|b.tasks|].status == Pending
      && RedoneBy(after, id, |b.tasks|)
      && ((exists r :: RedoneBy(b, id, r)) <==> b.tasks[id].status == Rejected)
  {
    hide RedoNote;
    if b.tasks[id].status == Rejected {
      assert RedoneBy(b, id, b.redo[id]);
    }
  }

  /** On the reading it was decided on, a written rejection is the inspection's step. */
  lemma RejectionIsInspection(b: Board, p: string, id: nat, notes: Option<string>, actor: Actor)
    requires Inspect(b, p, id, false, notes, actor).Ok?
    ensures WriteRejection(b, id, b.tasks[id], notes, actor) == Inspect(b, p, id, false, notes, actor).value
  {
    hide RedoNote, SetRoom;
  }

  /** Two inspectors read one completed task and both fail it: two open redos for the one piece of work. */
  lemma TwoInspections(b: Board, read: Task, w: Actor)
    requires b == Board(map[], map[], [read], map[]) && TaskOk(read) && read.status == Completed
    ensures var after := WriteRejection(WriteRejection(b, 0, read, None, w), 0, read, None, w);
      && Consistent(b) && |after.tasks| == 3 && SameWork(after.tasks[1], after.tasks[2])
      && after.tasks[1].status == after.tasks[2].status == Pending && after.tasks[1].notes == after.tasks[2].notes == Some(RedoNote(0, None))
  {
    hide RedoNote;
  }

  // ---------- The link the tables keep ----------

  /** The text says it is a redo of task `id`, for whatever reason. */
  ghost predicate Names(text: Option<string>, id: nat) {
    exists reason :: text == Some(RedoNote(id, reason))
  }

  const REDO_PREFIX := "Re-clean after failed inspection of task "

  /** The number in such a text, read back. */
  function NumberIn(text: string): string {
    if |text| < |REDO_PREFIX| then "" else LeadingDigits(text[|REDO_PREFIX|..])
  }

  lemma NoteNumber(id: nat, reason: Option<string>)
    ensures NumberIn(RedoNote(id, reason)) == ToDecimal(id)
  {
    hide ToDecimal, LeadingDigits;
    LeadingDigitsOf(ToDecimal(id), Reason(reason));
    assert RedoNote(id, reason) == REDO_PREFIX + (ToDecimal(id) + Reason(reason));
    assert RedoNote(id, reason)[|REDO_PREFIX|..] == ToDecimal(id) + Reason(reason);
  }

  /** Such a text names one task only, whatever the reasons contain. */
  lemma RedoNoteNamesOne(i: nat, n: Option<string>, j: nat, m: Option<string>)
    requires RedoNote(i, n) == RedoNote(j, m)
    ensures i == j
  {
    NoteNumber(i, n);
    NoteNumber(j, m);
    ValueOfDecimal(i);
    ValueOfDecimal(j);
    hide *;
  }

  /** The notes a call that goes through writes over those of task `r`. */
  function Brought(b: Board, op: Op, r: nat): Option<string> {
    if (op.CompleteTask? || op.InspectTask?) && op.id == r && Attempt(b, op).Ok? then op.notes else None
  }

  /** The last such notes of a run. */
  function LastBrought(b: Board, ops: seq<Op>, r: nat): Option<string>
    decreases |ops|
  {
    if ops == [] then None
    else
      var later := LastBrought(Apply(b, ops[0]), ops[1..], r);
      if later.Some? then later else Brought(b, ops[0], r)
  }

  lemma NotesAfter(b: Board, op: Op, r: nat)
    requires r < |b.tasks|
    ensures r < |Apply(b, op).tasks|
    ensures Apply(b, op).tasks[r].notes == if Brought(b, op, r).Some? then Brought(b, op, r) else b.tasks[r].notes
  {
    hide Trim, RedoNote, SetRoom, MayWork;
  }

  lemma {:induction false} NotesAreTheLastBrought(b: Board, ops: seq<Op>, r: nat)
    requires r < |b.tasks|
    ensures r < |Run(b, ops).tasks|
    ensures var last := LastBrought(b, ops, r); Run(b, ops).tasks[r].notes == if last.Some? then last else b.tasks[r].notes
    decreases |ops|
  {
    hide Apply, Brought;
    if ops != [] {
      NotesAfter(b, ops[0], r);
      NotesAreTheLastBrought(Apply(b, ops[0]), ops[1..], r);
    }
  }

  predicate RedoneBy(b: Board, id: nat, r: nat) {
    id < |b.tasks| && b.tasks[id].status == Rejected && id in b.redo && b.redo[id] == r
  }

  lemma {:induction false} RedoStays(b: Board, ops: seq<Op>, id: nat, r: nat)
    requires RedoneBy(b, id, r)
    ensures RedoneBy(Run(b, ops), id, r)
    decreases |ops|
  {
    if ops != [] {
      RedoStaysAStep(b, ops[0], id, r);
      hide Apply, RedoneBy;
      RedoStays(Apply(b, ops[0]), ops[1..], id, r);
    }
  }

  lemma RedoStaysAStep(b: Board, op: Op, id: nat, r: nat)
    requires RedoneBy(b, id, r)
    ensures RedoneBy(Apply(b, op), id, r)
  {
    ApplyAdvances(b, op, id);
    hide Trim, RedoNote, SetRoom, MayWork;
  }

  /**
   * The redo's notes are the only link in the tables. From the rejection on, over any run, they still
   * name the rejected task exactly when the last notes brought by completing or inspecting the redo, if
   * there were any, do so themselves; and they are the text first written exactly when those notes are.
   */
  lemma RedoNamesTheRejected(b: Board, p: string, id: nat, notes: Option<string>, actor: Actor, ops: seq<Op>)
    requires Inspect(b, p, id, false, notes, actor).Ok?
    ensures var start, r := Apply(b, InspectTask(p, id, false, notes, actor)), |b.tasks|;
      var end, brought, text := Run(start, ops), LastBrought(start, ops, r), Some(RedoNote(id, notes));
      && RedoneBy(end, id, r) && r < |end.tasks|
      && (Names(end.tasks[r].notes, id) <==> brought.None? || Names(brought, id))
      && (end.tasks[r].notes == text <==> brought.None? || brought == text)
  {
    hide RedoNote, Trim;
    var start, r := Apply(b, InspectTask(p, id, false, notes, actor)), |b.tasks|;
    assert RedoneBy(start, id, r) && start.tasks[r].notes == Some(RedoNote(id, notes));
    hide *;
    RedoStays(start, ops, id, r);
    NotesAreTheLastBrought(start, ops, r);
    NamedAtFirst(id, notes);
  }

  lemma NamedAtFirst(id: nat, notes: Option<string>)
    ensures Names(Some(RedoNote(id, notes)), id)
  {}

  /** What an inspection that goes through leaves behind. */
  ghost predicate Inspects(b: Board, after: Board, id: nat, pass: bool, notes: Option<string>, actor: Actor)
    requires id < |b.tasks|
  {
    && TaskMoved(b, after, id, if pass then Inspected else Rejected)
    && RoomSent(b, after, id, if pass then Ready else Dirty)
    && after.tasks[id] == b.tasks[id].(status := if pass then Inspected else Rejected,
                                       notes := if notes.Some? then notes else b.tasks[id].notes)
    && |after.tasks| == |b.tasks| + (if pass then 0 else 1)
    && (pass ==> after.redo == b.redo)
    && (!pass ==>
         var again := after.tasks[|b.tasks|];
         && again == b.tasks[id].(status := Pending, notes := again.notes, createdBy := Some(actor.id))
         && again.notes == Some("Re-clean after failed inspection of task " + ToDecimal(id)
                                + (if notes.Some? && notes.value != "" then " — " + notes.value else ""))
         && Names(again.notes, id) && RedoneBy(after, id, |b.tasks|))
  }

  lemma InspectionKeeps(b: Board, p: string, id: nat, pass: bool, notes: Option<string>, actor: Actor)
    requires Consistent(b) && Inspect(b, p, id, pass, notes, actor).Ok?
    ensures Consistent(Inspect(b, p, id, pass, notes, actor).value)
  {
    hide Consistent, CheckoutHook, Create, Assign, Start, Complete, Inspect;
    ApplyKeeps(b, InspectTask(p, id, pass, notes, actor));
  }

  lemma InspectionMeans(b: Board, p: string, id: nat, pass: bool, notes: Option<string>, actor: Actor)
    requires Inspect(b, p, id, pass, notes, actor).Ok?
    ensures Inspects(b, Inspect(b, p, id, pass, notes, actor).value, id, pass, notes, actor)
  {
    assert RedoNote(id, notes) == "Re-clean after failed inspection of task " + ToDecimal(id) + Reason(notes);
    NamedAtFirst(id, notes);
    var target := if pass then Inspected else Rejected;
    MoveIsOne(b, id, b.tasks[id].(status := target, notes := if notes.Some? then notes else b.tasks[id].notes));
    hide RedoNote, Names, SetRoom;
  }

  /** A text shorter than the sentence every redo note begins with. */
  lemma TooShortToName(text: string, id: nat)
    requires |text| < 10
    ensures !Names(Some(text), id)
  {
    forall reason ensures RedoNote(id, reason) != text {
      assert |RedoNote(id, reason)| > 10;
    }
  }

  /** A room checked out, its clean rejected, and the redo started. */
  function UntilRedoStarts(w: Actor): seq<Op> {
    [CheckOut("p", 0, None), StartTask("p", 0, w), CompleteTask("p", 0, None, w), InspectTask("p", 0, false, None, w),
     StartTask("p", 1, w)]
  }

  lemma RedoStarted(w: Actor)
    requires w == Actor(7, true)
    ensures var b := Run(Board(map[0 := Room("p", Dirty)], map[], [], map[]), UntilRedoStarts(w));
      && RedoneBy(b, 0, 1) && |b.tasks| == 2 && b.tasks[1].propertyId == "p" && b.tasks[1].status == InProgress
      && b.tasks[1].notes == Some(RedoNote(0, None))
  {
    hide RedoNote, SetRoom, Run;
    var ops, b0 := UntilRedoStarts(w), Board(map[0 := Room("p", Dirty)], map[], [], map[]);
    var b1 := Apply(b0, ops[0]);
    var b2 := Apply(b1, ops[1]);
    var b3 := Apply(b2, ops[2]);
    var b4 := Apply(b3, ops[3]);
    assert b1.tasks[0].status == Pending;
    assert b2.tasks[0].status == InProgress;
    assert b3.tasks[0].status == Completed;
    assert |b4.tasks| == 2 && RedoneBy(b4, 0, 1) && b4.tasks[1].notes == Some(RedoNote(0, None)) && b4.tasks[1].status == Pending;
    RunFive(b0, ops);
  }

  lemma RunFive(b: Board, ops: seq<Op>)
    requires |ops| == 5
    ensures Run(b, ops) == Apply(Apply(Apply(Apply(Apply(b, ops[0]), ops[1]), ops[2]), ops[3]), ops[4])
  {
    hide Apply;
    var b2 := Apply(Apply(b, ops[0]), ops[1]);
    assert Run(b, ops) == Run(Apply(b, ops[0]), ops[1..]) == Run(b2, ops[1..][1..]);
    assert ops[1..][1..] == [ops[2], ops[3], ops[4]];
    assert Run(b2, [ops[2], ops[3], ops[4]]) == Run(Apply(b2, ops[2]), [ops[3], ops[4]]);
    var b4 := Apply(Apply(b2, ops[2]), ops[3]);
    assert Run(Apply(b2, ops[2]), [ops[3], ops[4]]) == Run(b4, [ops[4]]);
    assert Run(b4, [ops[4]]) == Run(Apply(b4, ops[4]), []);
  }

  /** Completing the redo with a comment loses the link, and so does passing its inspection with one. */
  lemma LinkIsLost(w: Actor)
    requires w == Actor(7, true)
    ensures var b := Run(Board(map[0 := Room("p", Dirty)], map[], [], map[]), UntilRedoStarts(w));
      var completed := Apply(b, CompleteTask("p", 1, Some("done"), w));
      var inspected := Apply(Apply(b, CompleteTask("p", 1, None, w)), InspectTask("p", 1, true, Some("ok"), w));
      && RedoneBy(b, 0, 1) && |b.tasks| == |completed.tasks| == |inspected.tasks| == 2 && Names(b.tasks[1].notes, 0)
      && !Names(completed.tasks[1].notes, 0) && !Names(inspected.tasks[1].notes, 0)
  {
    RedoStarted(w);
    NamedAtFirst(0, None);
    TooShortToName("done", 0);
    TooShortToName("ok", 0);
    hide RedoNote, SetRoom, Run, Names, UntilRedoStarts;
  }
}
