/**
 * The housekeeping service over its tables: each call is proved against its step and shown to keep
 * every task to one location and an assignee past pending, and every rejected task to one redo.
 */
module HousekeepingService {
  import opened Common
  import opened Housekeeping
  import opened HousekeepingRuns

  class Service {
    var rooms: map<RoomId, Room>
    var tasks: seq<Task>
    const staff: map<StaffId, string>
    ghost var redo: map<nat, nat>

    ghost function State(): Board
      reads this
    {
      Board(rooms, staff, tasks, redo)
    }

    ghost predicate Valid()
      reads this
    {
      Consistent(State())
    }

    /** All of the step's effect and no error, or its error and no effect. */
    ghost predicate Commits(error: Option<Error>, before: Board, after: Board, step: Result<Board>) {
      if step.Ok? then error == None && after == step.value else error == Some(step.error) && after == before
    }

    constructor (rooms: map<RoomId, Room>, staff: map<StaffId, string>)
      ensures Valid() && State() == Board(rooms, staff, [], map[])
    {
      this.rooms, this.staff := rooms, staff;
      tasks, redo := [], map[];
    }

    /** A task for exactly one location, of the caller's property, waits at the end of the list. */
    method CreateTask(p: string, input: CreateInput, actor: Actor) returns (error: Option<Error>)
      requires Valid()
      modifies this
      ensures Valid()
      ensures error ==
        if input.roomId.Some? == HasText(input.area) then Some(LocationRequired)
        else if input.roomId.Some? && !(input.roomId.value in old(rooms) && old(rooms)[input.roomId.value].propertyId == p) then
          Some(RoomNotFound)
        else if input.assignee.Some? && !(input.assignee.value in staff && staff[input.assignee.value] == p) then Some(StaffNotFound)
        else None
      ensures error.None? ==> |tasks| == |old(tasks)| + 1 && State() == old(State()).(tasks := old(tasks) + [tasks[|old(tasks)|]])
      ensures error.None? ==>
        var t := tasks[|old(tasks)|];
        && t == Task(p, input.roomId, t.area, input.taskType, Pending, if input.priority.Some? then input.priority.value else Normal,
                     input.guestRequest, input.notes, input.assignee, Some(actor.id))
        && (if input.roomId.Some? then t.area == None else input.area.Some? && t.area.Some? && CutOf(t.area.value, input.area.value))
      ensures Commits(error, old(State()), State(), Create(old(State()), p, input, actor))
    {
      ghost var before := State();
      ApplyKeeps(before, Op.CreateTask(p, input, actor));
      if input.area.Some? {
        TrimKeepsText(input.area.value);
        TrimIsCut(input.area.value);
      }
      hide Trim, Consistent, IsSpace, CutOf;
      var trimmed := if input.area.Some? then Trim(input.area.value) else "";
      var hasRoom, hasArea := input.roomId.Some?, trimmed != "";
      if hasRoom == hasArea { return Some(LocationRequired); }
      if hasRoom && !(input.roomId.value in rooms && rooms[input.roomId.value].propertyId == p) { return Some(RoomNotFound); }
      if input.assignee.Some? && !(input.assignee.value in staff && staff[input.assignee.value] == p) {
        return Some(StaffNotFound);
      }
      tasks := tasks + [Task(p, input.roomId, if hasArea then Some(trimmed) else None, input.taskType, Pending,
                             input.priority.GetOr(Normal), input.guestRequest, input.notes, input.assignee, Some(actor.id))];
      return None;
    }

    /** Anyone of the property's staff may be given any of its tasks, whatever its status. */
    method AssignTask(p: string, id: nat, staffId: StaffId) returns (error: Option<Error>)
      requires Valid()
      modifies this
      ensures Valid()
      ensures error ==
        if !(id < |old(tasks)| && old(tasks)[id].propertyId == p) then Some(TaskNotFound)
        else if !(staffId in staff && staff[staffId] == p) then Some(StaffNotFound)
        else None
      ensures error.None? ==>
        State() == old(State()).(tasks := old(tasks)[id := old(tasks)[id].(assignee := Some(staffId))])
      ensures Commits(error, old(State()), State(), Assign(old(State()), p, id, staffId))
    {
      ApplyKeeps(State(), Op.AssignTask(p, id, staffId));
      hide Consistent;
      if id >= |tasks| || tasks[id].propertyId != p { return Some(TaskNotFound); }
      if staffId !in staff || staff[staffId] != p { return Some(StaffNotFound); }
      tasks := tasks[id := tasks[id].(assignee := Some(staffId))];
      return None;
    }

    /** Updates a room's status by id; an unknown id updates nothing. */
    method SetRoomStatus(roomId: RoomId, status: RoomStatus)
      modifies this
      ensures rooms == SetRoom(old(rooms), Some(roomId), status)
      ensures tasks == old(tasks) && redo == old(redo)
    {
      if roomId in rooms {
        rooms := rooms[roomId := rooms[roomId].(status := status)];
      }
    }

    /** Only a supervisor, the assignee or, when there is none, whoever asks may start a task, and has it then. */
    method StartTask(p: string, id: nat, actor: Actor) returns (error: Option<Error>)
      requires Valid()
      modifies this
      ensures Valid()
      ensures error.Some? ==> State() == old(State())
      ensures error ==
        if !(id < |old(tasks)| && old(tasks)[id].propertyId == p) then Some(TaskNotFound)
        else if !(actor.isSupervisor || old(tasks)[id].assignee in {None, Some(actor.id)}) then Some(NotYourTask)
        else if old(tasks)[id].status != Pending then Some(InvalidTransition)
        else None
      ensures error.None? ==>
        && TaskMoved(old(State()), State(), id, InProgress) && RoomSent(old(State()), State(), id, Cleaning)
        && tasks == old(tasks)[id := old(tasks)[id].(status := InProgress, assignee := tasks[id].assignee)]
        && tasks[id].assignee == (if old(tasks)[id].assignee.Some? then old(tasks)[id].assignee else Some(actor.id))
        && (actor.isSupervisor || tasks[id].assignee == Some(actor.id))
      ensures Commits(error, old(State()), State(), Start(old(State()), p, id, actor))
    {
      ApplyKeeps(State(), Op.StartTask(p, id, actor));
      hide Consistent, RoomSent, TaskMoved;
      if id >= |tasks| || tasks[id].propertyId != p { return Some(TaskNotFound); }
      var before := tasks[id];
      if !MayWork(before, actor) { return Some(NotYourTask); }
      if !CanTransition(before.status, InProgress) { return Some(InvalidTransition); }
      var claim := if before.assignee.None? then actor.id else before.assignee.value;
      MoveIsOne(State(), id, before.(status := InProgress, assignee := Some(claim)));
      tasks := tasks[id := before.(status := InProgress, assignee := Some(claim))];
      if before.roomId.Some? {
        SetRoomStatus(before.roomId.value, RoomStatusAfter(InProgress));
      }
      return None;
    }

    /** Only a supervisor or the assignee may complete a task, and its room then waits for inspection. */
    method CompleteTask(p: string, id: nat, notes: Option<string>, actor: Actor) returns (error: Option<Error>)
      requires Valid()
      modifies this
      ensures Valid()
      ensures error.Some? ==> State() == old(State())
      ensures error ==
        if !(id < |old(tasks)| && old(tasks)[id].propertyId == p) then Some(TaskNotFound)
        else if !(actor.isSupervisor || old(tasks)[id].assignee in {None, Some(actor.id)}) then Some(NotYourTask)
        else if old(tasks)[id].status != InProgress then Some(InvalidTransition)
        else None
      ensures error.None? ==>
        && TaskMoved(old(State()), State(), id, Completed) && RoomSent(old(State()), State(), id, InspectedRoom)
        && tasks == old(tasks)[id := old(tasks)[id].(status := Completed,
                                                     notes := if notes.Some? then notes else old(tasks)[id].notes)]
        && (actor.isSupervisor || tasks[id].assignee == Some(actor.id))
      ensures Commits(error, old(State()), State(), Complete(old(State()), p, id, notes, actor))
    {
      ApplyKeeps(State(), Op.CompleteTask(p, id, notes, actor));
      if id >= |tasks| || tasks[id].propertyId != p { return Some(TaskNotFound); }
      var before := tasks[id];
      if !MayWork(before, actor) { return Some(NotYourTask); }
      if !CanTransition(before.status, Completed) { return Some(InvalidTransition); }
      assert TaskOk(tasks[id]);
      hide Consistent, RoomSent, TaskMoved;
      MoveIsOne(State(), id, before.(status := Completed, notes := if notes.Some? then notes else before.notes));
      tasks := tasks[id := before.(status := Completed, notes := if notes.Some? then notes else before.notes)];
      if before.roomId.Some? {
        SetRoomStatus(before.roomId.value, RoomStatusAfter(Completed));
      }
      return None;
    }

    /** A pass readies the room; a failure dirties it and leaves one more task, for the same work and naming the
        rejected. */
    method InspectTask(p: string, id: nat, pass: bool, notes: Option<string>, actor: Actor)
      returns (error: Option<Error>)
      requires Valid()
      modifies this
      ensures Valid()
      ensures error.Some? ==> State() == old(State())
      ensures error ==
        if !(id < |old(tasks)| && old(tasks)[id].propertyId == p) then Some(TaskNotFound)
        else if old(tasks)[id].status != Completed then Some(InvalidTransition)
        else None
      ensures error.None? ==> Inspects(old(State()), State(), id, pass, notes, actor)
      ensures Commits(error, old(State()), State(), Inspect(old(State()), p, id, pass, notes, actor))
    {
      if Inspect(State(), p, id, pass, notes, actor).Ok? {
        InspectionMeans(State(), p, id, pass, notes, actor);
        InspectionKeeps(State(), p, id, pass, notes, actor);
      }
      hide RedoNote, Consistent, Inspects, RoomSent, TaskMoved;
      if id >= |tasks| || tasks[id].propertyId != p { return Some(TaskNotFound); }
      var before := tasks[id];
      var target := if pass then Inspected else Rejected;
      if !CanTransition(before.status, target) { return Some(InvalidTransition); }
      tasks := tasks[id := before.(status := target, notes := if notes.Some? then notes else before.notes)];
      if before.roomId.Some? {
        SetRoomStatus(before.roomId.value, RoomStatusAfter(target));
      }
      if !pass {
        redo := redo[id := |tasks|];
        tasks := tasks + [Task(p, before.roomId, before.area, before.taskType, Pending, before.priority, before.guestRequest,
                               Some(RedoNote(id, notes)), before.assignee, Some(actor.id))];
      }
      return None;
    }

    /** Adds a turnover clean, and names it, only where no task of the room waits, is under way or awaits inspection. */
    method CreateCheckoutCleanForRoom(p: string, roomId: RoomId, actor: Option<StaffId>)
      returns (r: Result<Option<nat>>)
      requires Valid()
      modifies this
      ensures Valid()
      ensures
        var open :=
          exists i :: 0 <= i < |old(tasks)| && old(tasks)[i].propertyId == p && old(tasks)[i].roomId == Some(roomId)
                      && (old(tasks)[i].status == Pending || old(tasks)[i].status == InProgress || old(tasks)[i].status == Completed);
        if open then r == Ok(None) && State() == old(State())
        else if roomId !in old(rooms) then r == Err(RoomNotFound) && State() == old(State())
        else
          && r == Ok(Some(|old(tasks)|)) && CountOpen(tasks, p, roomId) == 1
          && State() == old(State()).(tasks := old(tasks) + [Task(p, Some(roomId), None, CheckoutClean, Pending, Normal, None,
                                                                  Some("Auto-created on guest check-out"), None, actor)])
      ensures var step := CheckoutHook(old(State()), p, roomId, actor);
        if step.Ok? then State() == step.value else r == Err(step.error)
    {
      HookMeans(State(), p, roomId, actor);
      if CheckoutHook(State(), p, roomId, actor).Ok? {
        HookKeeps(State(), p, roomId, actor);
      }
      hide Consistent, OpenFor, CountOpen;
      if exists i :: 0 <= i < |tasks| && OpenFor(tasks[i], p, roomId) { return Ok(None); }
      if roomId !in rooms { return Err(RoomNotFound); }
      r := Ok(Some(|tasks|));
      tasks := tasks + [TurnoverClean(p, roomId, actor)];
    }
  }
}
