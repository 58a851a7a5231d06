/**
 * The kanban board page: routing a finished drag to a move command, the
 * default names of new columns and tasks, and the open-task cell that drives
 * the task drawer.
 */
module KanbanPage {
  import opened Common

  /** A droppable (a column) and an index inside it. */
  datatype Location = Location(droppableId: string, index: nat)

  /** What the drag-and-drop library reports when a drag ends. */
  datatype DropResult = DropResult(source: Location, destination: Option<Location>, draggableId: string)

  /** The parameters of the move-task thunk; `columnId` is given only for a move to another column. */
  datatype MoveTaskParams = MoveTaskParams(projectId: string, taskId: string, position: nat, columnId: Option<string>)

  /** The move command a finished drag dispatches, if any. */
  function HandleDragEnd(projectId: string, result: DropResult): (r: Option<MoveTaskParams>)
    ensures result.destination.None? ==> r.None?
    ensures r.Some? <==>
      result.destination.Some? && result.destination.value != result.source
    ensures r.Some? ==>
      r.value.projectId == projectId && r.value.taskId == result.draggableId
      && r.value.position == result.destination.value.index
    ensures r.Some? ==>
      (r.value.columnId.None? <==> result.source.droppableId == result.destination.value.droppableId)
    ensures r.Some? && r.value.columnId.Some? ==> r.value.columnId.value == result.destination.value.droppableId
  {
    match result.destination
    case None => None
    case Some(destination) =>
      if result.source.droppableId == destination.droppableId && result.source.index == destination.index then
        None
      else if result.source.droppableId == destination.droppableId then
        Some(MoveTaskParams(projectId, result.draggableId, destination.index, None))
      else
        Some(MoveTaskParams(projectId, result.draggableId, destination.index, Some(destination.droppableId)))
  }

  /**
   * Where the dragged task ends up once the command (if any) is carried out:
   * its own column unless the command names another, at the command's position.
   */
  function Landing(source: Location, command: Option<MoveTaskParams>): Location
  {
    match command
    case None => source
    case Some(c) => Location(if c.columnId.Some? then c.columnId.value else source.droppableId, c.position)
  }

  /** Every drop onto a column leaves the task where it was dropped, moved or not. */
  lemma DragEndLandsAtDestination(projectId: string, result: DropResult)
    requires result.destination.Some?
    ensures Landing(result.source, HandleDragEnd(projectId, result)) == result.destination.value
  {
  }

  /** A drop outside every column leaves the task where it was. */
  lemma DragOutsideStays(projectId: string, result: DropResult)
    requires result.destination.None?
    ensures Landing(result.source, HandleDragEnd(projectId, result)) == result.source
  {
  }

  /** `name || fallback`: an absent or empty name gives way to the fallback. */
  function OrDefault(name: Option<string>, fallback: string): (r: string)
    ensures name.Some? && name.value != "" ==> r == name.value
    ensures name.None? || name.value == "" ==> r == fallback
    ensures fallback != "" ==> r != ""
  {
    if name.Some? && name.value != "" then name.value else fallback
  }

  /** Applying the default to a name that already went through it changes nothing. */
  lemma OrDefaultIdempotent(name: Option<string>, fallback: string)
    requires fallback != ""
    ensures OrDefault(Some(OrDefault(name, fallback)), fallback) == OrDefault(name, fallback)
  {
  }

  datatype CreateColumnParams = CreateColumnParams(projectId: string, name: string)
  datatype CreateTaskParams = CreateTaskParams(projectId: string, columnId: string, name: string)

  const DefaultColumnName := "Untitled Column"
  const DefaultTaskName := "Untitled Task"

  /** The create-column command; it always carries a non-empty name. */
  function HandleColumnAdd(projectId: string, name: Option<string>): (r: CreateColumnParams)
    ensures r.projectId == projectId && r.name != ""
    ensures r.name == if name.Some? && name.value != "" then name.value else DefaultColumnName
  {
    CreateColumnParams(projectId, OrDefault(name, DefaultColumnName))
  }

  /** The create-task command for a column; it always carries a non-empty name. */
  function HandleTaskAdd(projectId: string, columnId: string, name: Option<string>): (r: CreateTaskParams)
    ensures r.projectId == projectId && r.columnId == columnId && r.name != ""
    ensures r.name == if name.Some? && name.value != "" then name.value else DefaultTaskName
  {
    CreateTaskParams(projectId, columnId, OrDefault(name, DefaultTaskName))
  }

  /** The page's open-task cell. */
  class BoardPage {
    var currentTaskId: Option<string>

    constructor()
      ensures currentTaskId == None
    {
      currentTaskId := None;
    }

    /** `open={!!currentTaskId}`: an empty id does not open the drawer. */
    function DrawerOpen(): (r: bool)
      reads this
      ensures r <==> currentTaskId.Some? && currentTaskId.value != ""
    {
      currentTaskId.Some? && currentTaskId.value != ""
    }

    /** `taskId={currentTaskId || undefined}`: the drawer is given a task exactly when it is open. */
    function ModalTaskId(): (r: Option<string>)
      reads this
      ensures r.Some? <==> DrawerOpen()
      ensures r.Some? ==> r == currentTaskId
    {
      if DrawerOpen() then currentTaskId else None
    }

    method HandleTaskOpen(taskId: string)
      modifies this
      ensures currentTaskId == Some(taskId)
      ensures taskId != "" ==> DrawerOpen() && ModalTaskId() == Some(taskId)
    {
      currentTaskId := Some(taskId);
    }

    method HandleTaskClose()
      modifies this
      ensures currentTaskId == None
      ensures !DrawerOpen() && ModalTaskId() == None
    {
      currentTaskId := None;
    }
  }
}
