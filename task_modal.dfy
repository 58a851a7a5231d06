/**
 * The task editor drawer: status change, the editable name with its commit
 * and revert rules, assignment of developers, the displayed assignees and the
 * per-developer count of matching skills.
 */
module TaskModal {
  import opened Common
  import opened Users
  import opened KanbanPage

  /** The task fields the editor uses. */
  datatype Task = Task(id: string, columnId: string, name: string, labels: seq<string>, assigneesIds: seq<string>)

  /** A board column as the status selector sees it. */
  datatype Column = Column(id: string, name: string)

  /** The partial update sent for a task; absent fields are not part of the update. */
  datatype TaskPatch = TaskPatch(name: Option<string>, assigneesIds: Option<seq<string>>)

  datatype UpdateTaskParams = UpdateTaskParams(projectId: string, taskId: string, update: TaskPatch)

  /** One skill record of a user, keyed by the user's email. */
  datatype UserSkill = UserSkill(email: string, skill: string)

  /** One entry of the status selector. */
  datatype StatusOption = StatusOption(optionLabel: string, value: string)

  /** The status selector: one entry per column, in column order, labelled with the column name. */
  function StatusOptions(columns: seq<Column>): (r: seq<StatusOption>)
    ensures |r| == |columns|
    ensures forall i :: 0 <= i < |r| ==> r[i].optionLabel == columns[i].name && r[i].value == columns[i].id
  {
    seq(|columns|, i requires 0 <= i < |columns| => StatusOption(columns[i].name, columns[i].id))
  }

  /** The move a status change requests: the task, to the top of the chosen column. */
  function MoveParams(projectId: string, task: Task, columnId: string): (r: MoveTaskParams)
    ensures r.projectId == projectId && r.taskId == task.id
    ensures r.position == 0 && r.columnId == Some(columnId)
  {
    MoveTaskParams(projectId, task.id, 0, Some(columnId))
  }

  /** What a status change does, in order. */
  datatype MoveEffect = DispatchMove(move: MoveTaskParams) | CloseDrawer | ErrorToast

  /**
   * Changing the status: the move is dispatched; when it succeeds the drawer's
   * close callback runs, if there is one, and when it fails an error toast is
   * shown instead. `moveSucceeded` is the outcome of the dispatched request.
   */
  function HandleMove(projectId: string, task: Task, columnId: string, hasOnClose: bool, moveSucceeded: bool)
    : (r: seq<MoveEffect>)
    ensures 1 <= |r| <= 2 && r[0] == DispatchMove(MoveParams(projectId, task, columnId))
    ensures CloseDrawer in r <==> moveSucceeded && hasOnClose
    ensures ErrorToast in r <==> !moveSucceeded
    ensures forall k :: 1 <= k < |r| ==> !r[k].DispatchMove?
  {
    [DispatchMove(MoveParams(projectId, task, columnId))]
      + (if !moveSucceeded then [ErrorToast] else if hasOnClose then [CloseDrawer] else [])
  }

  /** Whatever column the task was in, a status change puts it first in the chosen column. */
  lemma MoveLandsOnTop(projectId: string, task: Task, from: Location, columnId: string)
    ensures Landing(from, Some(MoveParams(projectId, task, columnId))) == Location(columnId, 0)
  {
  }

  /** Picking any status entry moves the task to the top of that entry's column. */
  lemma StatusChoiceMovesToColumn(projectId: string, task: Task, columns: seq<Column>, i: nat, from: Location)
    requires i < |columns|
    ensures Landing(from, Some(MoveParams(projectId, task, StatusOptions(columns)[i].value))) == Location(columns[i].id, 0)
  {
  }

  /**
   * The name update a commit (blur or Enter) sends for the edited text: only
   * a non-empty text that differs from the task's name is sent, as an update
   * of the name alone.
   */
  function NameCommit(projectId: string, task: Task, nameCopy: string): (r: Option<UpdateTaskParams>)
    ensures r.Some? <==> nameCopy != "" && nameCopy != task.name
    ensures r.Some? ==> r.value == UpdateTaskParams(projectId, task.id, TaskPatch(Some(nameCopy), None))
  {
    if nameCopy == "" || nameCopy == task.name then None
    else Some(UpdateTaskParams(projectId, task.id, TaskPatch(Some(nameCopy), None)))
  }

  /** Once the task carries the committed name, committing the same text again sends nothing. */
  lemma NameCommitSettles(projectId: string, task: Task, nameCopy: string)
    requires NameCommit(projectId, task, nameCopy).Some?
    ensures NameCommit(projectId, task.(name := NameCommit(projectId, task, nameCopy).value.update.name.value), nameCopy).None?
  {
  }

  /** Assigning a developer: nothing when already assigned, otherwise the id list with the id appended. */
  function HandleAssignTask(projectId: string, task: Task, assigneeId: string): (r: Option<UpdateTaskParams>)
    ensures r.None? <==> assigneeId in task.assigneesIds
    ensures r.Some? ==> r.value.projectId == projectId && r.value.taskId == task.id
    ensures r.Some? ==> r.value.update.name.None? && r.value.update.assigneesIds.Some?
    ensures r.Some? ==>
      var ids := r.value.update.assigneesIds.value;
      |ids| == |task.assigneesIds| + 1 && ids[..|task.assigneesIds|] == task.assigneesIds && ids[|task.assigneesIds|] == assigneeId
  {
    if assigneeId in task.assigneesIds then None
    else Some(UpdateTaskParams(projectId, task.id, TaskPatch(None, Some(task.assigneesIds + [assigneeId]))))
  }

  /** No id appears twice. */
  predicate Distinct(ids: seq<string>)
  {
    forall i, j :: 0 <= i < j < |ids| ==> ids[i] != ids[j]
  }

  /** Assignment keeps the assignee list free of duplicates, and assigning the same id again sends nothing. */
  lemma AssignKeepsIdsDistinct(projectId: string, task: Task, assigneeId: string)
    requires Distinct(task.assigneesIds)
    requires HandleAssignTask(projectId, task, assigneeId).Some?
    ensures Distinct(HandleAssignTask(projectId, task, assigneeId).value.update.assigneesIds.value)
    ensures HandleAssignTask(projectId,
              task.(assigneesIds := HandleAssignTask(projectId, task, assigneeId).value.update.assigneesIds.value),
              assigneeId).None?
  {
  }

  /** The test `u => u._id === id`. */
  function HasId(id: string): User -> bool
  {
    (u: User) => u.id == Some(id)
  }

  /** The position of the first user with that id. */
  function FirstWithId(users: seq<User>, id: string): (r: Option<nat>)
    ensures r.Some? ==> r.value < |users| && users[r.value].id == Some(id)
    ensures r.Some? ==> forall j :: 0 <= j < r.value ==> users[j].id != Some(id)
    ensures r.None? <==> forall u :: u in users ==> u.id != Some(id)
  {
    FirstWhere(users, HasId(id))
  }

  /** `users.find(u => u._id === id)`: the first user with that id. */
  function FindUser(users: seq<User>, id: string): (r: Option<User>)
    ensures r.Some? ==> r.value in users && r.value.id == Some(id)
    ensures r.Some? <==> FirstWithId(users, id).Some?
    ensures r.Some? ==> r.value == users[FirstWithId(users, id).value]
    ensures r.None? <==> forall u :: u in users ==> u.id != Some(id)
  {
    match FirstWithId(users, id)
    case None => None
    case Some(k) => Some(users[k])
  }

  /** The ids that name a known user. */
  function IsKnown(users: seq<User>): string -> bool
  {
    id => FindUser(users, id).Some?
  }

  /**
   * The displayed assignees: each assignee id mapped to the known user with
   * that id, with the ids no known user has dropped.
   */
  function ResolveAssignees(assigneesIds: seq<string>, users: seq<User>): (r: seq<User>)
    ensures |r| <= |assigneesIds|
    ensures forall u :: u in r ==> u in users && u.id.Some? && u.id.value in assigneesIds
  {
    if assigneesIds == [] then []
    else
      var rest := ResolveAssignees(assigneesIds[1..], users);
      match FindUser(users, assigneesIds[0])
      case Some(u) => [u] + rest
      case None => rest
  }

  /** The assignees the drawer shows; none while no task is loaded. */
  function Assignees(task: Option<Task>, users: seq<User>): (r: seq<User>)
    ensures task.None? ==> r == []
    ensures task.Some? ==> r == ResolveAssignees(task.value.assigneesIds, users)
  {
    if task.Some? then ResolveAssignees(task.value.assigneesIds, users) else []
  }

  /** One step of both lists: the first id contributes to each exactly when a user has it. */
  lemma ResolveStep(assigneesIds: seq<string>, users: seq<User>)
    requires assigneesIds != []
    ensures FindUser(users, assigneesIds[0]).Some? ==>
      Filter(assigneesIds, IsKnown(users)) == [assigneesIds[0]] + Filter(assigneesIds[1..], IsKnown(users))
      && ResolveAssignees(assigneesIds, users)
         == [FindUser(users, assigneesIds[0]).value] + ResolveAssignees(assigneesIds[1..], users)
    ensures FindUser(users, assigneesIds[0]).None? ==>
      Filter(assigneesIds, IsKnown(users)) == Filter(assigneesIds[1..], IsKnown(users))
      && ResolveAssignees(assigneesIds, users) == ResolveAssignees(assigneesIds[1..], users)
  {
    assert IsKnown(users)(assigneesIds[0]) == FindUser(users, assigneesIds[0]).Some?;
  }

  /** Putting a found user in front of its id keeps the two lists in step. */
  lemma FollowCons(users: seq<User>, id: string, user: User, known: seq<string>, shown: seq<User>)
    requires FindUser(users, id) == Some(user)
    requires |shown| == |known|
    requires forall i :: 0 <= i < |shown| ==> FindUser(users, known[i]) == Some(shown[i])
    ensures forall i :: 0 <= i < |[user] + shown| ==> FindUser(users, ([id] + known)[i]) == Some(([user] + shown)[i])
  {
    forall i | 0 < i < |[user] + shown| ensures FindUser(users, ([id] + known)[i]) == Some(([user] + shown)[i]) {
      assert ([id] + known)[i] == known[i - 1];
    }
  }

  /**
   * The displayed assignees follow the known assignee ids one for one, in
   * order: the i-th shown user is the user found for the i-th known id.
   */
  lemma {:induction false} AssigneesFollowKnownIds(assigneesIds: seq<string>, users: seq<User>)
    ensures |ResolveAssignees(assigneesIds, users)| == |Filter(assigneesIds, IsKnown(users))|
    ensures forall i :: 0 <= i < |ResolveAssignees(assigneesIds, users)| ==>
      FindUser(users, Filter(assigneesIds, IsKnown(users))[i]) == Some(ResolveAssignees(assigneesIds, users)[i])
  {
    if assigneesIds != [] {
      AssigneesFollowKnownIds(assigneesIds[1..], users);
      ResolveStep(assigneesIds, users);
      var known' := Filter(assigneesIds[1..], IsKnown(users));
      var r' := ResolveAssignees(assigneesIds[1..], users);
      if FindUser(users, assigneesIds[0]).Some? {
        FollowCons(users, assigneesIds[0], FindUser(users, assigneesIds[0]).value, known', r');
      }
    }
  }

  /** With every id known, every assignee is shown. */
  lemma {:induction false} AllKnownAllShown(assigneesIds: seq<string>, users: seq<User>)
    requires forall id :: id in assigneesIds ==> FindUser(users, id).Some?
    ensures |ResolveAssignees(assigneesIds, users)| == |assigneesIds|
  {
    FilterAllPass(assigneesIds, IsKnown(users));
    AssigneesFollowKnownIds(assigneesIds, users);
  }

  /** A skill record counts for a developer when it has their email and its skill is among the task's labels. */
  function SkillMatches(email: string, labels: seq<string>): UserSkill -> bool
  {
    (s: UserSkill) => s.email == email && s.skill in labels
  }

  /** The "matching skills" figure next to a developer in the assignee selector. */
  function MatchingSkillCount(userSkills: seq<UserSkill>, user: User, labels: seq<string>): (n: nat)
    ensures n <= |userSkills|
  {
    |Filter(userSkills, SkillMatches(user.email, labels))|
  }

  /**
   * The count is exactly the number of skill records with the developer's
   * email whose skill is a label, counted with repetitions.
   */
  lemma MatchingSkillCountIsRecordCount(userSkills: seq<UserSkill>, user: User, labels: seq<string>)
    ensures MatchingSkillCount(userSkills, user, labels)
         == |multiset(Filter(userSkills, SkillMatches(user.email, labels)))|
    ensures forall s :: multiset(Filter(userSkills, SkillMatches(user.email, labels)))[s]
                     == if s.email == user.email && s.skill in labels then multiset(userSkills)[s] else 0
  {
    FilterCounts(userSkills, SkillMatches(user.email, labels));
  }

  /** Adding labels to the task never lowers a developer's count. */
  lemma MatchingSkillCountMonotone(userSkills: seq<UserSkill>, user: User, labels: seq<string>, more: seq<string>)
    requires forall l :: l in labels ==> l in more
    ensures MatchingSkillCount(userSkills, user, labels) <= MatchingSkillCount(userSkills, user, more)
  {
    FilterLengthMonotone(userSkills, SkillMatches(user.email, labels), SkillMatches(user.email, more));
  }

  /** The selector offers only developers. */
  function IsDeveloper(user: User): bool
  {
    user.role == Developper
  }

  /** The editor's own state cells. */
  class TaskEditor {
    var nameCopy: string
    var currentTab: string
    var users: seq<User>
    var userSkills: seq<UserSkill>

    /** `task?.name || ''` for the name copy; the first tab; nothing fetched yet. */
    constructor(task: Option<Task>)
      ensures nameCopy == if task.Some? then task.value.name else ""
      ensures currentTab == "overview" && users == [] && userSkills == []
    {
      nameCopy := if task.Some? then task.value.name else "";
      currentTab := "overview";
      users := [];
      userSkills := [];
    }

    method HandleTabsChange(value: string)
      modifies this
      ensures currentTab == value
      ensures nameCopy == old(nameCopy) && users == old(users) && userSkills == old(userSkills)
    {
      currentTab := value;
    }

    /** Run whenever the task id changes. */
    method HandleTabsReset()
      modifies this
      ensures currentTab == "overview"
      ensures nameCopy == old(nameCopy) && users == old(users) && userSkills == old(userSkills)
    {
      currentTab := "overview";
    }

    method HandleNameChange(value: string)
      modifies this
      ensures nameCopy == value
      ensures currentTab == old(currentTab) && users == old(users) && userSkills == old(userSkills)
    {
      nameCopy := value;
    }

    /** Run whenever the task changes: the copy follows the task's name. */
    method HandleNameReset(task: Option<Task>)
      modifies this
      ensures nameCopy == if task.Some? then task.value.name else ""
      ensures currentTab == old(currentTab) && users == old(users) && userSkills == old(userSkills)
    {
      nameCopy := if task.Some? then task.value.name else "";
    }

    /**
     * Leaving the name field: an empty text is reverted to the task's name and
     * nothing is sent; otherwise the commit rule decides.
     */
    method HandleNameBlur(projectId: string, task: Task) returns (sent: Option<UpdateTaskParams>)
      modifies this
      ensures old(nameCopy) == "" ==> nameCopy == task.name && sent == None
      ensures old(nameCopy) != "" ==> nameCopy == old(nameCopy)
      ensures sent == NameCommit(projectId, task, old(nameCopy))
      ensures currentTab == old(currentTab) && users == old(users) && userSkills == old(userSkills)
    {
      if nameCopy == "" {
        nameCopy := task.name;
        sent := None;
        return;
      }
      if nameCopy == task.name {
        sent := None;
        return;
      }
      sent := Some(UpdateTaskParams(projectId, task.id, TaskPatch(Some(nameCopy), None)));
    }

    /** A key released in the name field: only Enter commits, by the same rule as leaving the field. */
    method HandleNameKeyUp(projectId: string, task: Task, code: string) returns (sent: Option<UpdateTaskParams>)
      ensures code != "Enter" ==> sent == None
      ensures code == "Enter" ==> sent == NameCommit(projectId, task, nameCopy)
    {
      sent := None;
      if code == "Enter" {
        if nameCopy != "" && nameCopy != task.name {
          sent := Some(UpdateTaskParams(projectId, task.id, TaskPatch(Some(nameCopy), None)));
        }
      }
    }

    /** The fetched user list, narrowed to developers, and the fetched skill records. */
    method ReceiveFetched(fetchedUsers: seq<User>, fetchedUserSkills: seq<UserSkill>)
      modifies this
      ensures users == Filter(fetchedUsers, IsDeveloper)
      ensures forall u :: u in users <==> u in fetchedUsers && u.role == Developper
      ensures userSkills == fetchedUserSkills
      ensures nameCopy == old(nameCopy) && currentTab == old(currentTab)
    {
      users := Filter(fetchedUsers, IsDeveloper);
      userSkills := fetchedUserSkills;
    }
  }
}
