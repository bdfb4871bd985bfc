/**
 * The Todoist task manager: how a task request is turned into the parameters
 * of the remote add_task call (priority, project, due string, labels, parent),
 * the batch creation counters, the flattening of paginated listings and the
 * empty result of a failed listing.
 *
 * The remote API is abstract: whether a client exists is a flag, and each
 * remote call's result is a parameter (None stands for an exception).
 * Reading the configuration file is not modelled; its three sections are
 * Options, None standing for a missing key (a KeyError when it is read).
 */
module Todoist {
  import opened Common

  /** A label entry of the configuration: an empty dict, a dict with a name,
      or a non-empty dict without one. */
  datatype LabelEntry = Blank | Named(name: string) | NoName

  /** The parts of the configuration create_task reads. A project entry is
      its project_id (None when the entry is empty or has none). */
  datatype Config = Config(priorityMapping: Option<map<string, int>>,
                           projects: Option<map<string, Option<string>>>,
                           labels: Option<map<string, LabelEntry>>)

  /** The due_string argument: a word, the date `days` days from today
      formatted YYYY-MM-DD, or none. */
  datatype Due = Word(text: string) | DaysAhead(days: int) | NoDue

  /** The arguments of create_task. */
  datatype TaskRequest = TaskRequest(content: string, project: Option<string>, priority: string,
                                     dueDays: int, labels: seq<string>, description: string,
                                     parentId: Option<string>)

  /** The keyword arguments passed to the remote add_task. */
  datatype TaskParams = TaskParams(content: string, description: string, projectId: Option<string>,
                                   due: Due, priority: int, labels: seq<string>, parentId: Option<string>)

  /** A created task. */
  datatype Task = Task(id: string, content: string)

  /** priority_map.get(priority, 2). */
  function PriorityValue(mapping: map<string, int>, priority: string): (v: int)
    ensures priority in mapping ==> v == mapping[priority]
    ensures priority !in mapping ==> v == 2
  {
    if priority in mapping then mapping[priority] else 2
  }

  /** due_days: 0 is "today", 1 "tomorrow", more is a date, a negative count
      gives no due string. */
  function DueFor(dueDays: int): (d: Due)
    ensures d.NoDue? <==> dueDays < 0
    ensures d.Word? <==> dueDays == 0 || dueDays == 1
    ensures d.DaysAhead? ==> d.days == dueDays && dueDays > 1
  {
    if dueDays == 0 then Word("today")
    else if dueDays == 1 then Word("tomorrow")
    else if dueDays > 1 then DaysAhead(dueDays)
    else NoDue
  }

  /** The project id: looked up only for a non-empty project name; a missing
      section raises (None), an unknown project gives no id. */
  function ProjectId(config: Config, project: Option<string>): (r: Option<Option<string>>)
    ensures !Truthy(project) ==> r == Some(None)
    ensures Truthy(project) && config.projects.None? ==> r.None?
    ensures r == Some(None) <==>
              (!Truthy(project) || (config.projects.Some? &&
                (project.value !in config.projects.value || config.projects.value[project.value].None?)))
    ensures Truthy(project) && config.projects.Some? && project.value in config.projects.value ==>
              r == Some(config.projects.value[project.value])
  {
    if !Truthy(project) then Some(None)
    else if config.projects.None? then None
    else if project.value in config.projects.value then Some(config.projects.value[project.value])
    else Some(None)
  }

  /** The label names of the given keys, in order: keys without an entry or
      with an empty entry are dropped; an entry without a name raises (None). */
  function LabelNamesOf(entries: map<string, LabelEntry>, keys: seq<string>): (r: Option<seq<string>>)
    ensures r.Some? ==> |r.value| <= |keys|
  {
    if keys == [] then Some([])
    else
      match LabelNamesOf(entries, keys[..|keys| - 1])
      case None => None
      case Some(names) =>
        var k := keys[|keys| - 1];
        if k !in entries || entries[k].Blank? then Some(names)
        else if entries[k].NoName? then None
        else Some(names + [entries[k].name])
  }

  /** The name a key contributes when its entry has one. */
  function NameOfKey(entries: map<string, LabelEntry>, k: string): Option<string> {
    if k in entries && entries[k].Named? then Some(entries[k].name) else None
  }

  /** The label names are the names of the listed keys that have one, in the
      order of the keys (duplicates kept), and the lookup raises exactly when
      a listed key has an entry without a name. */
  lemma {:induction false} LabelNamesCorrect(entries: map<string, LabelEntry>, keys: seq<string>)
    ensures var r := LabelNamesOf(entries, keys);
            (r.None? <==> exists i :: 0 <= i < |keys| && keys[i] in entries && entries[keys[i]].NoName?)
            && (r.Some? ==> r.value == FilterMap(keys, k => NameOfKey(entries, k)))
            && (r.Some? ==> forall n :: n in r.value <==>
                  exists i :: 0 <= i < |keys| && keys[i] in entries && entries[keys[i]] == Named(n))
  {
    if keys != [] {
      var init := keys[..|keys| - 1];
      var k := keys[|keys| - 1];
      LabelNamesCorrect(entries, init);
      assert forall i :: 0 <= i < |init| ==> keys[i] == init[i];
      var r := LabelNamesOf(entries, keys);
      if r.Some? {
        var names := LabelNamesOf(entries, init).value;
        forall n | exists i :: 0 <= i < |keys| && keys[i] in entries && entries[keys[i]] == Named(n)
          ensures n in r.value
        {
          var i :| 0 <= i < |keys| && keys[i] in entries && entries[keys[i]] == Named(n);
          if i < |init| {
            assert init[i] in entries && entries[init[i]] == Named(n);
          }
        }
      }
    }
  }

  /** The label loop of create_task. */
  method LabelNames(entries: map<string, LabelEntry>, keys: seq<string>) returns (names: Option<seq<string>>)
    ensures names == LabelNamesOf(entries, keys)
  {
    var acc: seq<string> := [];
    for i := 0 to |keys|
      invariant LabelNamesOf(entries, keys[..i]) == Some(acc)
    {
      assert keys[..i + 1][..i] == keys[..i];
      var k := keys[i];
      if k in entries {
        match entries[k]
        case Blank =>
        case NoName =>
          assert LabelNamesOf(entries, keys[..i + 1]).None?;
          LabelNamesStaysNone(entries, keys, i + 1);
          return None;
        case Named(n) =>
          acc := acc + [n];
      }
    }
    assert keys[..|keys|] == keys;
    return Some(acc);
  }

  lemma {:induction false} LabelNamesStaysNone(entries: map<string, LabelEntry>, keys: seq<string>, i: nat)
    requires i <= |keys| && LabelNamesOf(entries, keys[..i]).None?
    ensures LabelNamesOf(entries, keys).None?
    decreases |keys| - i
  {
    if i < |keys| {
      assert keys[..i + 1][..i] == keys[..i];
      LabelNamesStaysNone(entries, keys, i + 1);
    } else {
      assert keys[..i] == keys;
    }
  }

  /** The add_task parameters create_task builds, or None when building them
      raises (a missing configuration section or label name). */
  function ParamsFor(config: Config, req: TaskRequest): (r: Option<TaskParams>)
    ensures r.Some? ==> r.value.content == req.content && r.value.description == req.description
    ensures r.Some? ==> r.value.due == DueFor(req.dueDays)
    ensures r.Some? ==> (r.value.parentId.Some? <==> Truthy(req.parentId))
    ensures r.Some? && Truthy(req.parentId) ==> r.value.parentId == req.parentId
    ensures config.priorityMapping.None? ==> r.None?
    ensures r.Some? ==> r.value.priority == PriorityValue(config.priorityMapping.value, req.priority)
    ensures r.Some? ==> Some(r.value.projectId) == ProjectId(config, req.project)
    ensures r.Some? && req.labels == [] ==> r.value.labels == []
    ensures r.Some? && req.labels != [] ==>
              config.labels.Some? && Some(r.value.labels) == LabelNamesOf(config.labels.value, req.labels)
    ensures r.None? <==> config.priorityMapping.None? || ProjectId(config, req.project).None?
                         || (req.labels != [] &&
                             (config.labels.None? || LabelNamesOf(config.labels.value, req.labels).None?))
  {
    if config.priorityMapping.None? then None
    else
      var priority := PriorityValue(config.priorityMapping.value, req.priority);
      match ProjectId(config, req.project)
      case None => None
      case Some(projectId) =>
        var labels := if req.labels == [] then Some([])
                      else if config.labels.None? then None
                      else LabelNamesOf(config.labels.value, req.labels);
        if labels.None? then None
        else
          Some(TaskParams(req.content, req.description, projectId, DueFor(req.dueDays), priority,
                          labels.value, if Truthy(req.parentId) then req.parentId else None))
  }

  /** create_task: without a client nothing is sent and the result is None;
      otherwise the parameters are built and sent, and the result is what
      the remote returned (None when building or sending raised). */
  method CreateTask(hasApi: bool, config: Config, req: TaskRequest, response: Option<Task>)
    returns (sent: Option<TaskParams>, task: Option<Task>)
    ensures !hasApi ==> sent.None? && task.None?
    ensures hasApi ==> sent == ParamsFor(config, req)
    ensures task.Some? <==> hasApi && sent.Some? && response.Some?
    ensures task.Some? ==> task == response
  {
    if !hasApi {
      return None, None;
    }
    if config.priorityMapping.None? {
      return None, None;
    }
    var priority := PriorityValue(config.priorityMapping.value, req.priority);
    var projectId := ProjectId(config, req.project);
    if projectId.None? {
      return None, None;
    }
    var labelNames: seq<string> := [];
    if req.labels != [] {
      if config.labels.None? {
        return None, None;
      }
      var names := LabelNames(config.labels.value, req.labels);
      if names.None? {
        return None, None;
      }
      labelNames := names.value;
    }
    var params := TaskParams(req.content, req.description, projectId.value, DueFor(req.dueDays), priority,
                             labelNames, None);
    if Truthy(req.parentId) {
      params := params.(parentId := req.parentId);
    }
    sent := Some(params);
    task := response;
  }

  // ---------------------------------------------------------------------
  // Batches

  /** One task description of a batch, each key optional. */
  datatype TaskData = TaskData(name: Option<string>, content: Option<string>, project: Option<string>,
                               priority: Option<string>, dueDays: Option<int>, labels: Option<seq<string>>,
                               body: Option<string>, note: Option<string>)

  /** The name of the i-th task (counting from 1): its name, else its content,
      else "任务 i". */
  function TaskName(data: TaskData, i: nat): (r: string)
    ensures data.name.Some? ==> r == data.name.value
    ensures data.name.None? && data.content.Some? ==> r == data.content.value
    ensures data.name.None? && data.content.None? ==> r == "任务 " + NatToString(i)
  {
    data.name.GetOr(data.content.GetOr("任务 " + NatToString(i)))
  }

  /** The create_task arguments of the i-th task of a batch: project "other",
      priority "medium", due tomorrow, no labels and the body (else the note,
      else "") as description, when the task does not say otherwise. */
  function BatchRequest(data: TaskData, i: nat): (req: TaskRequest)
    ensures req.content == TaskName(data, i)
    ensures req.project == Some(if data.project.Some? then data.project.value else "other")
    ensures req.priority == if data.priority.Some? then data.priority.value else "medium"
    ensures req.dueDays == if data.dueDays.Some? then data.dueDays.value else 1
    ensures req.labels == if data.labels.Some? then data.labels.value else []
    ensures data.body.Some? ==> req.description == data.body.value
    ensures data.body.None? && data.note.Some? ==> req.description == data.note.value
    ensures data.body.None? && data.note.None? ==> req.description == ""
    ensures req.parentId.None?
  {
    TaskRequest(TaskName(data, i), Some(data.project.GetOr("other")), data.priority.GetOr("medium"),
                data.dueDays.GetOr(1), data.labels.GetOr([]), data.body.GetOr(data.note.GetOr("")), None)
  }

  /** The task each call of a batch returns, when a client exists: the
      remote's response for call i when the parameters could be built. */
  function BatchResult(config: Config, data: TaskData, i: nat, response: Option<Task>): (r: Option<Task>)
    ensures r.Some? <==> response.Some? && ParamsFor(config, BatchRequest(data, i + 1)).Some?
    ensures r.Some? ==> r == response
  {
    if ParamsFor(config, BatchRequest(data, i + 1)).Some? then response else None
  }

  /** The created tasks of a batch, in order. */
  function CreatedTasks(config: Config, tasks: seq<TaskData>, remote: nat -> Option<Task>): (r: seq<Task>)
    ensures |r| <= |tasks|
  {
    if tasks == [] then []
    else
      var n := |tasks| - 1;
      CreatedTasks(config, tasks[..n], remote)
      + (match BatchResult(config, tasks[n], n, remote(n)) case Some(t) => [t] case None => [])
  }

  /** Every created task is one the remote returned for some call. */
  lemma {:induction false} CreatedTasksFromRemote(config: Config, tasks: seq<TaskData>, remote: nat -> Option<Task>)
    ensures forall t :: t in CreatedTasks(config, tasks, remote) ==>
              exists i :: 0 <= i < |tasks| && remote(i) == Some(t)
  {
    if tasks != [] {
      var n := |tasks| - 1;
      CreatedTasksFromRemote(config, tasks[..n], remote);
    }
  }

  lemma CreatedTasksStep(config: Config, tasks: seq<TaskData>, remote: nat -> Option<Task>, i: nat)
    requires i < |tasks|
    ensures var r := BatchResult(config, tasks[i], i, remote(i));
            CreatedTasks(config, tasks[..i + 1], remote)
            == if r.Some? then CreatedTasks(config, tasks[..i], remote) + [r.value]
               else CreatedTasks(config, tasks[..i], remote)
  {
    assert tasks[..i + 1][..i] == tasks[..i];
  }

  /** The counters of create_tasks_batch. */
  datatype BatchResults = BatchResults(success: nat, failed: nat, tasks: seq<Task>)

  /** The body of the create_tasks_batch loop: the i-th entry (counting from
      0) becomes a create_task call, with a client present. */
  method CreateBatchTask(config: Config, data: TaskData, i: nat, response: Option<Task>) returns (task: Option<Task>)
    ensures task == BatchResult(config, data, i, response)
  {
    var req := BatchRequest(data, i + 1);
    var sent;
    sent, task := CreateTask(true, config, req, response);
  }

  /** create_tasks_batch: one create_task per entry, numbered from 1; the
      remote's answer to call i is remote(i). Without a client nothing is
      attempted. */
  method CreateTasksBatch(hasApi: bool, config: Config, tasks: seq<TaskData>, remote: nat -> Option<Task>)
    returns (results: BatchResults)
    ensures !hasApi ==> results == BatchResults(0, 0, [])
    ensures hasApi ==> results.success + results.failed == |tasks|
    ensures hasApi ==> results.tasks == CreatedTasks(config, tasks, remote)
    ensures |results.tasks| == results.success
  {
    if !hasApi {
      return BatchResults(0, 0, []);
    }
    results := BatchResults(0, 0, []);
    for i := 0 to |tasks|
      invariant results.success + results.failed == i
      invariant results.tasks == CreatedTasks(config, tasks[..i], remote)
      invariant |results.tasks| == results.success
    {
      var task := CreateBatchTask(config, tasks[i], i, remote(i));
      CreatedTasksStep(config, tasks, remote, i);
      if task.Some? {
        results := results.(success := results.success + 1, tasks := results.tasks + [task.value]);
      } else {
        results := results.(failed := results.failed + 1);
      }
    }
    assert tasks[..|tasks|] == tasks;
  }

  // ---------------------------------------------------------------------
  // Listing

  /** _flatten_paginator: the pages' items, page after page. */
  method FlattenPaginator<T>(pages: seq<seq<T>>) returns (results: seq<T>)
    ensures results == Concat(pages)
  {
    results := [];
    for i := 0 to |pages|
      invariant results == Concat(pages[..i])
    {
      assert pages[..i + 1][..i] == pages[..i];
      results := results + pages[i];
    }
    assert pages[..|pages|] == pages;
  }

  /** The filters get_all_tasks passes. */
  datatype Filters = Filters(projectId: Option<string>, labelName: Option<string>)

  /** The filters for a project and label name, or None when reading the
      configuration raises. */
  function FiltersFor(config: Config, project: Option<string>, labelName: Option<string>): (r: Option<Filters>)
    ensures !Truthy(project) && !Truthy(labelName) ==> r == Some(Filters(None, None))
    ensures r.Some? && r.value.projectId.Some? ==> Truthy(r.value.projectId)
  {
    var projectId :=
      if !Truthy(project) then Some(None)
      else if config.projects.None? then None
      else if project.value in config.projects.value && Truthy(config.projects.value[project.value])
      then Some(config.projects.value[project.value])
      else Some(None);
    var name :=
      if !Truthy(labelName) then Some(None)
      else if config.labels.None? then None
      else if labelName.value !in config.labels.value || config.labels.value[labelName.value].Blank? then Some(None)
      else if config.labels.value[labelName.value].NoName? then None
      else Some(Some(config.labels.value[labelName.value].name));
    if projectId.None? || name.None? then None
    else Some(Filters(projectId.value, name.value))
  }

  /** get_all_tasks: the flattened listing for the filters; [] without a
      client, and [] when the configuration or the listing raises (None). */
  method GetAllTasks(hasApi: bool, config: Config, project: Option<string>, labelName: Option<string>,
                     listing: Filters -> Option<seq<seq<Task>>>)
    returns (tasks: seq<Task>)
    ensures !hasApi ==> tasks == []
    ensures hasApi && FiltersFor(config, project, labelName).None? ==> tasks == []
    ensures hasApi && FiltersFor(config, project, labelName).Some? ==>
              var pages := listing(FiltersFor(config, project, labelName).value);
              tasks == if pages.Some? then Concat(pages.value) else []
  {
    if !hasApi {
      return [];
    }
    var filters := FiltersFor(config, project, labelName);
    if filters.None? {
      return [];
    }
    var pages := listing(filters.value);
    if pages.None? {
      return [];
    }
    tasks := FlattenPaginator(pages.value);
  }

  /** The ids of the live tasks, as the gardener collects them. */
  function LiveIds(tasks: seq<Task>): (ids: set<string>)
    ensures forall t :: t in tasks ==> t.id in ids
    ensures forall id :: id in ids ==> exists t :: t in tasks && t.id == id
    ensures tasks == [] ==> ids == {}
  {
    set t | t in tasks :: t.id
  }
}
