/** The chat prototype's `POST /todos`: it checks the list name, normalises
    every task to the stored shape, and writes the list under its name. */
module Todos {
  import opened Json

  /** A task as it is stored: five fields copied from the request, with
      defaults, and a completion flag that always starts out false. */
  datatype Task = Task(title: Json, description: Json, priority: Json, dueDate: Json, category: Json, completed: bool)

  /** `v` is what `.get(key, default)` must give: the first member named
      `key` when the task has one, and `default` when it has none. */
  predicate Taken(fs: seq<(string, Json)>, key: string, default: Json, v: Json) {
    && ((forall j :: 0 <= j < |fs| ==> fs[j].0 != key) ==> v == default)
    && (forall i :: 0 <= i < |fs| && fs[i].0 == key && (forall j :: 0 <= j < i ==> fs[j].0 != key) ==> v == fs[i].1)
  }

  /** `.get` on a task finds its member or the default. */
  lemma GetOrTaken(fs: seq<(string, Json)>, key: string, default: Json)
    ensures Taken(fs, key, default, GetOr(fs, key, default))
  {
    forall i | 0 <= i < |fs| && fs[i].0 == key && (forall j :: 0 <= j < i ==> fs[j].0 != key)
      ensures GetOr(fs, key, default) == fs[i].1
    {
      var k := KeyIndex(fs, key);
      assert k.Some? && k.value == i;
    }
  }

  /** One task of the list comprehension at lines 546-553. */
  function NormalizeTask(fs: seq<(string, Json)>): (t: Task)
    ensures !t.completed
  {
    Task(GetOr(fs, "title", JStr("")),
         GetOr(fs, "description", JStr("")),
         GetOr(fs, "priority", JStr("medium")),
         GetOr(fs, "due_date", JNull),
         GetOr(fs, "category", JStr("general")),
         false)
  }

  /** Field by field, a normalised task holds the submitted member when the
      task has one and the default when it has none. */
  lemma NormalizeTaskFields(fs: seq<(string, Json)>)
    ensures var t := NormalizeTask(fs);
      && Taken(fs, "title", JStr(""), t.title)
      && Taken(fs, "description", JStr(""), t.description)
      && Taken(fs, "priority", JStr("medium"), t.priority)
      && Taken(fs, "due_date", JNull, t.dueDate)
      && Taken(fs, "category", JStr("general"), t.category)
  {
    GetOrTaken(fs, "title", JStr(""));
    GetOrTaken(fs, "description", JStr(""));
    GetOrTaken(fs, "priority", JStr("medium"));
    GetOrTaken(fs, "due_date", JNull);
    GetOrTaken(fs, "category", JStr("general"));
  }

  /** A request task missing every field gets the defaults. */
  lemma EmptyTaskDefaults()
    ensures NormalizeTask([]) == Task(JStr(""), JStr(""), JStr("medium"), JNull, JStr("general"), false)
  {
  }

  /** The stored document form of a task. */
  function TaskJson(t: Task): Json {
    JObj([("title", t.title), ("description", t.description), ("priority", t.priority),
          ("due_date", t.dueDate), ("category", t.category), ("completed", JBool(t.completed))])
  }

  /** Normalising a stored task gives it back: the normal form is a fixed point,
      so a list read back and submitted again is stored unchanged. */
  lemma NormalizeStored(t: Task)
    requires !t.completed
    ensures NormalizeTask(TaskJson(t).fields) == t
  {
    var fs := TaskJson(t).fields;
    assert |"title"| == 5 && |"description"| == 11 && |"priority"| == 8 && |"due_date"| == 8 && |"category"| == 8;
    assert "priority" != "due_date" && "priority" != "category" && "due_date" != "category" by {
      assert "priority"[0] == 'p' && "due_date"[0] == 'd' && "category"[0] == 'c';
    }
    assert Get(fs, "title") == Some(t.title);
    assert Get(fs, "description") == Get(fs[1..], "description") == Some(t.description);
    assert fs[1..][1..] == fs[2..] && fs[2..][1..] == fs[3..] && fs[3..][1..] == fs[4..];
    assert Get(fs, "priority") == Get(fs[2..], "priority") == Some(t.priority);
    assert Get(fs, "due_date") == Get(fs[3..], "due_date") == Some(t.dueDate);
    assert Get(fs, "category") == Get(fs[4..], "category") == Some(t.category);
  }

  /** `items[k]` is the first element that is not a dict. */
  predicate FirstNonDict(items: seq<Json>, k: int) {
    0 <= k < |items| && !items[k].JObj? && forall j :: 0 <= j < k ==> items[j].JObj?
  }

  /** The whole comprehension over what `tasks` iterates to: one normalised
      task per element, in order, or the AttributeError of the first element
      that is not a dict. */
  function NormalizeAll(items: seq<Json>): (r: Result<seq<Task>>)
    ensures r.Ok? <==> forall i :: 0 <= i < |items| ==> items[i].JObj?
    ensures r.Ok? ==> |r.value| == |items|
    ensures r.Ok? ==> forall i :: 0 <= i < |items| ==> r.value[i] == NormalizeTask(items[i].fields)
    ensures r.Err? ==> exists k :: FirstNonDict(items, k) && r.error == NoGet(items[k])
  {
    if |items| == 0 then Ok([])
    else if !items[0].JObj? then Err(NoGet(items[0]))
    else match NormalizeAll(items[1..])
      case Err(e) =>
        ghost var k :| FirstNonDict(items[1..], k) && e == NoGet(items[1..][k]);
        assert items[k + 1] == items[1..][k];
        assert FirstNonDict(items, k + 1);
        Err(e)
      case Ok(ts) => Ok([NormalizeTask(items[0].fields)] + ts)
  }

  /** What the Firestore write came to: `document(name)` refused the name,
      `set` raised, or the document was written. */
  datatype StoreOutcome = DocumentRefused(reason: string) | WriteFailed(reason: string) | Written

  /** A stored list: the name and the normalised tasks (the creation time is
      the clock's and is not modelled). */
  datatype TodoList = TodoList(name: Json, tasks: seq<Task>)

  /** What one request did: the list it asked the store to write, if any, and the answer. */
  datatype TodoExchange = TodoExchange(written: Option<TodoList>, response: Response)

  const NameRequired := "List name is required"
  const Created := "Todo list created successfully"

  /** Lines 533-566. */
  function CreateTodoList(body: Payload, store: StoreOutcome): (r: TodoExchange)
    // a falsy name is refused before anything is written
    ensures body.Parsed? && body.value.JObj? && !PyTruthy(GetOr(body.value.fields, "name", JNull)) ==>
      r == TodoExchange(None, ErrorReply(400, NameRequired))
    ensures r.response.status == 400 ==> r.response == ErrorReply(400, NameRequired)
    // the write carries the name and exactly the normalised tasks
    ensures r.written.Some? ==>
      && body.Parsed? && body.value.JObj?
      && var fs := body.value.fields;
      && PyTruthy(GetOr(fs, "name", JNull))
      && r.written.value.name == GetOr(fs, "name", JNull)
      && PyIter(GetOr(fs, "tasks", JArr([]))).Ok?
      && NormalizeAll(PyIter(GetOr(fs, "tasks", JArr([]))).value) == Ok(r.written.value.tasks)
    // success echoes the submitted tasks, not the normalised ones
    ensures r.response.status == 200 <==> r.written.Some? && store.Written?
    ensures r.response.status == 200 ==> var fs := body.value.fields; var name := GetOr(fs, "name", JNull);
      r.response == Reply(200, [("message", JStr(Created)), ("id", name), ("name", name), ("tasks", GetOr(fs, "tasks", JArr([])))])
    ensures r.response.status !in {200, 400} ==> r.response.status == 500
  {
    match body
    case Unreadable(reason) => TodoExchange(None, ErrorReply(500, reason))
    case Parsed(data) =>
      if !data.JObj? then TodoExchange(None, ErrorReply(500, NoGet(data)))
      else
        var name, tasks := GetOr(data.fields, "name", JNull), GetOr(data.fields, "tasks", JArr([]));
        if !PyTruthy(name) then TodoExchange(None, ErrorReply(400, NameRequired))
        else if store.DocumentRefused? then TodoExchange(None, ErrorReply(500, store.reason))
        else match PyIter(tasks)
          case Err(e) => TodoExchange(None, ErrorReply(500, e))
          case Ok(items) =>
            match NormalizeAll(items)
            case Err(e) => TodoExchange(None, ErrorReply(500, e))
            case Ok(normalized) =>
              var written := Some(TodoList(name, normalized));
              if store.WriteFailed? then TodoExchange(written, ErrorReply(500, store.reason))
              else TodoExchange(written, Reply(200, [("message", JStr(Created)), ("id", name), ("name", name), ("tasks", tasks)]))
  }

  /** Normalisation keeps count and order: the stored list holds one task per
      submitted task, each normalised from the task at the same position. */
  lemma StoredTasksFollowRequest(fields: seq<(string, Json)>, items: seq<Json>, store: StoreOutcome)
    requires PyTruthy(GetOr(fields, "name", JNull)) && GetOr(fields, "tasks", JArr([])) == JArr(items)
    requires forall i :: 0 <= i < |items| ==> items[i].JObj?
    requires !store.DocumentRefused?
    ensures var r := CreateTodoList(Parsed(JObj(fields)), store);
      && r.written.Some? && |r.written.value.tasks| == |items|
      && forall i :: 0 <= i < |items| ==> r.written.value.tasks[i] == NormalizeTask(items[i].fields) && !r.written.value.tasks[i].completed
  {
  }

  /** A request without tasks creates an empty list. */
  lemma NoTasksIsEmptyList(name: string)
    requires name != ""
    ensures CreateTodoList(Parsed(JObj([("name", JStr(name))])), Written).written == Some(TodoList(JStr(name), []))
  {
  }
}
