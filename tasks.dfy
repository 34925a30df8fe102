/** The task list page: the category filter over the user's tasks, and the
    completion handler that marks a task done and credits its reward to the
    signed-in user through the session's `updateBalance`. */
module Tasks {
  import opened Wrappers
  import Seqs
  import Session

  datatype Difficulty = Easy | Medium | Hard

  /** One task offered to the user; the reward is in cents. */
  datatype Task = Task(
    id: string,
    title: string,
    description: string,
    reward: int,
    category: string,
    timeToComplete: nat,
    difficulty: Difficulty,
    isCompleted: bool,
    completedAt: Option<Session.Timestamp>,
    steps: seq<string>)

  /** The category choice that shows every task. */
  const AllCategories: string := "all"

  function InCategory(category: string): Task -> bool
  {
    (t: Task) => t.category == category
  }

  /** `filteredTasks`: everything for "all", otherwise exactly the tasks of
      the chosen category, in list order. */
  function FilteredTasks(tasks: seq<Task>, category: string): (r: seq<Task>)
    ensures category == AllCategories ==> r == tasks
    ensures category != AllCategories ==>
              && Seqs.IsSubsequence(r, tasks)
              && (forall i :: 0 <= i < |r| ==> r[i].category == category)
              && (forall t :: t in r <==> t in tasks && t.category == category)
              && (forall t :: multiset(r)[t] == if t.category == category then multiset(tasks)[t] else 0)
  {
    if category == AllCategories then tasks
    else
      Seqs.FilterIsSubsequence(InCategory(category), tasks);
      Seqs.FilterCounts(InCategory(category), tasks);
      Seqs.Filter(InCategory(category), tasks)
  }

  /** The position of the first task carrying `id`, or `|tasks|` when no
      task carries it: the search `find` performs. */
  function FirstIndex(tasks: seq<Task>, id: string): (k: nat)
    ensures k <= |tasks|
    ensures forall j :: 0 <= j < k ==> tasks[j].id != id
    ensures k < |tasks| ==> tasks[k].id == id
  {
    if tasks == [] then 0
    else if tasks[0].id == id then 0
    else 1 + FirstIndex(tasks[1..], id)
  }

  /** `tasks.find(t => t.id === id)`: the first task carrying `id`, if any. */
  function FindTask(tasks: seq<Task>, id: string): (r: Option<Task>)
    ensures r.None? <==> forall i :: 0 <= i < |tasks| ==> tasks[i].id != id
    ensures r.Some? ==> r.value in tasks && r.value.id == id
    ensures forall k :: 0 <= k < |tasks| && tasks[k].id == id && (forall j :: 0 <= j < k ==> tasks[j].id != id)
              ==> r == Some(tasks[k])
  {
    var k := FirstIndex(tasks, id);
    if k < |tasks| then Some(tasks[k]) else None
  }

  /** A task after completion at time `now`. */
  function Completed(t: Task, now: Session.Timestamp): (c: Task)
    ensures c.isCompleted && c.completedAt == Some(now)
    ensures c.(isCompleted := t.isCompleted, completedAt := t.completedAt) == t
  {
    t.(isCompleted := true, completedAt := Some(now))
  }

  /** The list written by `setTasks` in the completion handler: every task
      carrying `id` is completed, every other task is left as it was. */
  function MarkCompleted(tasks: seq<Task>, id: string, now: Session.Timestamp): (r: seq<Task>)
    ensures |r| == |tasks|
    ensures forall i :: 0 <= i < |tasks| && tasks[i].id == id ==> r[i] == Completed(tasks[i], now)
    ensures forall i :: 0 <= i < |tasks| && tasks[i].id != id ==> r[i] == tasks[i]
  {
    seq(|tasks|, i requires 0 <= i < |tasks| => if tasks[i].id == id then Completed(tasks[i], now) else tasks[i])
  }

  /** Completion keeps every task's id, category and reward. */
  lemma MarkCompletedKeepsIdentity(tasks: seq<Task>, id: string, now: Session.Timestamp, i: int)
    requires 0 <= i < |tasks|
    ensures MarkCompleted(tasks, id, now)[i].id == tasks[i].id
    ensures MarkCompleted(tasks, id, now)[i].category == tasks[i].category
    ensures MarkCompleted(tasks, id, now)[i].reward == tasks[i].reward
  {
  }

  /** Completing an id that no task carries leaves the list as it was. */
  lemma MarkCompletedAbsent(tasks: seq<Task>, id: string, now: Session.Timestamp)
    requires FindTask(tasks, id).None?
    ensures MarkCompleted(tasks, id, now) == tasks
  {
    assert forall i :: 0 <= i < |tasks| ==> tasks[i] in tasks;
  }

  /** Completing the same id again only moves the completion time. */
  lemma MarkCompletedTwice(tasks: seq<Task>, id: string, now1: Session.Timestamp, now2: Session.Timestamp)
    ensures MarkCompleted(MarkCompleted(tasks, id, now1), id, now2) == MarkCompleted(tasks, id, now2)
  {
  }

  /** Completion distributes over putting a task in front of the list. */
  lemma MarkCompletedCons(t: Task, rest: seq<Task>, id: string, now: Session.Timestamp)
    ensures MarkCompleted([t] + rest, id, now)
            == [if t.id == id then Completed(t, now) else t] + MarkCompleted(rest, id, now)
  {
  }

  /** Marking and filtering by category commute: completion never moves a
      task in or out of a category. */
  lemma {:induction false} FilterCommutesWithCompletion(tasks: seq<Task>, category: string, id: string, now: Session.Timestamp)
    ensures FilteredTasks(MarkCompleted(tasks, id, now), category)
            == MarkCompleted(FilteredTasks(tasks, category), id, now)
    decreases |tasks|
  {
    if category != AllCategories && tasks != [] {
      var p := InCategory(category);
      var t, rest := tasks[0], tasks[1..];
      var m := if t.id == id then Completed(t, now) else t;
      assert tasks == [t] + rest;
      MarkCompletedCons(t, rest, id, now);
      var marked := [m] + MarkCompleted(rest, id, now);
      assert marked[1..] == MarkCompleted(rest, id, now);
      FilterCommutesWithCompletion(rest, category, id, now);
      if p(t) {
        assert Seqs.Filter(p, marked) == [m] + Seqs.Filter(p, MarkCompleted(rest, id, now));
        assert Seqs.Filter(p, tasks) == [t] + Seqs.Filter(p, rest);
        MarkCompletedCons(t, Seqs.Filter(p, rest), id, now);
      } else {
        assert Seqs.Filter(p, marked) == Seqs.Filter(p, MarkCompleted(rest, id, now));
        assert Seqs.Filter(p, tasks) == Seqs.Filter(p, rest);
      }
    }
  }

  /** After completion the first task carrying the id is that task, completed:
      its reward is unchanged, so a second completion would credit it again. */
  lemma FindAfterCompletion(tasks: seq<Task>, id: string, now: Session.Timestamp)
    requires FindTask(tasks, id).Some?
    ensures FindTask(MarkCompleted(tasks, id, now), id) == Some(Completed(FindTask(tasks, id).value, now))
  {
    var k := FirstIndex(tasks, id);
    var marked := MarkCompleted(tasks, id, now);
    assert FindTask(tasks, id) == Some(tasks[k]);
    assert marked[k] == Completed(tasks[k], now);
    assert forall j :: 0 <= j < k ==> marked[j] == tasks[j];
    assert marked[k].id == id && forall j :: 0 <= j < k ==> marked[j].id != id;
  }

  /** The "Start Task" button is rendered for a shown task that is not yet
      completed; clicking it selects that task's id. */
  ghost predicate CanStart(tasks: seq<Task>, category: string, id: string): (b: bool)
    ensures b ==> exists t :: t in tasks && t.id == id && !t.isCompleted
    ensures category == AllCategories ==> (b <==> exists t :: t in tasks && t.id == id && !t.isCompleted)
    ensures category != AllCategories ==>
              (b <==> exists t :: t in tasks && t.id == id && !t.isCompleted && t.category == category)
  {
    exists t :: t in FilteredTasks(tasks, category) && t.id == id && !t.isCompleted
  }

  /** Once an id has been completed no task with it offers "Start Task", so
      the page cannot reach the completion handler for it again. */
  lemma CompletedCannotRestart(tasks: seq<Task>, category: string, id: string, now: Session.Timestamp)
    ensures !CanStart(MarkCompleted(tasks, id, now), category, id)
  {
    var marked := MarkCompleted(tasks, id, now);
    assert forall t :: t in marked && t.id == id ==> t.isCompleted;
  }

  /** The page's state; `session` is the provider reached through `useAuth`. */
  class TasksPage {
    const session: Session.AuthSession
    var tasks: seq<Task>
    var selectedCategory: string
    var selectedTask: Option<string>

    constructor (session: Session.AuthSession, initial: seq<Task>)
      ensures this.session == session
      ensures tasks == initial && selectedCategory == AllCategories && selectedTask == None
    {
      this.session := session;
      tasks := initial;
      selectedCategory := AllCategories;
      selectedTask := None;
    }

    /** A category button: changes the filter and nothing else. */
    method SelectCategory(category: string)
      modifies this
      ensures selectedCategory == category
      ensures tasks == old(tasks) && selectedTask == old(selectedTask)
    {
      selectedCategory := category;
    }

    /** "Start Task": only offered for a shown task that is not completed. */
    method StartTask(id: string)
      requires CanStart(tasks, selectedCategory, id)
      modifies this
      ensures selectedTask == Some(id)
      ensures tasks == old(tasks) && selectedCategory == old(selectedCategory)
    {
      selectedTask := Some(id);
    }

    /** `handleCompleteTask`: for an id some task carries, every task with it
        is completed, the first one's reward is credited once through
        `updateBalance`, and the modal closes; for any other id nothing
        changes. The handler itself does not look at `isCompleted`. */
    method HandleCompleteTask(id: string, now: Session.Timestamp)
      requires session.Valid()
      modifies this, session
      ensures session.Valid() && session.loading == old(session.loading)
      ensures session.requests == old(session.requests)
      ensures selectedCategory == old(selectedCategory)
      ensures FindTask(old(tasks), id).None? ==>
                && tasks == old(tasks) && selectedTask == old(selectedTask)
                && session.user == old(session.user) && session.store == old(session.store)
      ensures FindTask(old(tasks), id).Some? ==>
                && tasks == MarkCompleted(old(tasks), id, now)
                && selectedTask == None
                && session.user == Session.AfterUpdate(old(session.user), FindTask(old(tasks), id).value.reward)
                && (old(session.user).None? ==> session.store == old(session.store))
                && (old(session.user).Some? ==>
                      session.store == old(session.store)[Session.UserKey := Session.UserRecord(session.user.value)])
    {
      var task := FindTask(tasks, id);
      if task.Some? {
        tasks := MarkCompleted(tasks, id, now);
        session.UpdateBalance(task.value.reward);
        selectedTask := None;
      }
    }
  }

  /** The handler has no guard of its own: completing the same id twice
      credits the reward twice. */
  method CompleteTwice(page: TasksPage, id: string, now1: Session.Timestamp, now2: Session.Timestamp)
    requires page.session.Valid() && page.session.user.Some?
    requires FindTask(page.tasks, id).Some?
    modifies page, page.session
    ensures page.session.user.Some?
    ensures page.session.user.value.balance
            == old(page.session.user.value.balance) + 2 * old(FindTask(page.tasks, id).value.reward)
    ensures page.tasks == MarkCompleted(old(page.tasks), id, now2)
  {
    ghost var before := page.tasks;
    page.HandleCompleteTask(id, now1);
    FindAfterCompletion(before, id, now1);
    page.HandleCompleteTask(id, now2);
    MarkCompletedTwice(before, id, now1, now2);
  }
}
