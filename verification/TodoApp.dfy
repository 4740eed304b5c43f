/**
 * The todo page of the todo app: a module-level list of todos and an id counter, read by `load`
 * and changed by the form actions `create`, `toggle`, `delete` and `clearDone`.
 */
module TodoApp {
  import opened Optional
  import opened Text
  import opened Lists

  datatype Todo = Todo(id: int, text: string, done: bool)

  function TodoId(t: Todo): int { t.id }
  predicate IsDone(t: Todo) { t.done }
  predicate IsPending(t: Todo) { !t.done }

  /** What `create` answers: `{ success: true }`, or `fail(400, { text, error })`. */
  datatype CreateResult =
    | Created
    | CreateFailed(status: int, text: Option<string>, error: string)

  const MinTextLength := 2
  const TextError := "할 일은 2자 이상 입력하세요"

  /** The four todos the server starts with; the counter starts at 5. */
  const Seed: seq<Todo> := [
    Todo(1, "Svelte 5 학습 완료", true),
    Todo(2, "SvelteKit 라우팅 이해하기", true),
    Todo(3, "Form Actions 연습", false),
    Todo(4, "Todo 앱 완성하기", false)
  ]
  const SeedNextId := 5

  /** Ids are pairwise distinct and all below the counter, so the counter is always a fresh id. */
  ghost predicate TodosValid(todos: seq<Todo>, nextId: int) {
    UniqueKeys(todos, TodoId) && KeysBelow(todos, TodoId, nextId)
  }

  /** The list after `toggle(id)`: `done` of the first todo with that id negated, nothing else changed. */
  function Toggled(todos: seq<Todo>, id: int): (r: seq<Todo>)
    ensures |r| == |todos| && Keys(r, TodoId) == Keys(todos, TodoId)
    ensures forall j :: 0 <= j < |todos| ==>
      r[j].id == todos[j].id && r[j].text == todos[j].text &&
      (r[j].done <==> (todos[j].done != (j == FirstIndex(todos, TodoId, id))))
  {
    var i := FirstIndex(todos, TodoId, id);
    var r := if i == -1 then todos else todos[i := todos[i].(done := !todos[i].done)];
    assert Keys(r, TodoId) == Keys(todos, TodoId);
    r
  }

  /** Toggling the same id twice gives back the original list. */
  lemma ToggleInvolution(todos: seq<Todo>, id: int)
    ensures Toggled(Toggled(todos, id), id) == todos
  {
    FirstIndexByKeys(Toggled(todos, id), todos, TodoId, id);
  }

  /** The seed list after `clearDone` holds exactly the todos with ids 3 and 4, both not done. */
  lemma SeedClearDone()
    ensures Filter(Seed, IsPending) == [Seed[2], Seed[3]]
    ensures Keys(Filter(Seed, IsPending), TodoId) == [3, 4]
  {
    assert Filter(Seed[3..], IsPending) == [Seed[3]];
    assert Filter(Seed[2..], IsPending) == [Seed[2], Seed[3]];
    assert Filter(Seed[1..], IsPending) == [Seed[2], Seed[3]];
    var k := Keys([Seed[2], Seed[3]], TodoId);
    assert k[0] == 3 && k[1] == 4;
  }

  class TodoList {
    var todos: seq<Todo>
    var nextId: int

    ghost predicate Valid()
      reads this
    {
      TodosValid(todos, nextId)
    }

    constructor ()
      ensures Valid() && todos == Seed && nextId == SeedNextId
    {
      todos := Seed;
      nextId := SeedNextId;
    }

    /** `load`: a copy of the current list. */
    method Load() returns (r: seq<Todo>)
      ensures r == todos
    {
      r := todos;
    }

    /**
     * `actions.create`: trims the text; a missing text or one shorter than two characters is
     * refused with 400 and the trimmed text echoed; otherwise a new undone todo with the next id is
     * appended.
     */
    method Create(raw: Option<string>) returns (r: CreateResult)
      requires Valid()
      modifies this
      ensures Valid()
      ensures var text := TrimField(raw);
        if text.None? || |text.value| < MinTextLength then
          r == CreateFailed(400, text, TextError) &&
          todos == old(todos) && nextId == old(nextId)
        else
          r == Created &&
          todos == old(todos) + [Todo(old(nextId), text.value, false)] &&
          nextId == old(nextId) + 1
    {
      var text := TrimField(raw);
      if text.None? || |text.value| < MinTextLength {
        r := CreateFailed(400, text, TextError);
      } else {
        var todo := Todo(nextId, text.value, false);
        AppendFresh(todos, todo, TodoId, nextId);
        todos := todos + [todo];
        nextId := nextId + 1;
        r := Created;
      }
    }

    /** `actions.toggle`: flips `done` of the first todo with that id; an unknown id changes nothing. */
    method Toggle(id: int)
      requires Valid()
      modifies this
      ensures Valid()
      ensures todos == Toggled(old(todos), id) && nextId == old(nextId)
    {
      var i := FirstIndex(todos, TodoId, id);
      if i != -1 {
        todos := todos[i := todos[i].(done := !todos[i].done)];
      }
      assert Keys(todos, TodoId) == Keys(old(todos), TodoId);
    }

    /**
     * `actions.delete`: removes the first todo with that id, keeping the others in order; an
     * unknown id changes nothing. Because ids are unique, that is every todo with another id.
     */
    method Delete(id: int)
      requires Valid()
      modifies this
      ensures Valid()
      ensures todos == DeleteFirst(old(todos), TodoId, id) && nextId == old(nextId)
      ensures todos == Filter(old(todos), (t: Todo) => t.id != id)
    {
      var i := FirstIndex(todos, TodoId, id);
      if i != -1 {
        todos := RemoveAt(todos, i);
      }
      DeleteFirstIsFilter(old(todos), TodoId, id, (t: Todo) => t.id != id);
      FilterKeys(old(todos), (t: Todo) => t.id != id, TodoId, nextId);
    }

    /**
     * `actions.clearDone`: collects the ids of the done todos, then deletes each id in turn.
     * Since ids are unique, what is left is exactly the undone todos in their original order.
     */
    method ClearDone()
      requires Valid()
      modifies this
      ensures Valid()
      ensures todos == Filter(old(todos), IsPending) && nextId == old(nextId)
    {
      ghost var s0 := todos;
      var doneIds := Keys(Filter(todos, IsDone), TodoId);
      var k := 0;
      FilterAll(s0, (t: Todo) => t.id !in doneIds[..0]);
      while k < |doneIds|
        invariant 0 <= k <= |doneIds| && nextId == old(nextId)
        invariant todos == Filter(s0, (t: Todo) => t.id !in doneIds[..k])
      {
        var id := doneIds[k];
        var i := FirstIndex(todos, TodoId, id);
        if i != -1 {
          todos := RemoveAt(todos, i);
        }
        ClearStep(s0, doneIds, k);
        k := k + 1;
      }
      assert doneIds[..|doneIds|] == doneIds;
      DoneIdsMarkDone(s0);
      FilterKeys(s0, IsPending, TodoId, nextId);
    }
  }

  /**
   * One round of the `clearDone` loop: deleting the next collected id from what the earlier rounds
   * left is the same as filtering out one more id.
   */
  lemma ClearStep(s0: seq<Todo>, ids: seq<int>, k: int)
    requires UniqueKeys(s0, TodoId) && 0 <= k < |ids|
    ensures DeleteFirst(Filter(s0, (t: Todo) => t.id !in ids[..k]), TodoId, ids[k]) ==
      Filter(s0, (t: Todo) => t.id !in ids[..k + 1])
  {
    var p := (t: Todo) => t.id !in ids[..k];
    var q := (x: Todo) => TodoId(x) != ids[k];
    var before := Filter(s0, p);
    FilterUnique(s0, p, TodoId);
    DeleteFirstIsFilter(before, TodoId, ids[k], q);
    assert ids[..k + 1] == ids[..k] + [ids[k]];
    FilterFilter(s0, p, q, (t: Todo) => t.id !in ids[..k + 1]);
  }

  /**
   * Among todos with unique ids, a todo's id is among the ids of the done todos exactly when the
   * todo itself is done.
   */
  lemma DoneIdsMarkDone(s0: seq<Todo>)
    requires UniqueKeys(s0, TodoId)
    ensures Filter(s0, (t: Todo) => t.id !in Keys(Filter(s0, IsDone), TodoId)) == Filter(s0, IsPending)
  {
    var done := Filter(s0, IsDone);
    var doneIds := Keys(done, TodoId);
    forall t | t in s0 ensures (t.id !in doneIds) == IsPending(t) {
      if IsDone(t) {
        assert t in done;
        var j :| 0 <= j < |done| && done[j] == t;
        assert doneIds[j] == t.id;
      }
      if t.id in doneIds {
        var j :| 0 <= j < |doneIds| && doneIds[j] == t.id;
        assert done[j] in done;
        SameKeySame(s0, TodoId, done[j], t);
      }
    }
    FilterExt(s0, (t: Todo) => t.id !in doneIds, IsPending);
  }
}
