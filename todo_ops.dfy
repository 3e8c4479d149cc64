/** The new-list expressions the task list's handlers compute: spread-append
    on create, `map` replace-by-id on toggle and edit, `filter` remove-by-id on
    delete. */
module TodoOps {
  import opened TodoService

  /** `[...todos, t]`: the old records, in order, then exactly `t`. */
  function Append(todos: seq<Todo>, t: Todo): (r: seq<Todo>)
    ensures |r| == |todos| + 1
    ensures r[..|todos|] == todos && r[|todos|] == t
  {
    todos + [t]
  }

  /** `todos.map(todo => todo._id === id ? updated : todo)`: every record with
      that id becomes `updated`; every other record stays where it was. */
  function ReplaceById(todos: seq<Todo>, id: string, updated: Todo): (r: seq<Todo>)
    ensures |r| == |todos|
    ensures forall i :: 0 <= i < |todos| && todos[i].id == id ==> r[i] == updated
    ensures forall i :: 0 <= i < |todos| && todos[i].id != id ==> r[i] == todos[i]
  {
    if todos == [] then []
    else [if todos[0].id == id then updated else todos[0]] + ReplaceById(todos[1..], id, updated)
  }

  /** `todos.filter(todo => todo._id !== id)`: the records without that id. */
  function RemoveById(todos: seq<Todo>, id: string): (r: seq<Todo>)
    ensures |r| <= |todos|
    ensures forall t :: t in r <==> t in todos && t.id != id
  {
    if todos == [] then []
    else if todos[0].id == id then RemoveById(todos[1..], id)
    else [todos[0]] + RemoveById(todos[1..], id)
  }

  /** How many records carry `id`. */
  function CountId(todos: seq<Todo>, id: string): nat {
    if todos == [] then 0 else (if todos[0].id == id then 1 else 0) + CountId(todos[1..], id)
  }

  predicate HasId(todos: seq<Todo>, id: string) {
    exists i :: 0 <= i < |todos| && todos[i].id == id
  }

  /** No two records share an identifier. */
  predicate UniqueIds(todos: seq<Todo>) {
    forall i, j :: 0 <= i < j < |todos| ==> todos[i].id != todos[j].id
  }

  /** Replacing an id no record carries changes nothing. */
  lemma ReplaceMissingIdIsIdentity(todos: seq<Todo>, id: string, updated: Todo)
    requires !HasId(todos, id)
    ensures ReplaceById(todos, id, updated) == todos
  {
  }

  /** Removing an id no record carries changes nothing. */
  lemma {:induction false} RemoveMissingIdIsIdentity(todos: seq<Todo>, id: string)
    requires !HasId(todos, id)
    ensures RemoveById(todos, id) == todos
  {
    if todos != [] {
      assert todos[0].id != id;
      assert !HasId(todos[1..], id) by {
        forall i | 0 <= i < |todos[1..]| ensures todos[1..][i].id != id {
          assert todos[1..][i] == todos[i + 1];
        }
      }
      RemoveMissingIdIsIdentity(todos[1..], id);
      assert todos == [todos[0]] + todos[1..];
    }
  }

  /** Remove-by-id works element by element: it keeps the order of what it keeps. */
  lemma {:induction false} RemoveByIdDistributes(a: seq<Todo>, b: seq<Todo>, id: string)
    ensures RemoveById(a + b, id) == RemoveById(a, id) + RemoveById(b, id)
  {
    if a == [] {
      assert a + b == b;
    } else {
      assert (a + b)[0] == a[0];
      assert (a + b)[1..] == a[1..] + b;
      RemoveByIdDistributes(a[1..], b, id);
    }
  }

  /** Replace-by-id works element by element as well. */
  lemma {:induction false} ReplaceByIdDistributes(a: seq<Todo>, b: seq<Todo>, id: string, updated: Todo)
    ensures ReplaceById(a + b, id, updated) == ReplaceById(a, id, updated) + ReplaceById(b, id, updated)
  {
  }

  /** Remove-by-id shortens the list by exactly the number of records with that id. */
  lemma {:induction false} RemoveByIdLength(todos: seq<Todo>, id: string)
    ensures |RemoveById(todos, id)| == |todos| - CountId(todos, id)
  {
    if todos != [] {
      RemoveByIdLength(todos[1..], id);
    }
  }

  lemma {:induction false} CountIdOfUnique(todos: seq<Todo>, id: string)
    requires UniqueIds(todos)
    ensures CountId(todos, id) == if HasId(todos, id) then 1 else 0
  {
    if todos != [] {
      assert UniqueIds(todos[1..]) by {
        forall i, j | 0 <= i < j < |todos[1..]| ensures todos[1..][i].id != todos[1..][j].id {
          assert todos[1..][i] == todos[i + 1] && todos[1..][j] == todos[j + 1];
        }
      }
      CountIdOfUnique(todos[1..], id);
      if todos[0].id == id {
        assert !HasId(todos[1..], id) by {
          forall i | 0 <= i < |todos[1..]| ensures todos[1..][i].id != id {
            assert todos[1..][i] == todos[i + 1];
          }
        }
      } else {
        if HasId(todos, id) {
          var i :| 0 <= i < |todos| && todos[i].id == id;
          assert todos[1..][i - 1] == todos[i];
        }
        if HasId(todos[1..], id) {
          var i :| 0 <= i < |todos[1..]| && todos[1..][i].id == id;
          assert todos[i + 1] == todos[1..][i];
        }
      }
    }
  }

  /** When identifiers are unique, deleting a present id removes exactly one record. */
  lemma RemovePresentUniqueShrinksByOne(todos: seq<Todo>, id: string)
    requires UniqueIds(todos) && HasId(todos, id)
    ensures |RemoveById(todos, id)| == |todos| - 1
  {
    RemoveByIdLength(todos, id);
    CountIdOfUnique(todos, id);
  }

  /** Removing twice is removing once. */
  lemma RemoveByIdIdempotent(todos: seq<Todo>, id: string)
    ensures RemoveById(RemoveById(todos, id), id) == RemoveById(todos, id)
  {
  }

  /** Replacing twice with the same record is replacing once, whatever the
      record's own id. */
  lemma ReplaceByIdIdempotent(todos: seq<Todo>, id: string, updated: Todo)
    ensures ReplaceById(ReplaceById(todos, id, updated), id, updated) == ReplaceById(todos, id, updated)
  {
  }

  /** Deleting a record right after creating it restores the list, when the
      store assigned an identifier not already in the list. */
  lemma RemoveUndoesAppend(todos: seq<Todo>, t: Todo)
    requires !HasId(todos, t.id)
    ensures RemoveById(Append(todos, t), t.id) == todos
  {
    RemoveByIdDistributes(todos, [t], t.id);
    RemoveMissingIdIsIdentity(todos, t.id);
    assert RemoveById([t], t.id) == RemoveById([], t.id);
  }

  /** Deleting an id after replacing the records with that id (by a record
      with the same id) is the same as deleting it directly. */
  lemma {:induction false} RemoveAfterReplace(todos: seq<Todo>, id: string, updated: Todo)
    requires updated.id == id
    ensures RemoveById(ReplaceById(todos, id, updated), id) == RemoveById(todos, id)
  {
    if todos != [] {
      var r := ReplaceById(todos, id, updated);
      assert r[1..] == ReplaceById(todos[1..], id, updated);
      RemoveAfterReplace(todos[1..], id, updated);
    }
  }

  /** Replacing by a record that keeps the same id keeps the identifiers, in
      order, and so keeps them unique. */
  lemma ReplaceKeepsUniqueIds(todos: seq<Todo>, id: string, updated: Todo)
    requires UniqueIds(todos) && updated.id == id
    ensures UniqueIds(ReplaceById(todos, id, updated))
  {
  }
}
