/**
 * The queue drain shared by the reference modals' `updateFiles`: the
 * queued items are popped from the end of the queue, and the j-th item
 * popped (counting from `k`) is handed to one step that changes the notes.
 * The step is a parameter, so what is proved here holds whatever a step
 * writes; each modal supplies its own backlink step.
 */
module Drain {
  import Vault

  /** A step: the notes, the number of items popped before this one, the item; the notes after it. */
  type Step<!T> = (Vault.Notes, nat, T) -> Vault.Notes

  /** The notes after `pending` is drained from its end, `k` items having been popped before. */
  function Drained<T>(step: Step<T>, notes: Vault.Notes, k: nat, pending: seq<T>): Vault.Notes
    decreases |pending|
  {
    if pending == [] then notes
    else Drained(step, step(notes, k, pending[|pending| - 1]), k + 1, pending[..|pending| - 1])
  }

  /** Draining a non-empty queue pops its last item first. */
  lemma DrainedStep<T>(step: Step<T>, notes: Vault.Notes, k: nat, pending: seq<T>)
    requires |pending| > 0
    ensures Drained(step, notes, k, pending)
         == Drained(step, step(notes, k, pending[|pending| - 1]), k + 1, pending[..|pending| - 1])
  {
  }

  /** Later items are handled first: all of `ys` before any of `xs`, which continue the count. */
  lemma {:induction false} DrainedOrder<T>(step: Step<T>, notes: Vault.Notes, k: nat, xs: seq<T>, ys: seq<T>)
    ensures Drained(step, notes, k, xs + ys) == Drained(step, Drained(step, notes, k, ys), k + |ys|, xs)
    decreases |ys|
  {
    if ys == [] {
      assert xs + ys == xs;
    } else {
      var init := ys[..|ys| - 1];
      assert (xs + ys)[..|xs + ys| - 1] == xs + init;
      assert (xs + ys)[|xs + ys| - 1] == ys[|ys| - 1];
      DrainedOrder(step, step(notes, k, ys[|ys| - 1]), k + 1, xs, init);
    }
  }

  /** The earliest item is handled last, as the `|pending|`-th popped, on the notes the others left. */
  lemma EarliestLast<T>(step: Step<T>, notes: Vault.Notes, k: nat, pending: seq<T>)
    requires |pending| > 0
    ensures Drained(step, notes, k, pending)
         == step(Drained(step, notes, k, pending[1..]), k + |pending| - 1, pending[0])
  {
    assert pending == [pending[0]] + pending[1..];
    DrainedOrder(step, notes, k, [pending[0]], pending[1..]);
    assert [pending[0]][..0] == [];
  }

  /** The same, with the count of the last step named `j`. */
  lemma EarliestLastAt<T>(step: Step<T>, notes: Vault.Notes, k: nat, pending: seq<T>, j: nat)
    requires |pending| > 0 && j == k + |pending| - 1
    ensures Drained(step, notes, k, pending) == step(Drained(step, notes, k, pending[1..]), j, pending[0])
  {
    EarliestLast(step, notes, k, pending);
  }

  /** The note paths of the queued items, when `path` says where an item's note lives. */
  function Paths<T>(path: T -> string, pending: seq<T>): set<string>
    decreases |pending|
  {
    if pending == [] then {} else Paths(path, pending[..|pending| - 1]) + {path(pending[|pending| - 1])}
  }

  /** Every queued item's path is among them. */
  lemma {:induction false} PathsHaveEach<T>(path: T -> string, pending: seq<T>, i: nat)
    requires i < |pending|
    ensures path(pending[i]) in Paths(path, pending)
    decreases |pending|
  {
    var last := |pending| - 1;
    if i < last {
      PathsHaveEach(path, pending[..last], i);
      assert pending[..last][i] == pending[i];
    }
  }

  /** A step that adds exactly the item's note adds, over a whole drain, exactly the queued items' notes. */
  lemma {:induction false} DrainedKeys<T>(step: Step<T>, path: T -> string, notes: Vault.Notes, k: nat, pending: seq<T>)
    requires forall m, j, x :: step(m, j, x).Keys == m.Keys + {path(x)}
    ensures Drained(step, notes, k, pending).Keys == notes.Keys + Paths(path, pending)
    decreases |pending|
  {
    if pending != [] {
      var last := pending[|pending| - 1];
      DrainedKeys(step, path, step(notes, k, last), k + 1, pending[..|pending| - 1]);
    }
  }

  /** Hence every queued item ends up with a note. */
  lemma EveryQueuedItemHasNote<T>(step: Step<T>, path: T -> string, notes: Vault.Notes, k: nat, pending: seq<T>, i: nat)
    requires forall m, j, x :: step(m, j, x).Keys == m.Keys + {path(x)}
    requires i < |pending|
    ensures path(pending[i]) in Drained(step, notes, k, pending)
  {
    DrainedKeys(step, path, notes, k, pending);
    PathsHaveEach(path, pending, i);
  }
}
