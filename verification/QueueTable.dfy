/** The queue file read as a table from action id to action. The first action with an id is
    the one every operation finds, so it is the one the table shows. */
module QueueTable {
  import opened Common
  import opened Authority
  import opened QueueProtocol

  function Table(actions: seq<Action>): map<string, Action> {
    if actions == [] then map[] else Table(actions[1..])[actions[0].id := actions[0]]
  }

  function RowsOf(file: File<Queue>): seq<Action> {
    if file.Doc? then file.value.actions else []
  }

  function TableOf(s: State): map<string, Action> {
    Table(RowsOf(s.queue))
  }

  predicate UniqueIds(actions: seq<Action>) {
    forall i, j :: 0 <= i < j < |actions| ==> actions[i].id != actions[j].id
  }

  /** The table is exactly what _find_locked sees. */
  lemma TableIsFind(actions: seq<Action>, id: string)
    ensures Find(actions, id).Some? <==> id in Table(actions)
    ensures Find(actions, id).Some? ==> Table(actions)[id] == actions[Find(actions, id).value]
  {
    if actions != [] && actions[0].id != id { TableIsFind(actions[1..], id); }
  }

  lemma TableKeysAreIds(actions: seq<Action>, id: string)
    requires id in Table(actions)
    ensures Table(actions)[id].id == id && Table(actions)[id] in actions
  {
    TableIsFind(actions, id);
  }

  /** Replacing the found row replaces one table entry. */
  lemma TableUpdate(actions: seq<Action>, id: string, a: Action)
    requires Find(actions, id).Some? && a.id == id
    ensures Table(actions[Find(actions, id).value := a]) == Table(actions)[id := a]
  {
    var i := Find(actions, id).value;
    if actions[0].id == id {
      assert actions[0 := a][1..] == actions[1..];
    } else {
      TableUpdate(actions[1..], id, a);
      assert actions[i := a][1..] == actions[1..][i - 1 := a];
    }
  }

  /** Appending under a new id adds one table entry. */
  lemma TableAppend(actions: seq<Action>, a: Action)
    requires Find(actions, a.id).None?
    ensures Table(actions + [a]) == Table(actions)[a.id := a]
  {
    if actions == [] {
      assert (actions + [a])[1..] == [];
    } else {
      TableAppend(actions[1..], a);
      assert (actions + [a])[1..] == actions[1..] + [a];
    }
  }

  /** With unique ids every row is visible. */
  lemma UniqueRowsAreVisible(actions: seq<Action>, i: nat)
    requires UniqueIds(actions) && i < |actions|
    ensures actions[i].id in Table(actions) && Table(actions)[actions[i].id] == actions[i]
  {
    TableIsFind(actions, actions[i].id);
  }

  lemma UpdateKeepsUnique(actions: seq<Action>, i: nat, a: Action)
    requires UniqueIds(actions) && i < |actions| && a.id == actions[i].id
    ensures UniqueIds(actions[i := a])
  {
  }

  lemma AppendKeepsUnique(actions: seq<Action>, a: Action)
    requires UniqueIds(actions) && Find(actions, a.id).None?
    ensures UniqueIds(actions + [a])
  {
  }
}
