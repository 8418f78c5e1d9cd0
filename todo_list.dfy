/** The to-do list: tasks keyed by their name, each with a done flag. Every
    handler builds a new list from the old one. */
module TodoList {
  import opened Lists

  /** A task: its name (`nom`) and whether it is checked (`coche`). */
  datatype Tache = Tache(nom: string, coche: bool)

  predicate HasTask(taches: seq<Tache>, nom: string)
  {
    exists t :: t in taches && t.nom == nom
  }

  function NameOf(t: Tache): string
  {
    t.nom
  }

  /** The names of the tasks, in list order. */
  function Names(taches: seq<Tache>): seq<string>
  {
    Map(NameOf, taches)
  }

  /** The list the page starts with: one task, "Repasser", already checked. */
  function InitialTaches(): (r: seq<Tache>)
    ensures |r| == 1 && r[0].nom == "Repasser" && r[0].coche
  {
    [Tache("Repasser", true)]
  }

  /** `handleAddtaches`: appends an unchecked task. No check is made for an
      empty name or for a name already in the list. */
  function AddTache(taches: seq<Tache>, nom: string): (r: seq<Tache>)
    ensures |r| == |taches| + 1
    ensures r[..|taches|] == taches
    ensures r[|taches|] == Tache(nom, false)
  {
    taches + [Tache(nom, false)]
  }

  /** `handleToggle`: flips the flag of every task with this name. */
  function Toggle(taches: seq<Tache>, nom: string): (r: seq<Tache>)
    ensures |r| == |taches|
    ensures forall i :: 0 <= i < |taches| ==> r[i].nom == taches[i].nom
    ensures forall i :: 0 <= i < |taches| ==> (r[i].coche != taches[i].coche <==> taches[i].nom == nom)
  {
    Map((t: Tache) => if t.nom == nom then t.(coche := !t.coche) else t, taches)
  }

  /** `handleEdit`: renames every task called `ancienNom`, keeping its flag. */
  function Edit(taches: seq<Tache>, ancienNom: string, nouveauNom: string): (r: seq<Tache>)
    ensures |r| == |taches|
    ensures forall i :: 0 <= i < |taches| ==> r[i].coche == taches[i].coche
    ensures forall i :: 0 <= i < |taches| && taches[i].nom == ancienNom ==> r[i].nom == nouveauNom
    ensures forall i :: 0 <= i < |taches| && taches[i].nom != ancienNom ==> r[i] == taches[i]
  {
    Map((t: Tache) => if t.nom == ancienNom then t.(nom := nouveauNom) else t, taches)
  }

  /** The test `handleDelete` filters with. */
  function OtherName(nom: string): Tache -> bool
  {
    (t: Tache) => t.nom != nom
  }

  /** `handleDelete`: keeps exactly the tasks with another name, in order. */
  function Delete(taches: seq<Tache>, nom: string): (r: seq<Tache>)
    ensures !HasTask(r, nom)
    ensures forall t: Tache :: t.nom != nom ==> multiset(r)[t] == multiset(taches)[t]
    ensures IsSubsequence(r, taches)
    ensures !HasTask(taches, nom) ==> r == taches
  {
    FilterMembers(OtherName(nom), taches);
    FilterMultiset(OtherName(nom), taches);
    FilterSubsequence(OtherName(nom), taches);
    FilterAllKept(OtherName(nom), taches);
    Filter(OtherName(nom), taches)
  }

  /** Toggling the same name twice gives back the list. */
  lemma ToggleTwice(taches: seq<Tache>, nom: string)
    ensures Toggle(Toggle(taches, nom), nom) == taches
  {
    var once := Toggle(taches, nom);
    var twice := Toggle(once, nom);
    assert forall i :: 0 <= i < |taches| ==> twice[i] == taches[i];
  }

  /** Toggle, edit and delete on a name that is not in the list change nothing. */
  lemma AbsentNameChangesNothing(taches: seq<Tache>, nom: string, nouveauNom: string)
    requires !HasTask(taches, nom)
    ensures Toggle(taches, nom) == taches
    ensures Edit(taches, nom, nouveauNom) == taches
    ensures Delete(taches, nom) == taches
  {
    forall i | 0 <= i < |taches| ensures taches[i].nom != nom {
      assert taches[i] in taches;
    }
    assert Toggle(taches, nom) == taches;
  }

  /** Renaming back undoes a rename, provided the new name was not already
      taken (otherwise the renaming back would also catch those tasks). */
  lemma EditUndo(taches: seq<Tache>, ancienNom: string, nouveauNom: string)
    requires !HasTask(taches, nouveauNom)
    ensures Edit(Edit(taches, ancienNom, nouveauNom), nouveauNom, ancienNom) == taches
  {
    var once := Edit(taches, ancienNom, nouveauNom);
    var back := Edit(once, nouveauNom, ancienNom);
    forall i | 0 <= i < |taches| ensures back[i] == taches[i] {
      assert taches[i] in taches;
    }
  }

  /** A task added and then deleted by its name leaves what deleting that
      name from the original list leaves. */
  lemma {:induction false} DeleteAfterAdd(taches: seq<Tache>, nom: string)
    ensures Delete(AddTache(taches, nom), nom) == Delete(taches, nom)
  {
    FilterConcat(OtherName(nom), taches, [Tache(nom, false)]);
    assert Filter(OtherName(nom), [Tache(nom, false)]) == [] by {
      assert [Tache(nom, false)][1..] == [];
    }
  }

  /** Deleting removes as many tasks as carried the name. */
  lemma DeleteLength(taches: seq<Tache>, nom: string)
    ensures |Delete(taches, nom)| == |taches| - multiset(Names(taches))[nom]
  {
    KeptCount(taches, nom);
  }

  lemma {:induction false} KeptCount(taches: seq<Tache>, nom: string)
    ensures |Filter(OtherName(nom), taches)| == |taches| - multiset(Names(taches))[nom]
    decreases |taches|
  {
    if taches != [] {
      KeptCount(taches[1..], nom);
      assert Names(taches) == [taches[0].nom] + Names(taches[1..]);
    }
  }
}
