/** The weekly meal planner: a recipe collection, seven weekday slots that
    each hold a recipe or none, and the draft of a new recipe. Every handler
    replaces a state cell with a new value computed from the old one. */
module MealPlanner {
  import opened Lists

  datatype Recipe = Recipe(id: string, name: string, ingredients: seq<string>, instructions: string)

  /** One weekday slot; `None` is a slot with no recipe. */
  datatype DayPlan = DayPlan(day: string, selectedRecipe: Option<Recipe>)

  /** The recipe being typed in. Each field may be undefined, as in a
      partial recipe. */
  datatype Draft = Draft(name: Option<string>, ingredients: Option<seq<string>>, instructions: Option<string>)

  const Days: seq<string> := ["Lundi", "Mardi", "Mercredi", "Jeudi", "Vendredi", "Samedi", "Dimanche"]

  /** The draft the page starts with, and resets to after a save. */
  const EmptyDraft: Draft := Draft(Some(""), Some([]), Some(""))

  function DayOf(p: DayPlan): string
  {
    p.day
  }

  /** The day labels of a plan, in order. */
  function PlanDays(plan: seq<DayPlan>): seq<string>
  {
    Map(DayOf, plan)
  }

  // ---------------------------------------------------------------------
  // Week plan

  /** The initial plan: one slot per day of `Days`, in order, none assigned. */
  function InitialWeekPlan(): (r: seq<DayPlan>)
    ensures |r| == 7
    ensures PlanDays(r) == Days
    ensures forall i :: 0 <= i < |r| ==> r[i].selectedRecipe == None
  {
    Map((day: string) => DayPlan(day, None), Days)
  }

  /** `selectRecipe`: the slots with this day get the recipe (`None` clears
      them, as "Changer de recette" does); the others are unchanged. */
  function SelectRecipe(plan: seq<DayPlan>, day: string, recipe: Option<Recipe>): (r: seq<DayPlan>)
    ensures |r| == |plan|
    ensures PlanDays(r) == PlanDays(plan)
    ensures forall i :: 0 <= i < |plan| && plan[i].day == day ==> r[i].selectedRecipe == recipe
    ensures forall i :: 0 <= i < |plan| && plan[i].day != day ==> r[i] == plan[i]
  {
    var r := Map((p: DayPlan) => if p.day == day then p.(selectedRecipe := recipe) else p, plan);
    assert PlanDays(r) == PlanDays(plan);
    r
  }

  /** Position `k` holds the first recipe with this id. */
  ghost predicate FirstWithId(recipes: seq<Recipe>, id: string, k: int)
  {
    0 <= k < |recipes| && recipes[k].id == id && forall i :: 0 <= i < k ==> recipes[i].id != id
  }

  /** `recipes.find(r => r.id === value)`: the first recipe with this id. */
  function FindRecipe(recipes: seq<Recipe>, id: string): (r: Option<Recipe>)
    ensures r.None? <==> forall i :: 0 <= i < |recipes| ==> recipes[i].id != id
    ensures r.Some? ==> exists k :: FirstWithId(recipes, id, k) && recipes[k] == r.value
    decreases |recipes|
  {
    if recipes == [] then None
    else if recipes[0].id == id then
      assert FirstWithId(recipes, id, 0);
      Some(recipes[0])
    else
      var found := FindRecipe(recipes[1..], id);
      assert found.Some? ==> exists k :: FirstWithId(recipes, id, k) && recipes[k] == found.value by {
        if found.Some? {
          var k :| FirstWithId(recipes[1..], id, k) && recipes[1..][k] == found.value;
          assert forall i :: 1 <= i < k + 1 ==> recipes[i] == recipes[1..][i - 1];
          assert FirstWithId(recipes, id, k + 1);
        }
      }
      assert found.None? ==> forall i :: 1 <= i < |recipes| ==> recipes[i] == recipes[1..][i - 1];
      found
  }

  /** The day's recipe selector: an id found among the recipes selects that
      recipe; an id that is not there leaves the plan unchanged. */
  function ChooseRecipe(plan: seq<DayPlan>, recipes: seq<Recipe>, day: string, id: string): (r: seq<DayPlan>)
    ensures (forall i :: 0 <= i < |recipes| ==> recipes[i].id != id) ==> r == plan
    ensures FindRecipe(recipes, id).Some? ==> r == SelectRecipe(plan, day, FindRecipe(recipes, id))
  {
    match FindRecipe(recipes, id)
    case Some(recipe) => SelectRecipe(plan, day, Some(recipe))
    case None => plan
  }

  /** The plan has the seven days of `Days`, in order. */
  ghost predicate WellFormedPlan(plan: seq<DayPlan>)
  {
    PlanDays(plan) == Days
  }

  // ---------------------------------------------------------------------
  // Recipes

  /** JavaScript truthiness of an optional string: defined and non-empty. */
  predicate Truthy(s: Option<string>)
  {
    s.Some? && s.value != ""
  }

  /** The guard of `saveRecipe`: a name, some ingredients (an empty list
      passes) and instructions. */
  predicate CanSave(d: Draft)
  {
    Truthy(d.name) && d.ingredients.Some? && Truthy(d.instructions)
  }

  datatype Saved = Saved(recipes: seq<Recipe>, draft: Draft)

  /** `saveRecipe`, with the id (the clock reading in the page) as a parameter. */
  function SaveRecipe(recipes: seq<Recipe>, draft: Draft, id: string): (r: Saved)
    ensures !CanSave(draft) ==> r == Saved(recipes, draft)
    ensures CanSave(draft) ==>
      && |r.recipes| == |recipes| + 1
      && r.recipes[..|recipes|] == recipes
      && r.recipes[|recipes|] == Recipe(id, draft.name.value, draft.ingredients.value, draft.instructions.value)
      && r.draft == EmptyDraft
  {
    if !CanSave(draft) then Saved(recipes, draft)
    else
      var recipe := Recipe(id, draft.name.value, draft.ingredients.value, draft.instructions.value);
      Saved(recipes + [recipe], EmptyDraft)
  }

  // ---------------------------------------------------------------------
  // The ingredients text field

  /** `text.split("\n")`: the pieces between the line breaks; the empty text
      gives one empty piece. */
  function Split(text: string): (r: seq<string>)
    ensures |r| >= 1
    ensures forall i :: 0 <= i < |r| ==> '\n' !in r[i]
    decreases |text|
  {
    if text == [] then [""]
    else
      var rest := Split(text[1..]);
      assert text == [text[0]] + text[1..];
      if text[0] == '\n' then [""] + rest
      else [[text[0]] + rest[0]] + rest[1..]
  }

  /** There is one piece more than there are line breaks. */
  lemma {:induction false} SplitCount(text: string)
    ensures |Split(text)| == 1 + multiset(text)['\n']
    decreases |text|
  {
    if text != [] {
      SplitCount(text[1..]);
      assert text == [text[0]] + text[1..];
    }
  }

  /** `parts.join("\n")`. */
  function Join(parts: seq<string>): string
    decreases |parts|
  {
    if parts == [] then ""
    else if |parts| == 1 then parts[0]
    else parts[0] + "\n" + Join(parts[1..])
  }

  /** Pieces without line breaks are joined with one line break fewer than
      there are pieces. */
  lemma {:induction false} JoinCount(parts: seq<string>)
    requires parts != []
    requires forall i :: 0 <= i < |parts| ==> '\n' !in parts[i]
    ensures multiset(Join(parts))['\n'] == |parts| - 1
    decreases |parts|
  {
    if |parts| > 1 {
      JoinCount(parts[1..]);
      assert '\n' !in parts[0];
    }
  }

  // ---------------------------------------------------------------------
  // Properties

  /** The initial plan is well formed, and `Days` names seven distinct days. */
  lemma InitialPlanWellFormed()
    ensures WellFormedPlan(InitialWeekPlan())
    ensures forall i, j :: 0 <= i < j < |Days| ==> Days[i] != Days[j]
  {
  }

  /** Selecting keeps a plan well formed; in a well-formed plan exactly the
      slot of that day changes. */
  lemma SelectInWellFormedPlan(plan: seq<DayPlan>, k: int, recipe: Option<Recipe>)
    requires WellFormedPlan(plan)
    requires 0 <= k < 7
    ensures WellFormedPlan(SelectRecipe(plan, Days[k], recipe))
    ensures SelectRecipe(plan, Days[k], recipe)[k] == DayPlan(Days[k], recipe)
    ensures forall i :: 0 <= i < 7 && i != k ==> SelectRecipe(plan, Days[k], recipe)[i] == plan[i]
  {
    assert forall i :: 0 <= i < 7 ==> plan[i].day == PlanDays(plan)[i];
  }

  /** "Changer de recette" after a selection returns the plan to one where
      that day is unassigned, whatever recipe was chosen. */
  lemma ClearAfterSelect(plan: seq<DayPlan>, day: string, recipe: Option<Recipe>)
    ensures SelectRecipe(SelectRecipe(plan, day, recipe), day, None) == SelectRecipe(plan, day, None)
  {
    var once := SelectRecipe(plan, day, recipe);
    assert forall i :: 0 <= i < |plan| ==> once[i].day == PlanDays(once)[i] == PlanDays(plan)[i] == plan[i].day;
  }

  /** A successful save leaves the empty draft, which the guard rejects, so
      saving again right away adds nothing. */
  lemma SaveTwiceAddsOnce(recipes: seq<Recipe>, draft: Draft, id1: string, id2: string)
    requires CanSave(draft)
    ensures SaveRecipe(SaveRecipe(recipes, draft, id1).recipes, SaveRecipe(recipes, draft, id1).draft, id2)
         == SaveRecipe(recipes, draft, id1)
  {
  }

  /** Joining the pieces of a split gives back the text, so the ingredients
      field shows what was typed. */
  lemma {:induction false} JoinSplit(text: string)
    ensures Join(Split(text)) == text
    decreases |text|
  {
    if text != [] {
      JoinSplit(text[1..]);
      var rest := Split(text[1..]);
      assert text == [text[0]] + text[1..];
      if text[0] == '\n' {
        JoinAfterBreak(rest);
      } else {
        JoinExtendFirst(text[0], rest);
      }
    }
  }

  /** A leading empty piece joins to a leading line break. */
  lemma JoinAfterBreak(parts: seq<string>)
    requires parts != []
    ensures Join([""] + parts) == "\n" + Join(parts)
  {
    assert ([""] + parts)[1..] == parts;
  }

  /** A character put in front of the first piece comes first in the join. */
  lemma JoinExtendFirst(c: char, parts: seq<string>)
    requires parts != []
    ensures Join([[c] + parts[0]] + parts[1..]) == [c] + Join(parts)
  {
    if |parts| > 1 {
      var rest := parts[1..];
      assert parts == [parts[0]] + rest;
      JoinCons(parts[0], rest);
      JoinCons([c] + parts[0], rest);
      assert ([c] + parts[0]) + "\n" + Join(rest) == [c] + (parts[0] + "\n" + Join(rest));
    }
  }

  lemma JoinCons(piece: string, parts: seq<string>)
    requires parts != []
    ensures Join([piece] + parts) == piece + "\n" + Join(parts)
  {
    assert ([piece] + parts)[1..] == parts;
  }

  /** Splitting a join gives back the pieces when none holds a line break
      and there is at least one; the empty list comes back as one empty
      piece. */
  lemma {:induction false} SplitJoin(parts: seq<string>)
    requires |parts| >= 1
    requires forall i :: 0 <= i < |parts| ==> '\n' !in parts[i]
    ensures Split(Join(parts)) == parts
    decreases |parts|
  {
    if |parts| == 1 {
      SplitNoBreak(parts[0]);
    } else {
      SplitJoin(parts[1..]);
      SplitAfterPiece(parts[0], Join(parts[1..]));
      assert Join(parts) == parts[0] + ("\n" + Join(parts[1..]));
      assert parts == [parts[0]] + parts[1..];
    }
  }

  lemma SplitOfEmptyList()
    ensures Split(Join([])) == [""]
  {
  }

  lemma {:induction false} SplitNoBreak(piece: string)
    requires '\n' !in piece
    ensures Split(piece) == [piece]
    decreases |piece|
  {
    if piece != [] {
      SplitNoBreak(piece[1..]);
      assert piece == [piece[0]] + piece[1..];
    }
  }

  lemma {:induction false} SplitAfterPiece(piece: string, text: string)
    requires '\n' !in piece
    ensures Split(piece + ("\n" + text)) == [piece] + Split(text)
    decreases |piece|
  {
    if piece == [] {
      assert piece + ("\n" + text) == "\n" + text;
      assert ("\n" + text)[1..] == text;
    } else {
      SplitAfterPiece(piece[1..], text);
      var whole := piece + ("\n" + text);
      assert whole[1..] == piece[1..] + ("\n" + text);
      assert whole[0] == piece[0];
      assert piece == [piece[0]] + piece[1..];
    }
  }
}
