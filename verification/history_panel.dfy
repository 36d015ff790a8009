/** RecipeHistory.jsx: the history panel's search and filter dispatcher. Its
    state is the list on display (`filteredRecipes`), the key of the active
    filter (`activeFilter`) and the search box text (`searchTerm`); the full
    list arrives as the `recipes` prop. The search and filter callbacks are
    supplied by the parent and may answer with anything, so their answer is
    a parameter of the handler that awaits it. */
module HistoryPanel {
  import opened Js
  import opened History

  /** An element of a list the panel displays, as a JavaScript value: `null`,
      or an object with the fields the panel reads. A missing `id` reads as
      0 and a missing `content` as "", both falsy like the missing field. */
  datatype Item = NullItem | Obj(id: int, content: string, timestamp: string, form: Option<Form>)

  /** What a search or filter callback produced when awaited: `null` or
      `undefined`, a single non-array value, an array, or a thrown error. */
  datatype Answer = Undefined | Single(item: Item) | Arr(items: seq<Item>) | Threw(message: string)

  /** The list and filter key the panel shows after a handler has run. */
  datatype Display = Display(shown: seq<Item>, key: string)

  const AllKey := "all"
  const SearchKey := "search"

  /** The history entry App.jsx hands to the panel, seen as a value. */
  function ToItem(e: HistoryEntry): Item {
    Obj(e.id, e.content, e.timestamp, Some(e.form))
  }

  function ToItems(es: seq<HistoryEntry>): (items: seq<Item>)
    ensures |items| == |es|
    ensures forall k :: 0 <= k < |es| ==> items[k] == ToItem(es[k])
  {
    seq(|es|, k requires 0 <= k < |es| => ToItem(es[k]))
  }

  /** `recipe && recipe.id && recipe.content && recipe.form`. */
  predicate IsValid(x: Item) {
    x.Obj? && x.id != 0 && x.content != "" && x.form.Some?
  }

  /** `null` fails the check, and a history entry passes it exactly when
      its id is non-zero and its content non-empty (its form is always
      there). */
  lemma EntryValid(e: HistoryEntry)
    ensures !IsValid(NullItem)
    ensures IsValid(ToItem(e)) <==> e.id != 0 && e.content != ""
  {
  }

  /** `results.filter(IsValid)`. */
  function ValidOnly(xs: seq<Item>): (r: seq<Item>)
    ensures |r| <= |xs|
  {
    if |xs| == 0 then []
    else if IsValid(xs[0]) then [xs[0]] + ValidOnly(xs[1..])
    else ValidOnly(xs[1..])
  }

  /** The filter keeps exactly the valid elements, and keeps an all-valid
      list whole. */
  lemma {:induction false} ValidOnlyKeeps(xs: seq<Item>)
    ensures forall x {:trigger x in ValidOnly(xs)} :: x in ValidOnly(xs) <==> x in xs && IsValid(x)
    ensures (forall k :: 0 <= k < |xs| ==> IsValid(xs[k])) ==> ValidOnly(xs) == xs
  {
    if |xs| > 0 {
      ValidOnlyKeeps(xs[1..]);
      assert xs == [xs[0]] + xs[1..];
      forall x ensures x in ValidOnly(xs) <==> x in xs && IsValid(x) {
        assert x in xs <==> x == xs[0] || x in xs[1..];
      }
      if forall k :: 0 <= k < |xs| ==> IsValid(xs[k]) {
        assert forall k :: 0 <= k < |xs[1..]| ==> IsValid(xs[1..][k]);
      }
    }
  }

  /** The filter works element by element: filtering a concatenation
      concatenates the filtered parts, so the kept entries stay in their
      original order. */
  lemma {:induction false} ValidOnlyAppend(a: seq<Item>, b: seq<Item>)
    ensures ValidOnly(a + b) == ValidOnly(a) + ValidOnly(b)
  {
    if |a| == 0 {
      assert a + b == b;
    } else {
      var x, t := a[0], a[1..];
      assert [x] + t == a;
      assert [x] + (t + b) == a + b;
      ValidOnlyAppend(t, b);
      ValidOnlyCons(x, t);
      ValidOnlyCons(x, t + b);
      if IsValid(x) {
        AppendAssoc([x], ValidOnly(t), ValidOnly(b));
      }
    }
  }

  /** One step of the filter: a valid head is kept in front. */
  lemma ValidOnlyCons(x: Item, s: seq<Item>)
    ensures ValidOnly([x] + s) == if IsValid(x) then [x] + ValidOnly(s) else ValidOnly(s)
  {
    assert ([x] + s)[0] == x && ([x] + s)[1..] == s;
  }

  /** The filter types that call the backend; any other type, 'all'
      included, falls through to the full list. */
  predicate IsBackendFilter(filterType: string) {
    filterType in {"mealType", "cuisine", "complexity", "cookingTime"}
  }

  /** `${filterType}-${value}`; an omitted value prints as "undefined". The
      key starts with the type followed by '-', and the rest is the value. */
  function FilterKey(filterType: string, value: Option<string>): (key: string)
    ensures |key| > |filterType| && key[..|filterType|] == filterType && key[|filterType|] == '-'
    ensures key[|filterType| + 1..] == (if value.Some? then value.value else "undefined")
  {
    filterType + "-" + (match value case None => "undefined" case Some(v) => v)
  }

  /** The normalisation of lines 80-89 applied to an answer that did not throw:
      a falsy answer and an empty array become the full list, a single value
      becomes a one-element list, a non-empty array is kept. */
  function Normalise(answer: Answer, recipes: seq<Item>): (results: seq<Item>)
    requires !answer.Threw?
    ensures answer == Undefined || answer == Single(NullItem) || answer == Arr([]) ==> results == recipes
    ensures answer.Single? && answer.item.Obj? ==> results == [answer.item]
    ensures recipes != [] ==> results != []
    ensures answer.Arr? && answer.items != [] ==> results == answer.items
    ensures forall x :: x in results ==>
              x in recipes || (answer.Single? && x == answer.item) || (answer.Arr? && x in answer.items)
  {
    match answer
    case Undefined => recipes
    case Single(x) => if x.NullItem? then recipes else [x]
    case Arr(xs) => if |xs| == 0 then recipes else xs
  }

  /** Lines 92-101: the valid entries of `results`, in their order, or the
      full list when none is valid. Either the full list is shown because
      nothing valid remained, or a non-empty list of exactly the valid
      entries is. */
  function Settle(results: seq<Item>, recipes: seq<Item>): (r: seq<Item>)
    ensures (forall x :: x in results ==> !IsValid(x)) ==> r == recipes
    ensures (exists x :: x in results && IsValid(x)) ==>
              && r == ValidOnly(results)
              && r != []
              && (forall k :: 0 <= k < |r| ==> IsValid(r[k]))
              && (forall x :: x in r <==> x in results && IsValid(x))
  {
    var valid := ValidOnly(results);
    ValidOnlyKeeps(results);
    assert |valid| > 0 ==> valid[0] in valid;
    assert forall k :: 0 <= k < |valid| ==> valid[k] in valid;
    assert forall x :: x in results && IsValid(x) ==> x in valid;
    if |valid| == 0 then recipes else valid
  }

  /** What `handleFilter(filterType, value)` leaves on display, given what the
      dispatched callback produced (ignored when nothing is dispatched). A
      single answer is shown alone when it is valid; an array shows its
      valid entries in order, or the full list when it has none; a type
      that dispatches nothing filters the full list itself. */
  function FilterOutcome(recipes: seq<Item>, filterType: string, value: Option<string>, answer: Answer): (d: Display)
    ensures d.shown == recipes || (d.shown != [] && forall k :: 0 <= k < |d.shown| ==> IsValid(d.shown[k]))
    ensures IsBackendFilter(filterType) && answer.Single? && answer.item.Obj? ==>
              d.shown == (if IsValid(answer.item) then [answer.item] else recipes)
    ensures IsBackendFilter(filterType) && answer.Arr? && ValidOnly(answer.items) != [] ==>
              d.shown == ValidOnly(answer.items)
    ensures IsBackendFilter(filterType) && answer.Arr? && answer.items != [] && ValidOnly(answer.items) == [] ==>
              d.shown == recipes
    ensures !IsBackendFilter(filterType) ==>
              d.shown == (if ValidOnly(recipes) == [] then recipes else ValidOnly(recipes))
    ensures d.key == AllKey <==> IsBackendFilter(filterType) && answer.Threw?
    ensures d.key != AllKey ==> d.key == FilterKey(filterType, value)
  {
    var raw := if IsBackendFilter(filterType) then answer else Arr(recipes);
    if raw.Threw? then Display(recipes, AllKey)
    else if raw.Single? && raw.item.Obj? then
      ValidOnlyCons(raw.item, []);
      ValidOnlyKeeps([raw.item]);
      Display(Settle(Normalise(raw, recipes), recipes), FilterKey(filterType, value))
    else Display(Settle(Normalise(raw, recipes), recipes), FilterKey(filterType, value))
  }

  /** What `handleSearch()` leaves on display for the given box text. */
  function SearchOutcome(recipes: seq<Item>, term: string, answer: Answer): (d: Display)
    ensures d.key == AllKey || d.key == SearchKey
    ensures d.key == AllKey <==> AllSpace(term) || answer.Threw?
    ensures d.key == AllKey ==> d.shown == recipes
    ensures d.key == SearchKey ==> forall x :: x in d.shown ==> answer.Arr? && x in answer.items
  {
    if IsBlank(term) then Display(recipes, AllKey)
    else match answer
      case Threw(_) => Display(recipes, AllKey)
      case Arr(xs) => if |xs| > 0 then Display(xs, SearchKey) else Display([], SearchKey)
      case _ => Display([], SearchKey)
  }

  /** A successful filter has the key `type-value`; it shows the valid
      entries of the normalised answer, in order, when there are any, and
      the full list when there are none. */
  lemma FilterResultShape(recipes: seq<Item>, filterType: string, value: Option<string>, answer: Answer)
    requires !(IsBackendFilter(filterType) && answer.Threw?)
    ensures var d := FilterOutcome(recipes, filterType, value, answer);
            var raw := if IsBackendFilter(filterType) then answer else Arr(recipes);
            && d.key == FilterKey(filterType, value)
            && (ValidOnly(Normalise(raw, recipes)) == [] ==> d.shown == recipes)
            && (ValidOnly(Normalise(raw, recipes)) != [] ==>
                  d.shown == ValidOnly(Normalise(raw, recipes))
                  && forall k :: 0 <= k < |d.shown| ==> IsValid(d.shown[k]))
  {
    var raw := if IsBackendFilter(filterType) then answer else Arr(recipes);
    var valid := ValidOnly(Normalise(raw, recipes));
    ValidOnlyKeeps(Normalise(raw, recipes));
    assert forall k :: 0 <= k < |valid| ==> valid[k] in valid;
  }

  /** A filter whose callback answers with one valid value (not an array)
      shows that value alone under `type-value`; a `null` answer is falsy
      and is read as no answer at all. */
  lemma SingleFilterAnswerShown(recipes: seq<Item>, filterType: string, value: Option<string>, x: Item)
    requires IsBackendFilter(filterType) && IsValid(x)
    ensures FilterOutcome(recipes, filterType, value, Single(x)) == Display([x], FilterKey(filterType, value))
  {
  }

  /** A filter whose callback answers with an empty array, `null` or
      `undefined` shows the same list as the 'all' filter. */
  lemma EmptyFilterFallsBack(recipes: seq<Item>, filterType: string, value: Option<string>, answer: Answer, other: Answer)
    requires answer == Arr([]) || answer == Undefined || answer == Single(NullItem)
    ensures FilterOutcome(recipes, filterType, value, answer).shown
            == FilterOutcome(recipes, "all", None, other).shown
  {
  }

  /** A filter whose callback answers with a non-empty array of valid
      entries shows exactly that array. */
  lemma ValidFilterAnswerShown(recipes: seq<Item>, filterType: string, value: Option<string>, xs: seq<Item>)
    requires IsBackendFilter(filterType)
    requires xs != [] && forall k :: 0 <= k < |xs| ==> IsValid(xs[k])
    ensures FilterOutcome(recipes, filterType, value, Arr(xs)) == Display(xs, FilterKey(filterType, value))
  {
    ValidOnlyKeeps(xs);
  }

  /** The 'All' button calls `handleFilter('all')` without a value, so the
      key it sets is 'all-undefined', not the 'all' the button is highlighted
      for. */
  lemma AllButtonKey(recipes: seq<Item>, answer: Answer)
    ensures FilterOutcome(recipes, "all", None, answer).key == "all-undefined"
    ensures FilterOutcome(recipes, "all", None, answer).key != AllKey
  {
    assert !IsBackendFilter("all");
    var key := FilterKey("all", None);
    assert key == "all-undefined";
    assert |key| != |AllKey|;
  }

  /** A callback that throws leaves the full list and the 'all' key. */
  lemma FilterErrorReverts(recipes: seq<Item>, filterType: string, value: Option<string>, message: string)
    requires IsBackendFilter(filterType)
    ensures FilterOutcome(recipes, filterType, value, Threw(message)) == Display(recipes, AllKey)
  {
  }

  /** A non-blank search answered with a non-empty array shows that array,
      unvalidated, under the 'search' key. */
  lemma NonEmptySearchShown(recipes: seq<Item>, term: string, xs: seq<Item>)
    requires !AllSpace(term) && xs != []
    ensures SearchOutcome(recipes, term, Arr(xs)) == Display(xs, SearchKey)
  {
  }

  /** A search callback that throws leaves the full list and the 'all'
      key. */
  lemma SearchErrorReverts(recipes: seq<Item>, term: string, message: string)
    ensures SearchOutcome(recipes, term, Threw(message)) == Display(recipes, AllKey)
  {
  }

  /** A blank search shows the same list and key as clearing the filters
      (which also empties the search box; the blank text stays there). */
  lemma BlankSearchIsClear(recipes: seq<Item>, term: string, answer: Answer)
    requires AllSpace(term)
    ensures SearchOutcome(recipes, term, answer) == Display(recipes, AllKey)
  {
  }

  /** A non-blank search that finds nothing shows an empty list under the
      'search' key, which differs from the full list whenever there is
      history at all. */
  lemma EmptySearchIsExplicit(recipes: seq<Item>, term: string, answer: Answer)
    requires !AllSpace(term)
    requires answer == Arr([]) || answer == Undefined || answer.Single?
    ensures SearchOutcome(recipes, term, answer) == Display([], SearchKey)
    ensures recipes != [] ==> SearchOutcome(recipes, term, answer).shown != recipes
  {
  }

  /** With App.jsx's callbacks the answer is the joined rows; when every row
      has a non-zero id and non-empty content and there is at least one row,
      the filter shows exactly those entries. */
  lemma JoinedRowsShown(recipes: seq<Item>, filterType: string, value: string,
                        rows: seq<Recipe>, requests: seq<RecipeRequest>)
    requires IsBackendFilter(filterType)
    requires rows != []
    requires forall k :: 0 <= k < |rows| ==> rows[k].id != 0 && rows[k].content != ""
    ensures var entries := ToItems(Join(rows, requests));
            FilterOutcome(recipes, filterType, Some(value), Arr(entries)).shown == entries
  {
    JoinPointwise(rows, requests);
    var joined := Join(rows, requests);
    var entries := ToItems(joined);
    forall k | 0 <= k < |entries| ensures IsValid(entries[k]) {
      assert entries[k] == ToItem(joined[k]);
      assert joined[k].id == rows[k].id && joined[k].content == rows[k].content;
    }
    ValidFilterAnswerShown(recipes, filterType, Some(value), entries);
  }

  /** The ingredient preview of a card: the first three comma-separated
      pieces joined by ", ", followed by "..." when there are more. It shows
      every piece when the text has at most two commas, and the first three
      and "..." when it has three or more. */
  function IngredientPreview(ingredients: string): (preview: string)
    ensures Count(',', ingredients) <= 2 ==> preview == JoinWith(Split(ingredients, ','), ", ")
    ensures Count(',', ingredients) >= 3 ==>
              |Split(ingredients, ',')| >= 4
              && preview == JoinWith(Split(ingredients, ',')[..3], ", ") + "..."
  {
    SplitJoin(ingredients, ',');
    var parts := Split(ingredients, ',');
    assert |parts| <= 3 ==> parts[..|parts|] == parts;
    JoinWith(parts[..if |parts| < 3 then |parts| else 3], ", ")
      + (if |parts| > 3 then "..." else "")
  }

  /** The content preview of a card: `content.substring(0, 100) + '...'`. */
  function ContentPreview(content: string): (r: string)
    ensures 3 <= |r| <= 103 && r[|r| - 3..] == "..."
    ensures r[..|r| - 3] <= content
    ensures |content| <= 100 ==> r == content + "..."
    ensures |content| >= 100 ==> |r| == 103
  {
    content[..if |content| < 100 then |content| else 100] + "..."
  }

  /** The four filter callbacks the panel receives. */
  datatype Callback = ByMealType | ByCuisine | ByComplexity | ByCookingTime

  /** The callback `handleFilter` awaits for a filter type, if any. */
  function CallbackFor(filterType: string): (c: Option<Callback>)
    ensures c.Some? <==> IsBackendFilter(filterType)
    ensures c == Some(ByMealType) <==> filterType == "mealType"
    ensures c == Some(ByCuisine) <==> filterType == "cuisine"
    ensures c == Some(ByComplexity) <==> filterType == "complexity"
    ensures c == Some(ByCookingTime) <==> filterType == "cookingTime"
  {
    if filterType == "mealType" then Some(ByMealType)
    else if filterType == "cuisine" then Some(ByCuisine)
    else if filterType == "complexity" then Some(ByComplexity)
    else if filterType == "cookingTime" then Some(ByCookingTime)
    else None
  }

  /** What the panel renders. */
  datatype PanelView = NoRecipesYet | Cards(items: seq<Item>, noResults: bool)

  class RecipeHistory {
    var recipes: seq<Item>
    var searchTerm: string
    var filteredRecipes: seq<Item>
    var activeFilter: string

    constructor (recipes: seq<Item>)
      ensures this.recipes == recipes && filteredRecipes == recipes
      ensures activeFilter == AllKey && searchTerm == ""
    {
      this.recipes := recipes;
      searchTerm := "";
      filteredRecipes := recipes;
      activeFilter := AllKey;
    }

    /** A new `recipes` prop and the effect it triggers: the display is
        reset to the new list; the filter key and the search text stay. */
    method ReceiveRecipes(recipes: seq<Item>)
      modifies this
      ensures this.recipes == recipes && filteredRecipes == recipes
      ensures activeFilter == old(activeFilter) && searchTerm == old(searchTerm)
    {
      this.recipes := recipes;
      filteredRecipes := recipes;
    }

    /** Typing in the search box. */
    method SetSearchTerm(text: string)
      modifies this
      ensures searchTerm == text
      ensures recipes == old(recipes) && filteredRecipes == old(filteredRecipes)
      ensures activeFilter == old(activeFilter)
    {
      searchTerm := text;
    }

    /** `handleSearch`: `query` is the (untrimmed) text handed to the search
        callback, or nothing when the box is blank. */
    method HandleSearch(answer: Answer) returns (query: Option<string>)
      modifies this
      ensures query == (if IsBlank(searchTerm) then None else Some(searchTerm))
      ensures Display(filteredRecipes, activeFilter) == SearchOutcome(recipes, searchTerm, answer)
      ensures recipes == old(recipes) && searchTerm == old(searchTerm)
    {
      if Trim(searchTerm) != "" {
        query := Some(searchTerm);
        if answer.Threw? {
          filteredRecipes := recipes;
          activeFilter := AllKey;
        } else if answer.Arr? && |answer.items| > 0 {
          filteredRecipes := answer.items;
          activeFilter := SearchKey;
        } else {
          filteredRecipes := [];
          activeFilter := SearchKey;
        }
      } else {
        query := None;
        filteredRecipes := recipes;
        activeFilter := AllKey;
      }
    }

    /** `handleFilter(filterType, value)`: for the four known types it
        calls the matching callback with `value` (`dispatched`), then
        normalises and validates the result and records the key; a thrown
        error reverts to 'all'. */
    method HandleFilter(filterType: string, value: Option<string>, answer: Answer)
      returns (dispatched: Option<(Callback, Option<string>)>)
      modifies this
      ensures dispatched.Some? <==> IsBackendFilter(filterType)
      ensures dispatched.Some? ==> dispatched == Some((CallbackFor(filterType).value, value))
      ensures Display(filteredRecipes, activeFilter) == FilterOutcome(recipes, filterType, value, answer)
      ensures recipes == old(recipes) && searchTerm == old(searchTerm)
    {
      var raw: Answer;
      var callback := CallbackFor(filterType);
      if callback.Some? {
        dispatched := Some((callback.value, value));
        raw := answer;
      } else {
        dispatched := None;
        raw := Arr(recipes);
      }
      if raw.Threw? {
        filteredRecipes := recipes;
        activeFilter := AllKey;
        return;
      }
      var results: seq<Item>;
      if raw.Undefined? || raw == Single(NullItem) {
        results := recipes;
      } else if !raw.Arr? {
        results := [raw.item];
      } else if |raw.items| == 0 {
        results := recipes;
      } else {
        results := raw.items;
      }
      var validResults := ValidOnly(results);
      if |validResults| == 0 {
        results := recipes;
      } else {
        results := validResults;
      }
      filteredRecipes := results;
      activeFilter := FilterKey(filterType, value);
    }

    /** `clearFilters`. */
    method ClearFilters()
      modifies this
      ensures filteredRecipes == recipes && activeFilter == AllKey && searchTerm == ""
      ensures recipes == old(recipes)
    {
      filteredRecipes := recipes;
      activeFilter := AllKey;
      searchTerm := "";
    }

    /** What is rendered: the "no recipes yet" notice when the full list is
        empty, otherwise the cards of the displayed list with the
        "no results" notice exactly when that list is empty. Every handler
        stores an array, so `safeFilteredRecipes` is `filteredRecipes`. */
    function View(): (v: PanelView)
      reads this
      ensures v.NoRecipesYet? <==> recipes == []
      ensures v.Cards? ==> v.items == filteredRecipes && (v.noResults <==> filteredRecipes == [])
    {
      if |recipes| == 0 then NoRecipesYet else Cards(filteredRecipes, |filteredRecipes| == 0)
    }
  }
}
