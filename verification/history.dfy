/** The client-side join of App.jsx: every recipe the backend returns is
    paired with the request that produced it (matching the recipe's
    `requestId` against the request's `id`) and becomes a history entry. The
    five form fields each fall back to their own "No ... data" text when the
    request is missing or the field is falsy. */
module History {
  import opened Js

  /** A recipe as the backend lists it. `createdAt` is kept as the opaque
      text the backend sends. */
  datatype Recipe = Recipe(id: int, content: string, createdAt: string, requestId: int)

  /** A recipe request as the backend lists it; a missing field is "". */
  datatype RecipeRequest = RecipeRequest(
    id: int, ingredients: string, mealType: string, cuisine: string,
    cookingTime: string, complexity: string)

  /** The five preference fields of the form (also the generate payload). */
  datatype Form = Form(
    ingredients: string, mealType: string, cuisine: string,
    cookingTime: string, complexity: string)

  /** One row of the recipe history shown to the user. */
  datatype HistoryEntry = HistoryEntry(id: int, content: string, timestamp: string, form: Form)

  const NoIngredients := "No ingredients data"
  const NoMealType := "No meal type data"
  const NoCuisine := "No cuisine data"
  const NoCookingTime := "No cooking time data"
  const NoComplexity := "No complexity data"

  const SentinelForm := Form(NoIngredients, NoMealType, NoCuisine, NoCookingTime, NoComplexity)

  /** `requests.find(req => req.id === requestId)`, as the index of the
      first match, or `|requests|` when nothing matches. */
  function FirstMatch(requests: seq<RecipeRequest>, requestId: int): (k: nat)
    ensures k <= |requests|
    ensures k < |requests| ==> requests[k].id == requestId
    ensures forall j :: 0 <= j < k ==> requests[j].id != requestId
  {
    if |requests| == 0 then 0
    else if requests[0].id == requestId then 0
    else 1 + FirstMatch(requests[1..], requestId)
  }

  /** The request whose id is `requestId`, the earliest one if several
      share it, or nothing when none does. */
  function FindRequest(requests: seq<RecipeRequest>, requestId: int): (r: Option<RecipeRequest>)
    ensures r.None? <==> forall j :: 0 <= j < |requests| ==> requests[j].id != requestId
    ensures r.Some? ==> r.value.id == requestId && r.value in requests
  {
    var k := FirstMatch(requests, requestId);
    if k < |requests| then Some(requests[k]) else None
  }

  /** The `form` object built from `request?.field || 'No ... data'`: no
      field of it is ever empty, and a field is the request's own value
      whenever that value is non-empty. */
  function FormOf(request: Option<RecipeRequest>): (f: Form)
    ensures f.ingredients != "" && f.mealType != "" && f.cuisine != ""
    ensures f.cookingTime != "" && f.complexity != ""
    ensures request.None? ==> f == SentinelForm
    ensures request.Some? && request.value.ingredients != "" ==> f.ingredients == request.value.ingredients
    ensures request.Some? && request.value.mealType != "" ==> f.mealType == request.value.mealType
    ensures request.Some? && request.value.cuisine != "" ==> f.cuisine == request.value.cuisine
    ensures request.Some? && request.value.cookingTime != "" ==> f.cookingTime == request.value.cookingTime
    ensures request.Some? && request.value.complexity != "" ==> f.complexity == request.value.complexity
  {
    match request
    case None => SentinelForm
    case Some(q) =>
      Form(OrElse(q.ingredients, NoIngredients), OrElse(q.mealType, NoMealType),
           OrElse(q.cuisine, NoCuisine), OrElse(q.cookingTime, NoCookingTime),
           OrElse(q.complexity, NoComplexity))
  }

  /** The history entry for one recipe: its id, content and creation time
      are the recipe's own. */
  function ToEntry(recipe: Recipe, requests: seq<RecipeRequest>): (e: HistoryEntry)
    ensures e.id == recipe.id && e.content == recipe.content && e.timestamp == recipe.createdAt
  {
    HistoryEntry(recipe.id, recipe.content, recipe.createdAt, FormOf(FindRequest(requests, recipe.requestId)))
  }

  /** When no request has the recipe's `requestId` every form field is its
      sentinel (and nothing fails). */
  lemma OrphanEntryForm(recipe: Recipe, requests: seq<RecipeRequest>)
    requires forall j :: 0 <= j < |requests| ==> requests[j].id != recipe.requestId
    ensures ToEntry(recipe, requests).form == SentinelForm
  {
  }

  /** When request `k` is the first whose id is the recipe's `requestId`,
      each form field is that request's value when it is non-empty and the
      field's own sentinel when it is empty, independently of the others. */
  lemma MatchedEntryForm(recipe: Recipe, requests: seq<RecipeRequest>, k: nat)
    requires k < |requests| && requests[k].id == recipe.requestId
    requires forall j :: 0 <= j < k ==> requests[j].id != recipe.requestId
    ensures var f := ToEntry(recipe, requests).form; var q := requests[k];
      && f.ingredients == (if q.ingredients != "" then q.ingredients else NoIngredients)
      && f.mealType == (if q.mealType != "" then q.mealType else NoMealType)
      && f.cuisine == (if q.cuisine != "" then q.cuisine else NoCuisine)
      && f.cookingTime == (if q.cookingTime != "" then q.cookingTime else NoCookingTime)
      && f.complexity == (if q.complexity != "" then q.complexity else NoComplexity)
  {
    assert FirstMatch(requests, recipe.requestId) == k;
  }

  /** `recipes.map(recipe => ...)`: the join, in backend order. */
  function Join(recipes: seq<Recipe>, requests: seq<RecipeRequest>): (h: seq<HistoryEntry>)
    ensures |h| == |recipes|
  {
    if |recipes| == 0 then []
    else [ToEntry(recipes[0], requests)] + Join(recipes[1..], requests)
  }

  /** The join yields exactly one entry per recipe, in the same position,
      carrying that recipe's id and content: nothing is dropped, added or
      reordered. */
  lemma {:induction false} JoinPointwise(recipes: seq<Recipe>, requests: seq<RecipeRequest>)
    ensures |Join(recipes, requests)| == |recipes|
    ensures forall k :: 0 <= k < |recipes| ==>
              && Join(recipes, requests)[k] == ToEntry(recipes[k], requests)
              && Join(recipes, requests)[k].id == recipes[k].id
              && Join(recipes, requests)[k].content == recipes[k].content
  {
    if |recipes| > 0 {
      JoinPointwise(recipes[1..], requests);
      forall k | 1 <= k < |recipes|
        ensures Join(recipes, requests)[k] == ToEntry(recipes[k], requests)
      {
        assert recipes[1..][k - 1] == recipes[k];
      }
    }
  }

  /** The join distributes over concatenation: joining a batch of recipes
      appended to another joins each batch on its own. */
  lemma {:induction false} JoinAppend(a: seq<Recipe>, b: seq<Recipe>, requests: seq<RecipeRequest>)
    ensures Join(a + b, requests) == Join(a, requests) + Join(b, requests)
  {
    if |a| > 0 {
      var x, t := a[0], a[1..];
      assert [x] + t == a;
      assert [x] + (t + b) == a + b;
      JoinAppend(t, b, requests);
      JoinCons(x, t, requests);
      JoinCons(x, t + b, requests);
      AppendAssoc([ToEntry(x, requests)], Join(t, requests), Join(b, requests));
    } else {
      assert a + b == b;
    }
  }

  /** One step of the join: the first recipe's entry comes first. */
  lemma JoinCons(x: Recipe, t: seq<Recipe>, requests: seq<RecipeRequest>)
    ensures Join([x] + t, requests) == [ToEntry(x, requests)] + Join(t, requests)
  {
    assert ([x] + t)[0] == x && ([x] + t)[1..] == t;
  }

  /** Distinct recipe ids give distinct history ids. */
  lemma JoinKeepsIdsDistinct(recipes: seq<Recipe>, requests: seq<RecipeRequest>)
    requires forall i, j :: 0 <= i < j < |recipes| ==> recipes[i].id != recipes[j].id
    ensures forall i, j :: 0 <= i < j < |Join(recipes, requests)| ==>
              Join(recipes, requests)[i].id != Join(recipes, requests)[j].id
  {
    JoinPointwise(recipes, requests);
  }

  /** With no requests at all (or none that match) every entry carries the
      five sentinels: the join never fails for lack of data. */
  lemma JoinWithoutRequests(recipes: seq<Recipe>)
    ensures |Join(recipes, [])| == |recipes|
    ensures forall k :: 0 <= k < |recipes| ==> Join(recipes, [])[k].form == SentinelForm
  {
    JoinPointwise(recipes, []);
  }

  /** `history.find(r => r.content === content)`, as an index. */
  function FirstWithContent(history: seq<HistoryEntry>, content: string): (k: nat)
    ensures k <= |history|
    ensures k < |history| ==> history[k].content == content
    ensures forall j :: 0 <= j < k ==> history[j].content != content
  {
    if |history| == 0 then 0
    else if history[0].content == content then 0
    else 1 + FirstWithContent(history[1..], content)
  }

  /** `history.find(r => r.content === content)?.id`: the id of the first
      entry showing `content`, or nothing when no entry shows it. */
  function IdForContent(history: seq<HistoryEntry>, content: string): (id: Option<int>)
    ensures id.None? <==> forall k :: 0 <= k < |history| ==> history[k].content != content
    ensures id.Some? ==> exists k :: 0 <= k < |history| && history[k].content == content
                                     && history[k].id == id.value
  {
    var k := FirstWithContent(history, content);
    if k < |history| then Some(history[k].id) else None
  }

  /** Displaying entry `k` makes the display's id that entry's own id,
      unless an earlier entry has the same content, in which case it is the
      earlier entry's id. */
  lemma DisplayedEntryId(history: seq<HistoryEntry>, k: nat)
    requires k < |history|
    ensures (forall j :: 0 <= j < k ==> history[j].content != history[k].content)
            ==> IdForContent(history, history[k].content) == Some(history[k].id)
    ensures forall j :: (0 <= j < k && history[j].content == history[k].content
                         && forall i :: 0 <= i < j ==> history[i].content != history[k].content)
                        ==> IdForContent(history, history[k].content) == Some(history[j].id)
  {
    var f := FirstWithContent(history, history[k].content);
    assert f <= k;
  }
}
