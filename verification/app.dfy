/** The top-level state holder of App.jsx: the loading flag, the error text,
    the recipe on display, the joined history and the cached backend lists,
    and the handlers that sequence generate, reload, delete and "load from
    history". Each backend answer is a parameter of the handler that awaits
    it. */
module App {
  import opened Js
  import opened History

  /** The answer to the paired recipe and request fetches of a reload: both
      lists, or a failure of either. */
  datatype LoadAnswer = Loaded(recipes: seq<Recipe>, requests: seq<RecipeRequest>) | LoadFailed

  /** The answer to the generate call: a response body (`status`, `content`,
      `message`; a missing one is ""), an HTTP failure carrying
      `err.response.data.message` ("" when absent), or no response. */
  datatype GenerateAnswer =
    | Generated(status: string, content: string, message: string)
    | HttpError(message: string)
    | NetworkError

  /** The answer to a search or filter call: the recipe rows, or any failure. */
  datatype QueryAnswer = Rows(recipes: seq<Recipe>) | QueryFailed

  const LoadError := "Failed to load recipe history"
  const GenerateError := "Failed to generate recipe"
  const ConnectError := "Failed to connect to backend. Please check if your Spring Boot app is running."
  const DeleteError := "Failed to delete recipe"

  /** The error text a failed generate call leaves behind. */
  function GenerateFailure(answer: GenerateAnswer): (msg: string)
    requires !(answer.Generated? && answer.status == "success")
    ensures msg != ""
    ensures answer.Generated? ==> msg == (if answer.message != "" then answer.message else GenerateError)
    ensures answer.HttpError? ==> msg == (if answer.message != "" then answer.message else ConnectError)
    ensures answer.NetworkError? ==> msg == ConnectError
  {
    match answer
    case Generated(_, _, message) => OrElse(message, GenerateError)
    case HttpError(message) => OrElse(message, ConnectError)
    case NetworkError => ConnectError
  }

  class AppState {
    var loading: bool
    var error: string
    var currentRecipe: string
    var recipeHistory: seq<HistoryEntry>
    var userRecipes: seq<Recipe>
    var userRequests: seq<RecipeRequest>

    /** The history on display is always the join of the cached lists:
        every handler that replaces one of them replaces the history too. */
    ghost predicate Valid()
      reads this
    {
      recipeHistory == Join(userRecipes, userRequests)
    }

    constructor ()
      ensures Valid()
      ensures !loading && error == "" && currentRecipe == ""
      ensures recipeHistory == [] && userRecipes == [] && userRequests == []
    {
      loading, error, currentRecipe := false, "", "";
      recipeHistory, userRecipes, userRequests := [], [], [];
    }

    /** `loadUserData`: on success the cached lists are replaced and the
        history becomes their join, leaving the error text as it was; on
        failure only the error text changes. */
    method LoadUserData(answer: LoadAnswer)
      requires Valid()
      modifies this
      ensures Valid()
      ensures answer.Loaded? ==>
                && userRecipes == answer.recipes && userRequests == answer.requests
                && recipeHistory == Join(answer.recipes, answer.requests)
                && error == old(error)
      ensures answer.LoadFailed? ==>
                && userRecipes == old(userRecipes) && userRequests == old(userRequests)
                && recipeHistory == old(recipeHistory)
                && error == LoadError
      ensures loading == old(loading) && currentRecipe == old(currentRecipe)
    {
      match answer
      case Loaded(recipes, requests) =>
        userRecipes := recipes;
        userRequests := requests;
        recipeHistory := Join(recipes, requests);
      case LoadFailed =>
        error := LoadError;
    }

    /** `generateRecipe`: clears the error and the display, then either shows
        the generated content and reloads (`reloaded`), or records the
        failure text without reloading. The loading flag always ends false. */
    method GenerateRecipe(answer: GenerateAnswer, reload: LoadAnswer) returns (reloaded: bool)
      requires Valid()
      modifies this
      ensures Valid()
      ensures !loading
      ensures reloaded <==> answer.Generated? && answer.status == "success"
      ensures reloaded ==>
                && currentRecipe == answer.content
                && (reload.Loaded? ==>
                      && userRecipes == reload.recipes && userRequests == reload.requests
                      && recipeHistory == Join(reload.recipes, reload.requests)
                      && error == "")
                && (reload.LoadFailed? ==>
                      && userRecipes == old(userRecipes) && userRequests == old(userRequests)
                      && recipeHistory == old(recipeHistory)
                      && error == LoadError)
      ensures !reloaded ==>
                && currentRecipe == ""
                && error == GenerateFailure(answer)
                && recipeHistory == old(recipeHistory)
                && userRecipes == old(userRecipes) && userRequests == old(userRequests)
    {
      loading := true;
      error := "";
      currentRecipe := "";
      reloaded := false;
      match answer {
        case Generated(status, content, message) =>
          if status == "success" {
            currentRecipe := content;
            LoadUserData(reload);
            reloaded := true;
          } else {
            error := OrElse(message, GenerateError);
          }
        case HttpError(message) =>
          if message != "" {
            error := message;
          } else {
            error := ConnectError;
          }
        case NetworkError =>
          error := ConnectError;
      }
      loading := false;
    }

    /** `loadRecipeFromHistory`: shows the entry's content; nothing else
        changes. */
    method LoadRecipeFromHistory(entry: HistoryEntry)
      requires Valid()
      modifies this
      ensures Valid()
      ensures currentRecipe == entry.content
      ensures loading == old(loading) && error == old(error)
      ensures recipeHistory == old(recipeHistory)
      ensures userRecipes == old(userRecipes) && userRequests == old(userRequests)
    {
      currentRecipe := entry.content;
    }

    /** `deleteRecipe(recipeId)`: `target` is the id put in the DELETE
        request; after a successful delete the data is reloaded
        (`reloaded`); a failed delete only sets the delete error. The recipe
        on display is never touched. */
    method DeleteRecipe(recipeId: int, deleted: bool, reload: LoadAnswer) returns (target: int, reloaded: bool)
      requires Valid()
      modifies this
      ensures Valid()
      ensures target == recipeId
      ensures reloaded == deleted
      ensures currentRecipe == old(currentRecipe) && loading == old(loading)
      ensures deleted && reload.Loaded? ==>
                && userRecipes == reload.recipes && userRequests == reload.requests
                && recipeHistory == Join(reload.recipes, reload.requests)
                && error == old(error)
      ensures deleted && reload.LoadFailed? ==>
                && recipeHistory == old(recipeHistory) && error == LoadError
                && userRecipes == old(userRecipes) && userRequests == old(userRequests)
      ensures !deleted ==>
                && recipeHistory == old(recipeHistory) && error == DeleteError
                && userRecipes == old(userRecipes) && userRequests == old(userRequests)
    {
      target := recipeId;
      if deleted {
        LoadUserData(reload);
        reloaded := true;
      } else {
        error := DeleteError;
        reloaded := false;
      }
    }

    /** The `currentRecipeId` passed to the display: the id of the first
        history entry whose content is the recipe on display, if any. */
    function CurrentRecipeId(): (id: Option<int>)
      reads this
      ensures id.None? <==> forall k :: 0 <= k < |recipeHistory| ==> recipeHistory[k].content != currentRecipe
      ensures id.Some? ==> exists k :: 0 <= k < |recipeHistory| && recipeHistory[k].content == currentRecipe
                                       && recipeHistory[k].id == id.value
    {
      IdForContent(recipeHistory, currentRecipe)
    }

    /** `searchRecipes` and the four `filterRecipesBy...` callbacks: the rows
        joined against the cached requests, one entry per row in row order
        with id and content kept, or `[]` when the call fails. */
    function JoinedResults(answer: QueryAnswer): (r: seq<HistoryEntry>)
      reads this
      ensures answer.QueryFailed? ==> r == []
      ensures answer.Rows? ==>
                && |r| == |answer.recipes|
                && forall k :: 0 <= k < |r| ==>
                     r[k] == ToEntry(answer.recipes[k], userRequests)
                     && r[k].id == answer.recipes[k].id && r[k].content == answer.recipes[k].content
    {
      match answer
      case QueryFailed => []
      case Rows(recipes) =>
        JoinPointwise(recipes, userRequests);
        Join(recipes, userRequests)
    }
  }

  /** Choosing entry `k` of the history shows its content, and the display
      then reports that entry's id whenever no earlier entry has the same
      content. */
  method LoadThenLocate(app: AppState, k: nat) returns (id: Option<int>)
    requires app.Valid()
    requires k < |app.recipeHistory|
    requires forall j :: 0 <= j < k ==> app.recipeHistory[j].content != app.recipeHistory[k].content
    modifies app
    ensures id == Some(old(app.recipeHistory[k].id))
  {
    app.LoadRecipeFromHistory(app.recipeHistory[k]);
    DisplayedEntryId(app.recipeHistory, k);
    id := app.CurrentRecipeId();
  }

  /** The id the display hands to `deleteRecipe` is the id of a recipe the
      backend listed, and that recipe's content is the one on display. */
  lemma CurrentIdIsListed(app: AppState)
    requires app.Valid()
    ensures app.CurrentRecipeId().Some? ==>
              exists k :: 0 <= k < |app.userRecipes| && app.userRecipes[k].id == app.CurrentRecipeId().value
                          && app.userRecipes[k].content == app.currentRecipe
  {
    JoinPointwise(app.userRecipes, app.userRequests);
  }
}
