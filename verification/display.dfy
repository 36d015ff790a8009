/** RecipeDisplay.jsx: shows the generated recipe (or the loading, error or
    placeholder view), offers deletion of the recipe on display and sends it
    by email. */
module Display {
  import opened Js

  /** What the component renders. */
  datatype View = LoadingView | ErrorView(message: string) | Placeholder | RecipeView(recipe: string, deleteButton: bool)

  datatype RecipeEmail = RecipeEmail(email: string, recipeContent: string, recipeTitle: string)

  const MissingAddress := "Please enter an email address"
  const RecipeSent := "✅ Recipe sent successfully!"
  const RecipeNotSent := "❌ Failed to send email. Please try again."
  const EmailTitle := "Your Generated Recipe"

  /** JavaScript truthiness of the `currentRecipeId` prop (a number or
      `undefined`). */
  predicate IdTruthy(id: Option<int>) {
    id.Some? && id.value != 0
  }

  /** The chain of early returns: loading first, then a non-empty error,
      then the placeholder for an empty recipe, else the recipe, with the
      delete button exactly when the id is truthy. */
  function SelectView(loading: bool, error: string, recipe: string, currentRecipeId: Option<int>): (v: View)
    ensures v.LoadingView? <==> loading
    ensures v.ErrorView? <==> !loading && error != ""
    ensures v.ErrorView? ==> v.message == error
    ensures v.Placeholder? <==> !loading && error == "" && recipe == ""
    ensures v.RecipeView? <==> !loading && error == "" && recipe != ""
    ensures v.RecipeView? ==> v.recipe == recipe && (v.deleteButton <==> IdTruthy(currentRecipeId))
  {
    if loading then LoadingView
    else if error != "" then ErrorView(error)
    else if recipe == "" then Placeholder
    else RecipeView(recipe, IdTruthy(currentRecipeId))
  }

  /** The component's tests: a recipe is shown with its actions, and a
      missing recipe (with no loading flag and no error) gives the
      placeholder. */
  lemma DisplayExamples()
    ensures SelectView(false, "", "Delicious tomato soup recipe with fresh ingredients", None)
            == RecipeView("Delicious tomato soup recipe with fresh ingredients", false)
    ensures SelectView(false, "", "", None) == Placeholder
  {
  }

  class RecipeDisplay {
    const recipe: string
    const loading: bool
    const error: string
    const currentRecipeId: Option<int>
    const hasOnDelete: bool
    var showEmailModal: bool
    var email: string
    var emailLoading: bool
    var emailMessage: string

    constructor (recipe: string, loading: bool, error: string, currentRecipeId: Option<int>, hasOnDelete: bool)
      ensures this.recipe == recipe && this.loading == loading && this.error == error
      ensures this.currentRecipeId == currentRecipeId && this.hasOnDelete == hasOnDelete
      ensures !showEmailModal && email == "" && !emailLoading && emailMessage == ""
    {
      this.recipe, this.loading, this.error := recipe, loading, error;
      this.currentRecipeId, this.hasOnDelete := currentRecipeId, hasOnDelete;
      showEmailModal, email, emailLoading, emailMessage := false, "", false, "";
    }

    /** What the component renders for its props: the recipe view exactly
        when nothing is loading, there is no error and a recipe is given, and
        in it the delete button exactly when the id is truthy, which is the
        first half of the guard of `HandleDelete`. */
    function Render(): (v: View)
      reads this
      ensures v.RecipeView? <==> !loading && error == "" && recipe != ""
      ensures v.RecipeView? ==> v.recipe == recipe
      ensures v.RecipeView? ==> (v.deleteButton <==> IdTruthy(currentRecipeId))
    {
      SelectView(loading, error, recipe, currentRecipeId)
    }

    /** `handleDelete`: `onDelete` is called, with the current id, only when
        the id is truthy, an `onDelete` callback is given, and the user
        confirms the prompt (`confirmed`). Nothing in the state changes. */
    method HandleDelete(confirmed: bool) returns (deleted: Option<int>)
      ensures deleted.Some? <==> IdTruthy(currentRecipeId) && hasOnDelete && confirmed
      ensures deleted.Some? ==> deleted == currentRecipeId
    {
      if IdTruthy(currentRecipeId) && hasOnDelete {
        if confirmed {
          return currentRecipeId;
        }
      }
      return None;
    }

    /** The mail button opens the email dialog. */
    method OpenEmailModal()
      modifies this
      ensures showEmailModal
      ensures email == old(email) && emailLoading == old(emailLoading) && emailMessage == old(emailMessage)
    {
      showEmailModal := true;
    }

    /** The Cancel button and a click on the overlay close the dialog. */
    method CloseEmailModal()
      modifies this
      ensures !showEmailModal
      ensures email == old(email) && emailLoading == old(emailLoading) && emailMessage == old(emailMessage)
    {
      showEmailModal := false;
    }

    /** Typing in the address field. */
    method SetEmail(text: string)
      modifies this
      ensures email == text
      ensures showEmailModal == old(showEmailModal) && emailLoading == old(emailLoading)
      ensures emailMessage == old(emailMessage)
    {
      email := text;
    }

    /** `sendEmail`: `sent` is the body posted to `send-email`, if any: the
        trimmed address, the recipe and a fixed title. `delivered` is the
        backend's answer. */
    method SendEmail(delivered: bool) returns (sent: Option<RecipeEmail>)
      modifies this
      ensures showEmailModal == old(showEmailModal)
      ensures AllSpace(old(email)) ==>
                sent == None && emailMessage == MissingAddress
                && email == old(email) && emailLoading == old(emailLoading)
      ensures !AllSpace(old(email)) ==>
                && sent == Some(RecipeEmail(Trim(old(email)), recipe, EmailTitle))
                && !emailLoading
                && (delivered ==> emailMessage == RecipeSent && email == "")
                && (!delivered ==> emailMessage == RecipeNotSent && email == old(email))
    {
      if Trim(email) == "" {
        emailMessage := MissingAddress;
        return None;
      }
      emailLoading, emailMessage := true, "";
      sent := Some(RecipeEmail(Trim(email), recipe, EmailTitle));
      if delivered {
        emailMessage, email := RecipeSent, "";
      } else {
        emailMessage := RecipeNotSent;
      }
      emailLoading := false;
    }

    /** The callback scheduled after a successful send: closes the dialog
        and clears the message. */
    method AfterSent()
      modifies this
      ensures !showEmailModal && emailMessage == ""
      ensures email == old(email) && emailLoading == old(emailLoading)
    {
      showEmailModal := false;
      emailMessage := "";
    }
  }
}
