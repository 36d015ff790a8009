/** RecipeForm.jsx: the preferences form. Ingredients are free text; the
    meal type, cuisine, cooking time and complexity are chosen from fixed
    lists. */
module Preferences {
  import opened Js
  import opened History

  const Meal := ["BREAKFAST", "LUNCH", "DINNER", "SNACK"]
  const Cuisine := ["ITALIAN", "MEXICAN", "CHINESE", "INDIAN", "AMERICAN", "FRENCH", "THAI", "JAPANESE", "MEDITERRANEAN", "OTHER"]
  const Time := ["UNDER_30", "MIN_30_60", "OVER_60"]
  const Level := ["BEGINNER", "INTERMEDIATE", "ADVANCED"]

  /** The form shown first, and the form after "Clear Form". */
  const DefaultForm := Form("tomato, potato, onion", "LUNCH", "ITALIAN", "MIN_30_60", "BEGINNER")
  const ClearedForm := Form("", "LUNCH", "ITALIAN", "MIN_30_60", "BEGINNER")

  /** The `name` attribute of each input. */
  datatype FieldName = Ingredients | MealType | CuisineField | CookingTime | Complexity

  function Get(f: Form, field: FieldName): string {
    match field
    case Ingredients => f.ingredients
    case MealType => f.mealType
    case CuisineField => f.cuisine
    case CookingTime => f.cookingTime
    case Complexity => f.complexity
  }

  /** The update `{...prev, [name]: value}`: the named field takes the new
      value and every other field keeps its old one. */
  function Set(f: Form, field: FieldName, value: string): (g: Form)
    ensures Get(g, field) == value
    ensures forall other :: other != field ==> Get(g, other) == Get(f, other)
  {
    match field
    case Ingredients => f.(ingredients := value)
    case MealType => f.(mealType := value)
    case CuisineField => f.(cuisine := value)
    case CookingTime => f.(cookingTime := value)
    case Complexity => f.(complexity := value)
  }

  /** A form is determined by its five fields. */
  lemma {:induction false} FormByFields(f: Form, g: Form)
    requires forall field :: Get(f, field) == Get(g, field)
    ensures f == g
  {
    assert Get(f, Ingredients) == Get(g, Ingredients);
    assert Get(f, MealType) == Get(g, MealType);
    assert Get(f, CuisineField) == Get(g, CuisineField);
    assert Get(f, CookingTime) == Get(g, CookingTime);
    assert Get(f, Complexity) == Get(g, Complexity);
  }

  /** Writing a field's own value back changes nothing, and of two writes
      to one field the later one wins. */
  lemma SetLaws(f: Form, field: FieldName, v: string, w: string)
    ensures Set(f, field, Get(f, field)) == f
    ensures Set(Set(f, field, v), field, w) == Set(f, field, w)
  {
    FormByFields(Set(f, field, Get(f, field)), f);
    FormByFields(Set(Set(f, field, v), field, w), Set(f, field, w));
  }

  /** The options of the select named `field`; the ingredients input is free
      text and has none. */
  function Options(field: FieldName): Option<seq<string>> {
    match field
    case Ingredients => None
    case MealType => Some(Meal)
    case CuisineField => Some(Cuisine)
    case CookingTime => Some(Time)
    case Complexity => Some(Level)
  }

  /** Every select shows one of its own options. */
  predicate Selectable(f: Form) {
    forall field :: Options(field).Some? ==> Get(f, field) in Options(field).value
  }

  /** The initial and the cleared form show listed options, they differ only
      in the ingredients, and the lists have four, ten, three and three
      distinct entries. */
  lemma FormConstants()
    ensures Selectable(DefaultForm) && Selectable(ClearedForm)
    ensures ClearedForm == Set(DefaultForm, Ingredients, "")
    ensures |Meal| == 4 && |Cuisine| == 10 && |Time| == 3 && |Level| == 3
    ensures forall field, i, j :: Options(field).Some? && 0 <= i < j < |Options(field).value|
              ==> Options(field).value[i] != Options(field).value[j]
  {
    forall field | Options(field).Some?
      ensures Get(DefaultForm, field) in Options(field).value
    {
      match field
      case MealType => assert Meal[1] == "LUNCH";
      case CuisineField => assert Cuisine[0] == "ITALIAN";
      case CookingTime => assert Time[1] == "MIN_30_60";
      case Complexity => assert Level[0] == "BEGINNER";
    }
  }

  /** Choosing a listed option, or typing ingredients, keeps every select
      on one of its options. */
  lemma ChangeKeepsSelectable(f: Form, field: FieldName, value: string)
    requires Selectable(f)
    requires Options(field).Some? ==> value in Options(field).value
    ensures Selectable(Set(f, field, value))
  {
  }

  class RecipeForm {
    /** The `loading` prop: both buttons are disabled while it is set. */
    const loading: bool
    var form: Form

    constructor (loading: bool)
      ensures this.loading == loading && form == DefaultForm
    {
      this.loading := loading;
      form := DefaultForm;
    }

    /** `handleChange` for the input or select named `field`. */
    method HandleChange(field: FieldName, value: string)
      modifies this
      ensures form == Set(old(form), field, value)
      ensures Get(form, field) == value
      ensures forall other :: other != field ==> Get(form, other) == Get(old(form), other)
    {
      form := Set(form, field, value);
    }

    /** An attempt to submit, by the button or by Enter: while loading the
        submit button is disabled, and a form whose submit button is
        disabled is not submitted at all; the ingredients input is
        `required`, so an empty one stops the form before `handleSubmit`
        runs; otherwise `onSubmit` receives the form as it stands. */
    method HandleSubmit() returns (submitted: Option<Form>)
      ensures submitted.None? <==> loading || form.ingredients == ""
      ensures submitted.Some? ==> submitted.value == form
    {
      if loading || form.ingredients == "" {
        return None;
      }
      return Some(form);
    }

    /** A click on "Clear Form": while loading the button is disabled and
        nothing happens; otherwise `clearForm` empties the ingredients and
        returns the selects to their defaults. */
    method ClearForm()
      modifies this
      ensures loading ==> form == old(form)
      ensures !loading ==> form == ClearedForm && form.ingredients == "" && Selectable(form)
    {
      if !loading {
        FormConstants();
        form := ClearedForm;
      }
    }
  }

  /** The component's tests: an untouched form submits the defaults, and
      after choosing BREAKFAST the same form submits that meal type with
      every other field unchanged; a form shown while loading submits
      nothing. */
  method SubmitScenario() returns (untouched: Option<Form>, breakfast: Option<Form>, busy: Option<Form>)
    ensures untouched == Some(DefaultForm)
    ensures breakfast == Some(Form("tomato, potato, onion", "BREAKFAST", "ITALIAN", "MIN_30_60", "BEGINNER"))
    ensures busy == None
  {
    var f := new RecipeForm(false);
    untouched := f.HandleSubmit();
    f.HandleChange(MealType, "BREAKFAST");
    breakfast := f.HandleSubmit();
    var g := new RecipeForm(true);
    busy := g.HandleSubmit();
  }
}
