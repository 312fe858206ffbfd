/** The new-category dialog: its schema, its preset colours and icons, its
    defaults, and the dialog state a submit goes through (the loading flag
    that disables its buttons, the reset, the close and the `onSuccess`
    callback). */
module CategoryForm {
  import opened Wrappers
  import opened Domain
  import opened Forms

  datatype Values = Values(name: string, categoryType: string, color: string, icon: string)

  /** `z.enum(['INCOME', 'EXPENSE'])`. */
  function CategoryTypeOf(s: string): (r: Option<CategoryType>)
    ensures r.Some? <==> s == "INCOME" || s == "EXPENSE"
    ensures r == Some(Income) <==> s == "INCOME"
  {
    if s == "INCOME" then Some(Income)
    else if s == "EXPENSE" then Some(Expense)
    else None
  }

  /** `categorySchema`: a name of at least three characters, a known type, a
      colour and an icon. */
  predicate Valid(v: Values)
  {
    |v.name| >= 3 && CategoryTypeOf(v.categoryType).Some? && |v.color| >= 1 && |v.icon| >= 1
  }

  datatype Swatch = Swatch(title: string, value: string)

  const PREDEFINED_COLORS: seq<Swatch> := [
    Swatch("Bleu", "#3b82f6"), Swatch("Vert", "#10b981"), Swatch("Rouge", "#ef4444"),
    Swatch("Jaune", "#f59e0b"), Swatch("Violet", "#8b5cf6"), Swatch("Rose", "#ec4899"),
    Swatch("Indigo", "#6366f1"), Swatch("Orange", "#f97316")]

  const PREDEFINED_ICONS: seq<string> := [
    "🏠", "🚗", "🍔", "🛒", "💰", "💳", "🎓", "🏥",
    "🎮", "✈️", "📱", "💡", "🎬", "🎵", "👕", "🎁",
    "🏋️", "📚", "🍕", "☕", "🎯", "💼", "🏖️", "🐕"]

  /** `defaultValues`. */
  function Defaults(): Values
  {
    Values("", "EXPENSE", "#3b82f6", "💰")
  }

  /** A fresh form is an expense category in the first preset colour with a
      preset icon; only the name is missing, and any name of three
      characters or more makes it submittable. */
  lemma DefaultsNeedOnlyAName(name: string)
    ensures CategoryTypeOf(Defaults().categoryType) == Some(Expense)
    ensures Defaults().color == PREDEFINED_COLORS[0].value
    ensures Defaults().icon in PREDEFINED_ICONS
    ensures !Valid(Defaults())
    ensures Valid(Defaults().(name := name)) <==> |name| >= 3
  {
    assert PREDEFINED_ICONS[4] == "💰";
  }

  /** The swatches have distinct colours (they are keyed by colour) and the
      icons are distinct (they are keyed by icon). */
  lemma PresetsAreDistinct()
    ensures forall i, j :: 0 <= i < j < |PREDEFINED_COLORS| ==> PREDEFINED_COLORS[i].value != PREDEFINED_COLORS[j].value
    ensures forall i, j :: 0 <= i < j < |PREDEFINED_ICONS| ==> PREDEFINED_ICONS[i] != PREDEFINED_ICONS[j]
  {
  }

  /** `CreateCategoryRequest`: the fields as typed, the type read as a
      category type. */
  datatype Request = Request(name: string, categoryType: CategoryType, color: string, icon: string)

  function RequestOf(v: Values): (r: Request)
    requires Valid(v)
    ensures r.name == v.name && r.color == v.color && r.icon == v.icon
    ensures r.categoryType == Income <==> v.categoryType == "INCOME"
  {
    Request(v.name, CategoryTypeOf(v.categoryType).value, v.color, v.icon)
  }

  const SUCCESS_TEXT := "Catégorie créée avec succès"
  const FAILURE_TEXT := "Erreur lors de la création de la catégorie"

  /** The dialog's state: the field values, the loading flag, whether it is
      open, how many times `onSuccess` has been called, and the toasts shown
      so far. */
  class CategoryDialog {
    var values: Values
    var isLoading: bool
    var open: bool
    var successCalls: nat
    var toasts: seq<Toast>

    /** The icon field is read-only: its value is always one of the presets. */
    ghost predicate IconIsPreset()
      reads this
    {
      values.icon in PREDEFINED_ICONS
    }

    constructor (open: bool)
      ensures values == Defaults() && !isLoading && this.open == open
      ensures successCalls == 0 && toasts == []
      ensures IconIsPreset()
    {
      values := Defaults();
      isLoading := false;
      this.open := open;
      successCalls := 0;
      toasts := [];
      assert PREDEFINED_ICONS[4] == "💰";
    }

    /** Clicking the `i`-th icon button. */
    method PickIcon(i: nat)
      requires i < |PREDEFINED_ICONS|
      modifies this
      ensures values == old(values).(icon := PREDEFINED_ICONS[i])
      ensures IconIsPreset()
      ensures isLoading == old(isLoading) && open == old(open)
      ensures successCalls == old(successCalls) && toasts == old(toasts)
    {
      values := values.(icon := PREDEFINED_ICONS[i]);
    }

    /** Typing in the colour field or clicking a swatch. */
    method SetColor(c: string)
      modifies this
      ensures values == old(values).(color := c)
      ensures old(IconIsPreset()) ==> IconIsPreset()
      ensures isLoading == old(isLoading) && open == old(open)
      ensures successCalls == old(successCalls) && toasts == old(toasts)
    {
      values := values.(color := c);
    }

    /** Typing in the name field. */
    method SetName(name: string)
      modifies this
      ensures values == old(values).(name := name)
      ensures old(IconIsPreset()) ==> IconIsPreset()
      ensures isLoading == old(isLoading) && open == old(open)
      ensures successCalls == old(successCalls) && toasts == old(toasts)
    {
      values := values.(name := name);
    }

    /** Choosing "Revenu" or "Dépense" in the type select. */
    method SetType(t: CategoryType)
      modifies this
      ensures values == old(values).(categoryType := if t == Income then "INCOME" else "EXPENSE")
      ensures CategoryTypeOf(values.categoryType) == Some(t)
      ensures old(IconIsPreset()) ==> IconIsPreset()
      ensures isLoading == old(isLoading) && open == old(open)
      ensures successCalls == old(successCalls) && toasts == old(toasts)
    {
      values := values.(categoryType := if t == Income then "INCOME" else "EXPENSE");
    }

    /** Pressing "Créer": ignored while a creation is in flight (the button is
        disabled) or while the values fail the schema; otherwise the loading
        flag goes up and the request to send is returned. */
    method BeginSubmit() returns (request: Option<Request>)
      modifies this
      ensures request.Some? <==> !old(isLoading) && Valid(values)
      ensures request.Some? ==> request.value == RequestOf(values) && isLoading
      ensures request.None? ==> isLoading == old(isLoading)
      ensures values == old(values) && open == old(open)
      ensures successCalls == old(successCalls) && toasts == old(toasts)
    {
      if isLoading || !Valid(values) {
        return None;
      }
      isLoading := true;
      request := Some(RequestOf(values));
    }

    /** The end of `onSubmit` once `createCategory` has answered: after
        success the form resets, the dialog closes and `onSuccess` runs once;
        after failure the values and the dialog stay; a toast either way, and
        the `finally` clears the loading flag on both paths. */
    method FinishSubmit(reply: Result<(), string>)
      modifies this
      ensures !isLoading
      ensures toasts == old(toasts) + [Settle(reply, SUCCESS_TEXT, FAILURE_TEXT).toast]
      ensures reply.Success? ==> values == Defaults() && !open && successCalls == old(successCalls) + 1
      ensures reply.Failure? ==> values == old(values) && open == old(open) && successCalls == old(successCalls)
      ensures old(IconIsPreset()) ==> IconIsPreset()
    {
      var outcome := Settle(reply, SUCCESS_TEXT, FAILURE_TEXT);
      toasts := toasts + [outcome.toast];
      if outcome.resetForm {
        values := Defaults();
        assert PREDEFINED_ICONS[4] == "💰";
      }
      if outcome.closeDialog {
        open := false;
        successCalls := successCalls + 1;
      }
      isLoading := false;
    }
  }

  /** A fresh dialog becomes submittable through its own events alone: a
      name of three characters or more, and, if wanted, another type, colour
      or icon. */
  method FillIn(name: string, t: CategoryType, color: string, icon: nat) returns (d: CategoryDialog)
    requires |name| >= 3 && |color| >= 1 && icon < |PREDEFINED_ICONS|
    ensures fresh(d)
    ensures Valid(d.values) && !d.isLoading && d.open
    ensures d.values == Values(name, if t == Income then "INCOME" else "EXPENSE", color, PREDEFINED_ICONS[icon])
    ensures d.IconIsPreset()
  {
    d := new CategoryDialog(true);
    d.SetName(name);
    d.SetType(t);
    d.SetColor(color);
    d.PickIcon(icon);
    assert |PREDEFINED_ICONS[icon]| >= 1;
  }

  /** A whole submit from a valid, idle dialog: one request, then the
      loading flag is down again and the dialog has either been reset and
      closed with one `onSuccess` call, or kept with its values. */
  method SubmitOnce(d: CategoryDialog, reply: Result<(), string>) returns (sent: Option<Request>)
    requires !d.isLoading && Valid(d.values)
    modifies d
    ensures sent == Some(RequestOf(old(d.values)))
    ensures !d.isLoading
    ensures reply.Success? ==> d.values == Defaults() && !d.open && d.successCalls == old(d.successCalls) + 1
    ensures reply.Failure? ==> d.values == old(d.values) && d.open == old(d.open) && d.successCalls == old(d.successCalls)
    ensures d.toasts == old(d.toasts) + [Settle(reply, SUCCESS_TEXT, FAILURE_TEXT).toast]
  {
    sent := d.BeginSubmit();
    d.FinishSubmit(reply);
  }
}
