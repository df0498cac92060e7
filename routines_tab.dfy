/**
 * The routines tab: building routines from a template or from the custom form, the
 * edit form, deletion, the meditation guide lookup, and the tab's own meditation slot
 * together with its toggle, which cancels a countdown running for the toggled routine.
 */
module RoutinesTab {
  import opened Wrappers
  import opened Seqs
  import opened Routines
  import opened MeditationTimer

  /** A catalogue entry to instantiate (`RoutineTemplate`). */
  datatype Template = Template(
    id: string,
    title: string,
    description: string,
    category: Category,
    color: string,
    icon: string,
    isProgressive: bool,
    progressionSteps: seq<ProgressionStep>)

  /** The payload of `onAddRoutine`: a routine without its id, which the store assigns. */
  datatype RoutineDraft = RoutineDraft(
    title: string,
    description: string,
    category: Category,
    duration: nat,
    completed: bool,
    streak: nat,
    week: nat,
    maxWeeks: nat,
    color: string,
    icon: string,
    isProgressive: bool,
    progressionSteps: seq<ProgressionStep>,
    scheduledTime: Option<string>,
    notificationsEnabled: Option<bool>)

  /** The custom-routine form (`customRoutine`). */
  datatype CustomForm = CustomForm(
    title: string,
    description: string,
    category: Category,
    duration: nat,
    color: string,
    icon: string,
    scheduledTime: string,
    notificationsEnabled: bool)

  const DefaultCustomForm := CustomForm("", "", Morning, 10, "bg-purple-500", "\U{2B50}", "", false)

  /**
   * The form's category, colour and icon are those it starts with: no input of the form
   * writes them, so every custom routine is a morning routine in purple with a star.
   */
  predicate DefaultLook(f: CustomForm)
  {
    f.category == Morning && f.color == "bg-purple-500" && f.icon == "\U{2B50}"
  }

  /** The edit form (`editForm`), also the partial update sent with `onEditRoutine`. */
  datatype EditForm = EditForm(
    title: string,
    description: string,
    duration: nat,
    scheduledTime: string,
    notificationsEnabled: bool)

  const DefaultEditForm := EditForm("", "", 10, "", false)

  /** A meditation guide (`meditationGuides` entry). */
  datatype Guide = Guide(week: int, title: string, instructions: seq<string>)

  /** The calls the tab makes on its store callbacks. */
  datatype Call =
    | AddRoutine(draft: RoutineDraft)
    | EditRoutine(id: string, updates: EditForm)
    | DeleteRoutine(id: string)
    | CompleteRoutine(id: string)

  /**
   * A routine's current-step fields agree with its plan: `week` indexes the plan from 1,
   * `maxWeeks` is the plan's length, and duration and description are those of step `week`.
   */
  predicate AtCurrentStep(d: RoutineDraft)
  {
    && 1 <= d.week <= d.maxWeeks
    && d.maxWeeks == |d.progressionSteps|
    && d.duration == d.progressionSteps[d.week - 1].duration
    && d.description == d.progressionSteps[d.week - 1].description
  }

  /** `handleAddTemplate`: a fresh routine at the first step of the template's plan. */
  function FromTemplate(t: Template): (d: RoutineDraft)
    requires |t.progressionSteps| > 0
    ensures AtCurrentStep(d) && d.week == 1
    ensures !d.completed && d.streak == 0
    ensures d.progressionSteps == t.progressionSteps && d.isProgressive == t.isProgressive
    ensures d.title == t.title && d.category == t.category && d.color == t.color && d.icon == t.icon
    ensures d.scheduledTime == None && d.notificationsEnabled == None
  {
    var first := t.progressionSteps[0];
    RoutineDraft(t.title, first.description, t.category, first.duration, false, 0, 1,
      |t.progressionSteps|, t.color, t.icon, t.isProgressive, t.progressionSteps, None, None)
  }

  /** `handleAddCustomRoutine`: a one-step, non-progressive routine made of the form's fields. */
  function FromCustomForm(f: CustomForm): (d: RoutineDraft)
    ensures AtCurrentStep(d) && d.week == 1 && d.maxWeeks == 1 && !d.isProgressive
    ensures d.progressionSteps == [ProgressionStep(1, f.duration, f.description)]
    ensures !d.completed && d.streak == 0
    ensures d.title == f.title && d.category == f.category && d.color == f.color && d.icon == f.icon
    ensures d.scheduledTime == Some(f.scheduledTime) && d.notificationsEnabled == Some(f.notificationsEnabled)
  {
    RoutineDraft(f.title, f.description, f.category, f.duration, false, 0, 1, 1, f.color, f.icon,
      false, [ProgressionStep(1, f.duration, f.description)], Some(f.scheduledTime), Some(f.notificationsEnabled))
  }

  /** `handleEditRoutine`'s form: the routine's fields, with `''` and `false` for absent ones. */
  function EditFormOf(r: Routine): (f: EditForm)
    ensures f.title == r.title && f.description == r.description && f.duration == r.duration
    ensures f.scheduledTime == (if r.scheduledTime.Some? then r.scheduledTime.value else "")
    ensures f.notificationsEnabled <==> r.notificationsEnabled == Some(true)
  {
    EditForm(r.title, r.description, r.duration,
      match r.scheduledTime case Some(t) => t case None => "",
      match r.notificationsEnabled case Some(b) => b case None => false)
  }

  /** The test `guide => guide.week <= week`. */
  function UpTo(week: int): Guide -> bool
  {
    (g: Guide) => g.week <= week
  }

  /**
   * `getMeditationGuide(week)`: the first guide, in list order, for a week no later than
   * `week`; the first guide of all when there is none.
   */
  function GuideFor(guides: seq<Guide>, week: int): (g: Guide)
    requires |guides| > 0
    ensures (forall j :: 0 <= j < |guides| ==> guides[j].week > week) ==> g == guides[0]
    ensures (exists j :: 0 <= j < |guides| && guides[j].week <= week) ==>
      exists k :: 0 <= k < |guides| && g == guides[k] && g.week <= week
        && forall j :: 0 <= j < k ==> guides[j].week > week
  {
    match FindFirst(UpTo(week), guides)
    case Some(k) => guides[k]
    case None => guides[0]
  }

  /**
   * The lookup takes the FIRST match, not the latest week reached: when the guides are
   * listed by increasing week and the first one applies, every later week gets the first guide.
   */
  lemma GuideForAscending(guides: seq<Guide>, week: int)
    requires |guides| > 0 && guides[0].week <= week
    requires forall i, j :: 0 <= i < j < |guides| ==> guides[i].week <= guides[j].week
    ensures GuideFor(guides, week) == guides[0]
  {
    assert UpTo(week)(guides[0]);
  }

  /** The slot after `handleToggleRoutine(id)`: a countdown running for `id` is stopped, any other slot is kept. */
  function AfterToggle(s: Slot, id: string): (r: Slot)
    ensures MeditationTimer.Valid(s) ==> MeditationTimer.Valid(r)
    ensures s.isRunning && s.routineId == Some(id) ==> r == Idle
    ensures !(s.isRunning && s.routineId == Some(id)) ==> r == s
  {
    if s.routineId == Some(id) && s.isRunning then Idle else s
  }

  /**
   * Manual completion wins over a countdown for the same routine: the toggle's own call is
   * the only completion, since the stopped slot never fires again.
   */
  lemma ToggleSilencesTimer(s: Slot, id: string, n: nat)
    requires s.isRunning && s.routineId == Some(id)
    ensures Run(AfterToggle(s, id), n) == RunResult(Idle, [])
  {
    RunFromIdle(n);
  }

  /** The store calls one firing of the countdown effect makes. */
  function CompletionCalls(completed: Option<string>): (cs: seq<Call>)
    ensures |cs| <= 1
    ensures cs == [] <==> completed.None?
    ensures completed.Some? ==> cs == [CompleteRoutine(completed.value)]
  {
    match completed
    case None => []
    case Some(id) => [CompleteRoutine(id)]
  }

  /** The tab's local state, with every call it makes on the store recorded in `calls`. */
  class Component {
    var showTemplates: bool
    var showCustomForm: bool
    var editingRoutine: Option<string>
    var editForm: EditForm
    var timer: Slot
    var customRoutine: CustomForm
    ghost var calls: seq<Call>

    ghost predicate Valid()
      reads this
    {
      MeditationTimer.Valid(timer) && DefaultLook(customRoutine)
    }

    constructor ()
      ensures Valid()
      ensures !showTemplates && !showCustomForm && editingRoutine == None
      ensures editForm == DefaultEditForm && customRoutine == DefaultCustomForm
      ensures timer == Idle && calls == []
    {
      showTemplates, showCustomForm := false, false;
      editingRoutine := None;
      editForm := DefaultEditForm;
      timer := Idle;
      customRoutine := DefaultCustomForm;
      calls := [];
    }

    /** The "Ajouter une routine" button. */
    method ToggleTemplates()
      modifies this`showTemplates
      ensures showTemplates == !old(showTemplates)
    {
      showTemplates := !showTemplates;
    }

    /** The catalogue's close button. */
    method CloseTemplates()
      modifies this`showTemplates
      ensures !showTemplates
    {
      showTemplates := false;
    }

    /** The empty list's "Ajouter ma première routine" button: it opens the catalogue. */
    method OpenTemplates()
      modifies this`showTemplates
      ensures showTemplates
    {
      showTemplates := true;
    }

    /** The "Créer une routine personnalisée" link. */
    method ToggleCustomForm()
      modifies this`showCustomForm
      ensures showCustomForm == !old(showCustomForm)
    {
      showCustomForm := !showCustomForm;
    }

    /** The custom form's "Annuler" button: the form hides and keeps what was typed. */
    method CloseCustomForm()
      modifies this`showCustomForm
      ensures !showCustomForm
    {
      showCustomForm := false;
    }

    /** `handleAddTemplate`: one add call, then the catalogue closes. */
    method AddTemplate(t: Template)
      requires |t.progressionSteps| > 0
      modifies this`calls, this`showTemplates
      ensures calls == old(calls) + [AddRoutine(FromTemplate(t))]
      ensures !showTemplates
    {
      calls := calls + [AddRoutine(FromTemplate(t))];
      showTemplates := false;
    }

    /**
     * The custom form's inputs: title, duration, time, description and the notification
     * checkbox. Category, colour and icon have no input and keep their values.
     */
    method SetCustomForm(title: string, description: string, duration: nat, scheduledTime: string, notificationsEnabled: bool)
      requires Valid()
      modifies this`customRoutine
      ensures Valid()
      ensures customRoutine.title == title && customRoutine.description == description
      ensures customRoutine.duration == duration && customRoutine.scheduledTime == scheduledTime
      ensures customRoutine.notificationsEnabled == notificationsEnabled
      ensures customRoutine.category == old(customRoutine).category
      ensures customRoutine.color == old(customRoutine).color && customRoutine.icon == old(customRoutine).icon
    {
      customRoutine := customRoutine.(title := title, description := description, duration := duration,
        scheduledTime := scheduledTime, notificationsEnabled := notificationsEnabled);
    }

    /** `handleAddCustomRoutine`: one add call built from the form, then the form resets and closes. */
    method AddCustomRoutine()
      requires Valid()
      modifies this`calls, this`customRoutine, this`showCustomForm
      ensures Valid()
      ensures calls == old(calls) + [AddRoutine(FromCustomForm(old(customRoutine)))]
      ensures var d := FromCustomForm(old(customRoutine));
        d.category == Morning && d.color == "bg-purple-500" && d.icon == "\U{2B50}"
      ensures customRoutine == DefaultCustomForm && !showCustomForm
    {
      calls := calls + [AddRoutine(FromCustomForm(customRoutine))];
      customRoutine := DefaultCustomForm;
      showCustomForm := false;
    }

    /** `handleEditRoutine`: open the editor on `r` with its current fields. */
    method BeginEdit(r: Routine)
      modifies this`editingRoutine, this`editForm
      ensures editingRoutine == Some(r.id) && editForm == EditFormOf(r)
    {
      editingRoutine := Some(r.id);
      editForm := EditFormOf(r);
    }

    /** The edit form's inputs replacing the form's fields. */
    method SetEditForm(f: EditForm)
      modifies this`editForm
      ensures editForm == f
    {
      editForm := f;
    }

    /**
     * `handleSaveEdit`: when a (non-empty) id is being edited, send the form as its update
     * and close the editor; otherwise do nothing. The form itself is kept.
     */
    method SaveEdit()
      modifies this`calls, this`editingRoutine
      ensures old(editingRoutine).Some? && old(editingRoutine).value != "" ==>
        calls == old(calls) + [EditRoutine(old(editingRoutine).value, editForm)] && editingRoutine == None
      ensures !(old(editingRoutine).Some? && old(editingRoutine).value != "") ==>
        calls == old(calls) && editingRoutine == old(editingRoutine)
    {
      if editingRoutine.Some? && editingRoutine.value != "" {
        calls := calls + [EditRoutine(editingRoutine.value, editForm)];
        editingRoutine := None;
      }
    }

    /** The editor's "Annuler" button. */
    method CancelEdit()
      modifies this`editingRoutine
      ensures editingRoutine == None
    {
      editingRoutine := None;
    }

    /** `handleDeleteRoutine`: the delete call is made only when the user confirms the dialog. */
    method DeleteRoutine(id: string, confirmed: bool)
      modifies this`calls
      ensures calls == old(calls) + (if confirmed then [Call.DeleteRoutine(id)] else [])
    {
      if confirmed {
        calls := calls + [Call.DeleteRoutine(id)];
      }
    }

    /** `startMeditation`: the slot is overwritten, and no completion is sent for a run it discards. */
    method StartMeditation(r: Routine, now: int)
      requires Valid()
      modifies this`timer
      ensures Valid() && timer == Start(r.id, r.duration, now)
    {
      timer := Start(r.id, r.duration, now);
    }

    /** `stopMeditation`: the slot is emptied whatever it held, so stopping twice is stopping once. */
    method StopMeditation()
      requires Valid()
      modifies this`timer
      ensures Valid() && timer == Idle
    {
      timer := Idle;
    }

    /** One firing of the countdown effect. */
    method TimerStep()
      requires Valid()
      modifies this`timer, this`calls
      ensures Valid()
      ensures timer == Step(old(timer)).slot
      ensures calls == old(calls) + CompletionCalls(Step(old(timer)).completed)
    {
      if timer.isRunning && timer.timeLeft > 0 {
        timer := timer.(timeLeft := timer.timeLeft - 1);
      } else if timer.timeLeft == 0 && timer.isRunning {
        if timer.routineId.Some? && timer.routineId.value != "" {
          calls := calls + CompletionCalls(timer.routineId);
          timer := Idle;
        }
      }
    }

    /** `handleToggleRoutine`: stop a countdown running for `id`, then one completion call for `id`. */
    method ToggleRoutine(id: string)
      requires Valid()
      modifies this`timer, this`calls
      ensures Valid()
      ensures timer == AfterToggle(old(timer), id)
      ensures calls == old(calls) + [CompleteRoutine(id)]
    {
      if timer.routineId == Some(id) && timer.isRunning {
        StopMeditation();
      }
      calls := calls + [CompleteRoutine(id)];
    }

    /** The afternoon and evening checkboxes: a completion call, with no look at the slot. */
    method CompleteDirectly(id: string)
      modifies this`calls
      ensures calls == old(calls) + [CompleteRoutine(id)]
    {
      calls := calls + [CompleteRoutine(id)];
    }
  }
}
