/**
 * The dashboard: which routines need a journal entry before they can be checked, the
 * entry editor and its save action, the frequency badge, the three summary cards, and
 * the dashboard's own meditation slot, whose toggle leaves the slot alone.
 */
module Dashboard {
  import opened Wrappers
  import opened Seqs
  import opened Routines
  import opened MeditationTimer

  /** The calls the dashboard makes on its store callbacks. */
  datatype Call =
    | CompleteRoutine(id: string)
    | UpdateRoutineInput(id: string, inputValue: string)

  /**
   * `needsInput`: one of the words "Gratitude", "Planification" or "Affirmations" occurs in
   * the title, spelled exactly so; a title shorter than the shortest word never needs input.
   */
  function NeedsInput(title: string): (b: bool)
    ensures b <==> exists i :: OccursAt(title, "Gratitude", i) || OccursAt(title, "Planification", i) || OccursAt(title, "Affirmations", i)
    ensures |title| < 9 ==> !b
  {
    Includes(title, "Gratitude") || Includes(title, "Planification") || Includes(title, "Affirmations")
  }

  /** Any title with one of the three words in it, wherever it appears, needs input. */
  lemma NeedsInputForKeyword(prefix: string, keyword: string, suffix: string)
    requires keyword in ["Gratitude", "Planification", "Affirmations"]
    ensures NeedsInput(prefix + keyword + suffix)
  {
    var t := prefix + keyword + suffix;
    assert t[|prefix|..|prefix| + |keyword|] == keyword;
    assert OccursAt(t, keyword, |prefix|);
  }

  /** The match is on the exact spelling: a lower-case keyword alone does not need input. */
  lemma NeedsInputIsCaseSensitive()
    ensures !NeedsInput("gratitude")
    ensures NeedsInput("Gratitude")
  {
    assert !OccursAt("gratitude", "Gratitude", 0) by {
      assert "gratitude"[0] != "Gratitude"[0];
    }
    assert forall i :: OccursAt("gratitude", "Gratitude", i) ==> i == 0;
    assert OccursAt("Gratitude", "Gratitude", 0);
  }

  /** JavaScript truthiness of `routine.inputValue`: present and not empty. */
  predicate HasInput(r: Routine)
  {
    r.inputValue.Some? && r.inputValue.value != ""
  }

  /**
   * The checkbox's `disabled` attribute for `r` while `editingRoutine` is being edited: set
   * exactly for an unchecked journal routine whose entry is absent or empty and which is not
   * the one being edited.
   */
  function ToggleDisabled(r: Routine, editingRoutine: Option<string>): (d: bool)
    ensures d <==> (NeedsInput(r.title) && (r.inputValue == None || r.inputValue == Some(""))
                    && editingRoutine != Some(r.id) && !r.completed)
  {
    NeedsInput(r.title) && !HasInput(r) && editingRoutine != Some(r.id) && !r.completed
  }

  /**
   * The gate only ever holds back an unchecked journal routine with no entry that is not
   * being edited: any other routine, and every checked one (unchecking is always allowed),
   * can be toggled.
   */
  lemma ToggleEnabledUnless(r: Routine, editingRoutine: Option<string>)
    ensures !NeedsInput(r.title) ==> !ToggleDisabled(r, editingRoutine)
    ensures r.completed ==> !ToggleDisabled(r, editingRoutine)
    ensures HasInput(r) ==> !ToggleDisabled(r, editingRoutine)
    ensures editingRoutine == Some(r.id) ==> !ToggleDisabled(r, editingRoutine)
  {
  }

  /** An empty entry counts as no entry: the gate treats `""` like an absent value. */
  lemma EmptyEntryStillGated(r: Routine, editingRoutine: Option<string>)
    requires NeedsInput(r.title) && !r.completed && editingRoutine != Some(r.id)
    ensures ToggleDisabled(r.(inputValue := Some("")), editingRoutine)
    ensures ToggleDisabled(r.(inputValue := None), editingRoutine)
  {
  }

  /** `getFrequencyLabel(frequency)`. */
  function FrequencyLabel(frequency: Option<string>): (text: string)
    ensures text == "\U{1F4C6} Hebdo" <==> frequency == Some("weekly")
    ensures text == "\U{1F5D3}\U{FE0F} Mensuel" <==> frequency == Some("monthly")
    ensures text == "\U{1F4C5} Quotidien" <==> frequency != Some("weekly") && frequency != Some("monthly")
  {
    match frequency
    case Some("weekly") => "\U{1F4C6} Hebdo"
    case Some("monthly") => "\U{1F5D3}\U{FE0F} Mensuel"
    case _ => "\U{1F4C5} Quotidien"
  }

  /**
   * `routine.frequency && routine.frequency !== 'daily'`: the badge is hidden exactly for an
   * unset, empty or daily frequency; any other value the label does not know reads "Quotidien".
   */
  function ShowsFrequencyBadge(frequency: Option<string>): (b: bool)
    ensures !b <==> frequency == None || frequency == Some("") || frequency == Some("daily")
    ensures b && frequency != Some("weekly") && frequency != Some("monthly") ==> FrequencyLabel(frequency) == "\U{1F4C5} Quotidien"
  {
    frequency.Some? && frequency.value != "" && frequency.value != "daily"
  }

  /** An unset, empty or daily frequency shows no badge; weekly and monthly ones show their own label. */
  lemma FrequencyBadgeCases(frequency: Option<string>)
    ensures frequency == None || frequency == Some("") || frequency == Some("daily") ==> !ShowsFrequencyBadge(frequency)
    ensures frequency == Some("weekly") ==> ShowsFrequencyBadge(frequency) && FrequencyLabel(frequency) == "\U{1F4C6} Hebdo"
    ensures frequency == Some("monthly") ==> ShowsFrequencyBadge(frequency) && FrequencyLabel(frequency) == "\U{1F5D3}\U{FE0F} Mensuel"
  {
  }

  /** The test `r => r.completed`. */
  function IsCompleted(): Routine -> bool
  {
    (r: Routine) => r.completed
  }

  /** `completedToday`: how many routines are checked; all of them exactly when it equals the list's length. */
  function CompletedToday(rs: seq<Routine>): (n: nat)
    ensures n <= |rs|
    ensures n == |rs| <==> forall i :: 0 <= i < |rs| ==> rs[i].completed
  {
    FilterKeepsAll(IsCompleted(), rs);
    |Filter(IsCompleted(), rs)|
  }

  /** One for a checked routine, zero otherwise. */
  function CheckedOne(r: Routine): nat
  {
    if r.completed then 1 else 0
  }

  /** `completedToday` counts the checked routines one by one, and is the sum of the sections' counts. */
  lemma {:induction false} CompletedTodayCounts(rs: seq<Routine>)
    ensures CompletedToday(rs) == Sum(CheckedOne, rs)
    ensures CompletedToday(rs) == Sum(CheckedOne, ByCategory(rs, Morning)) + Sum(CheckedOne, ByCategory(rs, Afternoon)) + Sum(CheckedOne, ByCategory(rs, Evening))
  {
    if rs != [] {
      CompletedTodayCounts(rs[1..]);
      if rs[0].completed {
        assert Filter(IsCompleted(), rs) == [rs[0]] + Filter(IsCompleted(), rs[1..]);
      } else {
        assert Filter(IsCompleted(), rs) == Filter(IsCompleted(), rs[1..]);
      }
    }
    SumBySection(CheckedOne, rs);
  }

  function StreakOf(r: Routine): nat
  {
    r.streak
  }

  /**
   * `totalStreak`: the sum of every routine's streak; no routine's streak exceeds it, and it
   * is zero exactly when every streak is.
   */
  function TotalStreak(rs: seq<Routine>): (t: nat)
    ensures forall i :: 0 <= i < |rs| ==> rs[i].streak <= t
    ensures t == 0 <==> forall i :: 0 <= i < |rs| ==> rs[i].streak == 0
  {
    assert forall i :: 0 <= i < |rs| ==> rs[i] in rs && StreakOf(rs[i]) == rs[i].streak;
    Sum(StreakOf, rs)
  }

  /** The streak card's total is the sum of the totals of the three sections. */
  lemma TotalStreakBySection(rs: seq<Routine>)
    ensures TotalStreak(rs) == TotalStreak(ByCategory(rs, Morning)) + TotalStreak(ByCategory(rs, Afternoon)) + TotalStreak(ByCategory(rs, Evening))
  {
    SumBySection(StreakOf, rs);
  }

  function CompletedDuration(r: Routine): nat
  {
    if r.completed then r.duration else 0
  }

  function DurationOf(r: Routine): nat
  {
    r.duration
  }

  /**
   * The minutes the time card adds up, `reduce((sum, r) => sum + (r.completed ? r.duration : 0), 0)`:
   * every checked routine's duration is within it, and it is zero exactly when no checked
   * routine has a positive duration.
   */
  function CompletedMinutes(rs: seq<Routine>): (m: nat)
    ensures forall i :: 0 <= i < |rs| && rs[i].completed ==> rs[i].duration <= m
    ensures m == 0 <==> forall i :: 0 <= i < |rs| && rs[i].completed ==> rs[i].duration == 0
  {
    assert forall i :: 0 <= i < |rs| ==> rs[i] in rs && CompletedDuration(rs[i]) == (if rs[i].completed then rs[i].duration else 0);
    Sum(CompletedDuration, rs)
  }

  /** The same total, computed over the checked routines only; it never exceeds the minutes of all routines. */
  lemma {:induction false} CompletedMinutesOverCompleted(rs: seq<Routine>)
    ensures CompletedMinutes(rs) == Sum(DurationOf, Filter(IsCompleted(), rs))
    ensures CompletedMinutes(rs) <= Sum(DurationOf, rs)
  {
    if rs != [] {
      CompletedMinutesOverCompleted(rs[1..]);
      if rs[0].completed {
        var rest := Filter(IsCompleted(), rs[1..]);
        assert Filter(IsCompleted(), rs) == [rs[0]] + rest;
        assert ([rs[0]] + rest)[1..] == rest;
      } else {
        assert Filter(IsCompleted(), rs) == Filter(IsCompleted(), rs[1..]);
      }
    }
  }

  /** The time card `{h}h {m}m`: whole hours and leftover minutes of the completed minutes. */
  function TimeCard(rs: seq<Routine>): (card: (nat, nat))
    ensures card.0 * 60 + card.1 == CompletedMinutes(rs)
    ensures card.1 < 60
  {
    var m := CompletedMinutes(rs);
    (m / 60, m % 60)
  }

  /** The store calls one firing of the countdown effect makes. */
  function CompletionCalls(completed: Option<string>): (cs: seq<Call>)
    ensures |cs| <= 1
    ensures cs == [] <==> completed.None?
    ensures completed.Some? ==> cs == [CompleteRoutine(completed.value)]
  {
    match completed
    case None => []
    case Some(id) => [CompleteRoutine(id)]
  }

  /** The dashboard's local state, with every call it makes on the store recorded in `calls`. */
  class Component {
    var editingRoutine: Option<string>
    var inputValue: string
    var timer: Slot
    ghost var calls: seq<Call>

    ghost predicate Valid()
      reads this
    {
      MeditationTimer.Valid(timer)
    }

    constructor ()
      ensures Valid()
      ensures editingRoutine == None && inputValue == "" && timer == Idle && calls == []
    {
      editingRoutine := None;
      inputValue := "";
      timer := Idle;
      calls := [];
    }

    /** `handleInputSave`: store the entry, then complete the routine, then close the editor. */
    method InputSave(id: string)
      modifies this`calls, this`editingRoutine, this`inputValue
      ensures calls == old(calls) + [UpdateRoutineInput(id, old(inputValue)), CompleteRoutine(id)]
      ensures editingRoutine == None && inputValue == ""
    {
      calls := calls + [UpdateRoutineInput(id, inputValue)];
      calls := calls + [CompleteRoutine(id)];
      editingRoutine := None;
      inputValue := "";
    }

    /** `startEditing`: edit `r`, starting from its stored entry (or `''` when it has none). */
    method StartEditing(r: Routine)
      modifies this`editingRoutine, this`inputValue
      ensures editingRoutine == Some(r.id)
      ensures inputValue == (if HasInput(r) then r.inputValue.value else "")
    {
      editingRoutine := Some(r.id);
      inputValue := if r.inputValue.Some? && r.inputValue.value != "" then r.inputValue.value else "";
    }

    /** Typing in the entry box, or picking a suggested affirmation. */
    method SetInputValue(text: string)
      modifies this`inputValue
      ensures inputValue == text
    {
      inputValue := text;
    }

    /** The editor's "Annuler" button: close the editor and drop the unsaved entry. */
    method CancelEditing()
      modifies this`editingRoutine, this`inputValue
      ensures editingRoutine == None && inputValue == ""
    {
      editingRoutine := None;
      inputValue := "";
    }

    /** `handleToggleRoutine`: one completion call; the meditation slot is not touched. */
    method ToggleRoutine(id: string)
      modifies this`calls
      ensures calls == old(calls) + [CompleteRoutine(id)]
    {
      calls := calls + [CompleteRoutine(id)];
    }

    /**
     * A click on a routine's checkbox: a disabled checkbox fires no click, so a gated
     * journal routine gets no call; any other click is `handleToggleRoutine`.
     */
    method ClickCheckbox(r: Routine)
      modifies this`calls
      ensures calls == old(calls) + (if ToggleDisabled(r, editingRoutine) then [] else [CompleteRoutine(r.id)])
    {
      if !ToggleDisabled(r, editingRoutine) {
        ToggleRoutine(r.id);
      }
    }

    /** `startMeditation`: the slot is overwritten, and no completion is sent for a run it discards. */
    method StartMeditation(r: Routine, now: int)
      requires Valid()
      modifies this`timer
      ensures Valid() && timer == Start(r.id, r.duration, now)
    {
      timer := Start(r.id, r.duration, now);
    }

    /** `stopMeditation`: the slot is emptied whatever it held. */
    method StopMeditation()
      requires Valid()
      modifies this`timer
      ensures Valid() && timer == Idle
    {
      timer := Idle;
    }

    /** One firing of the countdown effect. */
    method TimerStep()
      requires Valid()
      modifies this`timer, this`calls
      ensures Valid()
      ensures timer == Step(old(timer)).slot
      ensures calls == old(calls) + CompletionCalls(Step(old(timer)).completed)
    {
      if timer.isRunning && timer.timeLeft > 0 {
        timer := timer.(timeLeft := timer.timeLeft - 1);
      } else if timer.timeLeft == 0 && timer.isRunning {
        if timer.routineId.Some? && timer.routineId.value != "" {
          calls := calls + CompletionCalls(timer.routineId);
          timer := Idle;
        }
      }
    }
  }
}
