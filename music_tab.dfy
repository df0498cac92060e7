/**
 * The music tab: the category filter over the track list, the play/pause toggle and
 * row selection, and the add-track form.
 */
module MusicTab {
  import opened Wrappers
  import opened Seqs

  /** A `MusicTrack`; `duration` is the display text, such as `"3:45"`. */
  datatype Track = Track(id: string, title: string, artist: string, duration: string, category: string, url: string)

  /** The add-track form (`newTrack`). */
  datatype TrackForm = TrackForm(title: string, artist: string, duration: string, category: string, url: string)

  const DefaultTrackForm := TrackForm("", "", "", "motivation", "")

  /** The keys of `categories` other than `'all'`: the only options of the form's category select. */
  const TrackCategories: set<string> := {"motivation", "focus", "meditation", "energy"}

  /** The payload of `onAddTrack`: the form's fields and `isCustom`. */
  datatype Call = AddTrack(form: TrackForm, isCustom: bool)

  /** The test `track => track.category === selected`. */
  function InCategory(selected: string): Track -> bool
  {
    (t: Track) => t.category == selected
  }

  /**
   * `filteredTracks`: every track under `'all'`; otherwise exactly the tracks of the
   * selected category.
   */
  function FilteredTracks(tracks: seq<Track>, selected: string): (r: seq<Track>)
    ensures selected == "all" ==> r == tracks
    ensures selected != "all" ==> forall t :: t in r <==> t in tracks && t.category == selected
    ensures |r| <= |tracks|
  {
    if selected == "all" then tracks else Filter(InCategory(selected), tracks)
  }

  /** The filtered list keeps the order of the track list: it distributes over concatenation. */
  lemma FilteredKeepsOrder(a: seq<Track>, b: seq<Track>, selected: string)
    ensures FilteredTracks(a + b, selected) == FilteredTracks(a, selected) + FilteredTracks(b, selected)
  {
    if selected != "all" {
      FilterConcat(InCategory(selected), a, b);
    }
  }

  /** Filtering an already filtered list by the same category changes nothing. */
  lemma FilteredIdempotent(tracks: seq<Track>, selected: string)
    ensures FilteredTracks(FilteredTracks(tracks, selected), selected) == FilteredTracks(tracks, selected)
  {
    if selected != "all" {
      FilterIdempotent(InCategory(selected), tracks);
    }
  }

  /** The tab's local state, with every call it makes on `onAddTrack` recorded in `calls`. */
  class Component {
    var currentTrack: Option<Track>
    var isPlaying: bool
    var selectedCategory: string
    var showAddForm: bool
    var newTrack: TrackForm
    ghost var calls: seq<Call>

    /** The form's category is always one the select offers. */
    ghost predicate Valid()
      reads this
    {
      newTrack.category in TrackCategories
    }

    constructor ()
      ensures Valid()
      ensures currentTrack == None && !isPlaying && selectedCategory == "all"
      ensures !showAddForm && newTrack == DefaultTrackForm && calls == []
    {
      currentTrack := None;
      isPlaying := false;
      selectedCategory := "all";
      showAddForm := false;
      newTrack := DefaultTrackForm;
      calls := [];
    }

    /** A category button. */
    method SelectCategory(c: string)
      modifies this`selectedCategory
      ensures selectedCategory == c
    {
      selectedCategory := c;
    }

    /**
     * `togglePlayPause(track?)`: a given track becomes the current one; playback flips
     * either way, so two calls without a track restore it.
     */
    method TogglePlayPause(track: Option<Track>)
      modifies this`currentTrack, this`isPlaying
      ensures currentTrack == (if track.Some? then track else old(currentTrack))
      ensures isPlaying == !old(isPlaying)
    {
      if track.Some? {
        currentTrack := track;
      }
      isPlaying := !isPlaying;
    }

    /** Clicking a track's row: it becomes the current track, playback is left as it was. */
    method SelectTrack(t: Track)
      modifies this`currentTrack
      ensures currentTrack == Some(t)
    {
      currentTrack := Some(t);
    }

    /** The "Ajouter" button that shows or hides the form. */
    method ToggleAddForm()
      modifies this`showAddForm
      ensures showAddForm == !old(showAddForm)
    {
      showAddForm := !showAddForm;
    }

    /** The form's "Annuler" button: the form hides and keeps what was typed. */
    method CloseAddForm()
      modifies this`showAddForm
      ensures !showAddForm
    {
      showAddForm := false;
    }

    /** The form's inputs replacing its fields; the category comes from the select's options. */
    method SetNewTrack(f: TrackForm)
      requires Valid() && f.category in TrackCategories
      modifies this`newTrack
      ensures Valid()
      ensures newTrack == f
    {
      newTrack := f;
    }

    /** `handleAddTrack`: one add call with the form as a custom track, then the form resets and hides. */
    method AddTrack()
      requires Valid()
      modifies this`calls, this`newTrack, this`showAddForm
      ensures Valid()
      ensures calls == old(calls) + [Call.AddTrack(old(newTrack), true)]
      ensures old(newTrack).category in TrackCategories
      ensures newTrack == DefaultTrackForm && !showAddForm
    {
      calls := calls + [Call.AddTrack(newTrack, true)];
      newTrack := DefaultTrackForm;
      showAddForm := false;
    }
  }
}
