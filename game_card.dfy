/** One entry's card: the status badge colours and the inline editor. */
module GameCard {
  import opened Common
  import opened Text
  import opened Payload

  const BacklogClasses := "bg-yellow-500/20 text-yellow-300"
  const PlayingClasses := "bg-blue-500/20 text-blue-300"
  const FinishedClasses := "bg-green-500/20 text-green-300"
  const DefaultClasses := "bg-slate-700 text-slate-300"

  predicate KnownStatus(status: string)
  {
    status == "backlog" || status == "playing" || status == "finished"
  }

  /** `getStatusClasses`: each of the three statuses has its own badge
      classes, and exactly the other values get the default ones. */
  function StatusClasses(status: string): (r: string)
    ensures r == DefaultClasses <==> !KnownStatus(status)
    ensures status == "backlog" ==> r == BacklogClasses
    ensures status == "playing" ==> r == PlayingClasses
    ensures status == "finished" ==> r == FinishedClasses
  {
    if status == "backlog" then BacklogClasses
    else if status == "playing" then PlayingClasses
    else if status == "finished" then FinishedClasses
    else DefaultClasses
  }

  /** Two statuses share their badge classes only when they are the same
      status or both unknown. */
  lemma StatusClassesDistinct(a: string, b: string)
    requires StatusClasses(a) == StatusClasses(b)
    ensures a == b || (!KnownStatus(a) && !KnownStatus(b))
  {
  }

  /** A card shows one entry (its props) and owns the edit fields. */
  class Card {
    const entry: Game
    var editMode: bool
    var editTitle: string
    var editPlatform: string
    var editStatus: string
    var editHours: Option<int>
    var editFavorite: bool

    /** The edit fields hold the entry's own values. */
    predicate EditsMirrorEntry()
      reads this
    {
      && editTitle == entry.title && editPlatform == entry.platform && editStatus == entry.status
      && editHours == Some(entry.hoursPlayed) && editFavorite == entry.favorite
    }

    constructor (entry: Game)
      ensures this.entry == entry && !editMode && EditsMirrorEntry()
    {
      this.entry := entry;
      editMode := false;
      editTitle, editPlatform, editStatus := entry.title, entry.platform, entry.status;
      editHours, editFavorite := Some(entry.hoursPlayed), entry.favorite;
    }

    /** `startEdit`: the edit fields take the entry's current values and the
        card enters edit mode. */
    method StartEdit()
      modifies this
      ensures editMode && EditsMirrorEntry()
    {
      editTitle := entry.title;
      editPlatform := entry.platform;
      editStatus := entry.status;
      editHours := Some(entry.hoursPlayed);
      editFavorite := entry.favorite;
      editMode := true;
    }

    /** `cancelEdit`: leaves edit mode; nothing is saved and the edit fields stay. */
    method CancelEdit()
      modifies this`editMode
      ensures !editMode
    {
      editMode := false;
    }

    /** `saveEdit`: a blank title alerts, saves nothing and keeps the mode;
        otherwise `onSave` receives once the entry with the same id, the
        trimmed title, the coerced hours and the other edit fields, and the
        card leaves edit mode. */
    method SaveEdit() returns (saved: Option<Game>, notice: Option<string>)
      modifies this`editMode
      ensures IsBlank(editTitle) ==>
                saved == None && notice == Some(TitleRequired) && editMode == old(editMode)
      ensures !IsBlank(editTitle) ==>
                && saved == Some(Normalize(entry.id, editTitle, editPlatform, editStatus, editHours, editFavorite))
                && notice == None && !editMode
    {
      if IsBlank(editTitle) {
        return None, Some(TitleRequired);
      }
      var updated := Normalize(entry.id, editTitle, editPlatform, editStatus, editHours, editFavorite);
      saved, notice := Some(updated), None;
      editMode := false;
    }
  }
}
