/** The "Ajouter un jeu" form: its fields, the title check and the payload
    it hands to `onAddGame`. */
module AddGameForm {
  import opened Common
  import opened Text
  import opened Payload

  /** The fields of the add form (the inputs' `onChange` handlers assign
      them). No input sets `favorite`: the form renders none, so it keeps its
      default `false` unless a caller assigns it. */
  class Form {
    var title: string
    var platform: string
    var status: string
    var hoursPlayed: Option<int>
    var favorite: bool
    var error: string

    /** Empty title, PS5, backlog, 0 hours, not a favourite. */
    predicate AtDefaults()
      reads this
    {
      title == "" && platform == "PS5" && status == "backlog" && hoursPlayed == Some(0) && !favorite
    }

    constructor ()
      ensures AtDefaults() && error == ""
    {
      title, platform, status, hoursPlayed, favorite := "", "PS5", "backlog", Some(0), false;
      error := "";
    }

    /** `handleSubmit`: a blank title sets the error, hands nothing on and
        leaves every field as it was; otherwise `onAddGame` receives one
        payload without an id, with the trimmed title and the coerced hours,
        and the fields return to their defaults with the error cleared. */
    method HandleSubmit() returns (submitted: Option<Game>)
      modifies this
      ensures IsBlank(old(title)) ==>
                && submitted == None && error == TitleRequired
                && title == old(title) && platform == old(platform) && status == old(status)
                && hoursPlayed == old(hoursPlayed) && favorite == old(favorite)
      ensures !IsBlank(old(title)) ==>
                && submitted == Some(Normalize(None, old(title), old(platform), old(status),
                                               old(hoursPlayed), old(favorite)))
                && AtDefaults() && error == ""
    {
      if IsBlank(title) {
        error := TitleRequired;
        return None;
      }
      var payload := Normalize(None, title, platform, status, hoursPlayed, favorite);
      submitted := Some(payload);
      title := "";
      platform := "PS5";
      status := "backlog";
      hoursPlayed := Some(0);
      favorite := false;
      error := "";
    }
  }
}
