/** How the add form and the card editor turn their fields into the entry
    they hand on: the title trimmed, the hours coerced, the rest as chosen. */
module Payload {
  import opened Common
  import opened Text

  const TitleRequired := "Le titre est obligatoire"

  /** `{ id, title: title.trim(), platform, status, hoursPlayed: Number(hours) || 0, favorite }`,
      built once the title has passed the blank check: the title is the
      trimmed one, so it is not empty and has no white space at either end;
      the hours are the number typed, or 0 when it was not a number. */
  function Normalize(id: Option<Id>, title: string, platform: string, status: string,
                     hours: Option<int>, favorite: bool): (g: Game)
    requires !IsBlank(title)
    ensures g.id == id && g.platform == platform && g.status == status && g.favorite == favorite
    ensures g.title == Trim(title) && g.title != []
    ensures !IsSpace(g.title[0]) && !IsSpace(g.title[|g.title| - 1])
    ensures g.hoursPlayed == (if hours.Some? then hours.value else 0)
  {
    TrimEmptyIffBlank(title);
    Game(id, Trim(title), platform, status, HoursOrZero(hours), favorite)
  }

  /** The title handed on is stable: the server trimming it again would
      change nothing. */
  lemma NormalizedTitleStable(id: Option<Id>, title: string, platform: string, status: string,
                              hours: Option<int>, favorite: bool)
    requires !IsBlank(title)
    ensures var g := Normalize(id, title, platform, status, hours, favorite);
            Trim(g.title) == g.title && !IsBlank(g.title)
  {
    TrimIdempotent(title);
  }
}
