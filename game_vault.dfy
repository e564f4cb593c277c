/** The game list screen: the current page of entries fetched from the games
    API, the filters, page and search that select it, and the handlers that
    create, update, delete and star entries and then re-synchronise. */
module GameVault {
  import opened Common
  import opened Query

  /** The decoded body of `GET /api/games`: `data` is `None` when it is not
      an array, `metaTotal` is `None` when `meta.total` is missing or falsy. */
  datatype ListBody = ListBody(data: Option<seq<Game>>, metaTotal: Option<nat>)

  /** A request the vault sends to the games API. */
  datatype Request =
    | List(query: seq<Param>)                 // GET /api/games?query
    | Create(payload: Game)                   // POST /api/games
    | Update(id: Option<Id>, body: Game)      // PUT /api/games/:id
    | Remove(id: Option<Id>)                  // DELETE /api/games/:id

  const LoadFailed := "Impossible de charger les jeux (voir console)."
  const SaveFailed := "Erreur lors de l'enregistrement. Voir la console pour les détails."
  const NotAuthenticated := "Non authentifié : connecte-toi d'abord."
  const NotAllowed := "Tu n'es pas autorisé à supprimer ce jeu."
  const DeleteFailed := "Impossible de supprimer le jeu (voir console)."
  const DeleteNetworkError := "Erreur réseau lors de la suppression."
  const ToggleFailed := "Impossible de mettre à jour le favori, restauration de l'état."

  /** The page sizes the page-size select offers. */
  predicate AllowedLimit(n: int)
  {
    n == 4 || n == 8 || n == 12
  }

  /** `games.some((g) => g.id === id)` */
  predicate ExistsLocally(games: seq<Game>, id: Option<Id>)
  {
    exists i :: 0 <= i < |games| && games[i].id == id
  }

  /** No two entries share an id. */
  predicate UniqueIds(games: seq<Game>)
  {
    forall i, j :: 0 <= i < j < |games| ==> games[i].id != games[j].id
  }

  /** `games.map((g) => g.id === id ? { ...g, favorite: !g.favorite } : g)`:
      the entries with that id have their favourite flag inverted and nothing
      else; every other entry, and the order, is kept. */
  function Flip(games: seq<Game>, id: Option<Id>): (r: seq<Game>)
    ensures |r| == |games|
    ensures forall i :: 0 <= i < |games| ==> r[i].id == games[i].id
    ensures forall i :: 0 <= i < |games| && games[i].id != id ==> r[i] == games[i]
    ensures forall i :: 0 <= i < |games| && games[i].id == id ==>
              r[i] == games[i].(favorite := !games[i].favorite)
  {
    if games == [] then []
    else
      var g := games[0];
      [if g.id == id then g.(favorite := !g.favorite) else g] + Flip(games[1..], id)
  }

  /** Flipping an id no entry carries leaves the list as it is. */
  lemma FlipAbsentIsIdentity(games: seq<Game>, id: Option<Id>)
    requires !ExistsLocally(games, id)
    ensures Flip(games, id) == games
  {
    var r := Flip(games, id);
    forall i | 0 <= i < |games| ensures r[i] == games[i] {
      assert games[i].id != id;
    }
  }

  /** `prev.map((g) => g.id === updated.id ? updated : g)`: every entry that
      carries the returned entry's id becomes the returned entry; the others
      and the order are kept. */
  function Merge(games: seq<Game>, updated: Game): (r: seq<Game>)
    ensures |r| == |games|
    ensures forall i :: 0 <= i < |games| && games[i].id != updated.id ==> r[i] == games[i]
    ensures forall i :: 0 <= i < |games| && games[i].id == updated.id ==> r[i] == updated
  {
    if games == [] then []
    else [if games[0].id == updated.id then updated else games[0]] + Merge(games[1..], updated)
  }

  /** `games.find((g) => g.id === id)`: the first entry with that id, and
      `None` exactly when there is none. */
  function FindById(games: seq<Game>, id: Option<Id>): (r: Option<Game>)
    ensures r.None? <==> !ExistsLocally(games, id)
    ensures r.Some? ==> exists i :: 0 <= i < |games| && games[i] == r.value && games[i].id == id
                                    && forall j :: 0 <= j < i ==> games[j].id != id
  {
    if games == [] then None
    else if games[0].id == id then Some(games[0])
    else
      var r := FindById(games[1..], id);
      assert ExistsLocally(games[1..], id) ==> ExistsLocally(games, id) by {
        if ExistsLocally(games[1..], id) {
          var k :| 0 <= k < |games[1..]| && games[1..][k].id == id;
          assert games[k + 1].id == id;
        }
      }
      assert ExistsLocally(games, id) ==> ExistsLocally(games[1..], id) by {
        if ExistsLocally(games, id) {
          var k :| 0 <= k < |games| && games[k].id == id;
          assert games[1..][k - 1].id == id;
        }
      }
      if r.Some? then
        var k :| 0 <= k < |games[1..]| && games[1..][k] == r.value && games[1..][k].id == id
                 && forall j :: 0 <= j < k ==> games[1..][j].id != id;
        assert games[k + 1] == r.value;
        assert forall j :: 0 <= j < k + 1 ==> games[j].id != id by {
          forall j | 0 <= j < k + 1 ensures games[j].id != id {
            if j > 0 { assert games[j] == games[1..][j - 1]; }
          }
        }
        r
      else
        r
  }

  /** Flipping the same id twice gives back the list it started from. */
  lemma {:induction false} FlipInvolutive(games: seq<Game>, id: Option<Id>)
    ensures Flip(Flip(games, id), id) == games
  {
    var once := Flip(games, id);
    var twice := Flip(once, id);
    assert forall i :: 0 <= i < |games| ==> once[i].id == games[i].id;
    assert forall i :: 0 <= i < |games| ==> twice[i] == games[i];
  }

  /** With unique ids, merging an entry that is already in the list changes
      nothing. */
  lemma MergePresentIsNoop(games: seq<Game>, k: nat)
    requires UniqueIds(games) && k < |games|
    ensures Merge(games, games[k]) == games
  {
    var merged := Merge(games, games[k]);
    forall i | 0 <= i < |games| ensures merged[i] == games[i] {
      if games[i].id == games[k].id {
        assert i == k;
      }
    }
  }

  /** When ids are unique and the server answers the favourite update with
      exactly the entry it was sent, merging the answer leaves the optimistic
      list as it was shown. */
  lemma MergeEchoKeepsOptimistic(games: seq<Game>, id: Option<Id>)
    requires UniqueIds(games)
    requires ExistsLocally(games, id)
    ensures var shown := Flip(games, id);
            Merge(shown, FindById(shown, id).value) == shown
  {
    var shown := Flip(games, id);
    var k :| 0 <= k < |shown| && shown[k] == FindById(shown, id).value && shown[k].id == id;
    assert UniqueIds(shown);
    MergePresentIsNoop(shown, k);
  }

  /** The entries a list response puts on screen: `data` if it is an
      array, `[]` otherwise. */
  function PageData(body: ListBody): seq<Game>
  {
    if body.data.Some? then body.data.value else []
  }

  /** `Number(json.meta?.total || 0)` */
  function PageTotal(body: ListBody): nat
  {
    if body.metaTotal.Some? then body.metaTotal.value else 0
  }

  /** `res.ok || res.status === 204` for the DELETE response. */
  predicate Deleted(outcome: Outcome<()>)
  {
    outcome.Success? || outcome.status == Some(204)
  }

  /** The alert after a DELETE that did not succeed: distinct messages for
      401, for 403, for any other status and for a request without a response. */
  function DeleteFailureMessage(status: Option<nat>): (m: string)
    ensures m == NotAuthenticated <==> status == Some(401)
    ensures m == NotAllowed <==> status == Some(403)
    ensures m == DeleteNetworkError <==> status.None?
    ensures m == DeleteFailed <==> status.Some? && status.value != 401 && status.value != 403
  {
    match status
    case None => DeleteNetworkError
    case Some(s) => if s == 401 then NotAuthenticated else if s == 403 then NotAllowed else DeleteFailed
  }

  /** The request `handleSaveGame` sends: an update of an entry already on
      the page, otherwise a creation from the entry with its id removed. */
  function SaveRequest(games: seq<Game>, data: Game): (r: Request)
    ensures r.Update? <==> ExistsLocally(games, data.id)
    ensures r.Update? ==> r.id == data.id && r.body == data
    ensures !r.Update? ==> r == Create(data.(id := None))
  {
    if ExistsLocally(games, data.id) then Update(data.id, data) else Create(data.(id := None))
  }

  /** The state of the `GameVault` component. */
  class Vault {
    var games: seq<Game>
    var statusFilter: string
    var platformFilter: string
    var showAddModal: bool
    var loading: bool
    var error: Option<string>
    var page: int
    var limit: int
    var total: nat
    var q: string

    /** The page is 1-based and the page size is one the select offers. */
    ghost predicate Valid()
      reads this
    {
      page >= 1 && AllowedLimit(limit)
    }

    /** The settings the list request is built from. */
    function Settings(): ListState
      reads this
    {
      ListState(statusFilter, platformFilter, page, limit, q)
    }

    /** The state on mount: no entries, no filter, page 1 of 8 rows, no search. */
    constructor ()
      ensures Valid()
      ensures games == [] && total == 0
      ensures Settings() == ListState("all", "all", 1, 8, "")
      ensures !loading && error == None && !showAddModal
    {
      games := [];
      statusFilter, platformFilter := "all", "all";
      showAddModal, loading, error := false, false, None;
      page, limit, total, q := 1, 8, 0, "";
    }

    /** What one `fetchGames` leaves behind given its reply: loading is over;
        on success the entries and the total are the response's and the error
        is cleared; on failure the previous entries and total stay and the
        error is set. */
    twostate predicate Reconciled(reply: Outcome<ListBody>)
      reads this
    {
      && !loading
      && match reply
         case Success(body) => games == PageData(body) && total == PageTotal(body) && error == None
         case Failure(_) => games == old(games) && total == old(total) && error == Some(LoadFailed)
    }

    /** The fetched list, its total, the error and the loading flag are as before. */
    twostate predicate ListKept()
      reads this
    {
      games == old(games) && total == old(total) && error == old(error) && loading == old(loading)
    }

    /** The effect on `[page, limit, statusFilter, platformFilter, q]`: when
        the settings differ from `before` one list request is sent with the
        current settings and reconciled; otherwise nothing happens. */
    twostate predicate EffectRan(before: ListState, reply: Outcome<ListBody>, issued: seq<Request>)
      reads this
    {
      if Settings() != before then
        issued == [List(BuildQuery(Settings(), NoOverrides))] && Reconciled(reply)
      else
        issued == [] && ListKept()
    }

    /** `fetchGames(opts)`: one list request built from the settings and the
        overrides, then the reply reconciled into the list; the settings and
        the modal are not touched. */
    method FetchGames(o: Overrides, reply: Outcome<ListBody>) returns (issued: seq<Request>)
      modifies this`games, this`total, this`loading, this`error
      ensures issued == [List(BuildQuery(Settings(), o))]
      ensures Reconciled(reply)
    {
      loading := true;
      error := None;
      issued := [List(BuildQuery(Settings(), o))];
      match reply {
        case Success(body) =>
          games := PageData(body);
          total := PageTotal(body);
        case Failure(_) =>
          error := Some(LoadFailed);
      }
      loading := false;
    }

    /** The list effect after a handler changed some settings. */
    method RunListEffect(before: ListState, reply: Outcome<ListBody>) returns (issued: seq<Request>)
      modifies this`games, this`total, this`loading, this`error
      ensures EffectRan(before, reply, issued)
    {
      if Settings() != before {
        issued := FetchGames(NoOverrides, reply);
      } else {
        issued := [];
      }
    }

    /** Mount, and the `user:login` / `user:logout` listeners: a plain
        `fetchGames()` that keeps the page. */
    method Refresh(reply: Outcome<ListBody>) returns (issued: seq<Request>)
      requires Valid()
      modifies this`games, this`total, this`loading, this`error
      ensures Valid()
      ensures issued == [List(BuildQuery(Settings(), NoOverrides))]
      ensures Reconciled(reply)
    {
      issued := FetchGames(NoOverrides, reply);
    }

    /** The status select: the filter takes the chosen value and the page
        goes back to 1, then the list effect runs. */
    method SetStatusFilter(v: string, reply: Outcome<ListBody>) returns (issued: seq<Request>)
      requires Valid()
      modifies this`statusFilter, this`page, this`games, this`total, this`loading, this`error
      ensures Valid()
      ensures Settings() == old(Settings()).(status := v, page := 1)
      ensures EffectRan(old(Settings()), reply, issued)
    {
      var before := Settings();
      statusFilter := v;
      page := 1;
      issued := RunListEffect(before, reply);
    }

    /** The platform select: the filter takes the chosen value and the page
        goes back to 1, then the list effect runs. */
    method SetPlatformFilter(v: string, reply: Outcome<ListBody>) returns (issued: seq<Request>)
      requires Valid()
      modifies this`platformFilter, this`page, this`games, this`total, this`loading, this`error
      ensures Valid()
      ensures Settings() == old(Settings()).(platform := v, page := 1)
      ensures EffectRan(old(Settings()), reply, issued)
    {
      var before := Settings();
      platformFilter := v;
      page := 1;
      issued := RunListEffect(before, reply);
    }

    /** The page-size select: the size takes the chosen value and the page
        goes back to 1, then the list effect runs. */
    method SetLimit(n: int, reply: Outcome<ListBody>) returns (issued: seq<Request>)
      requires Valid() && AllowedLimit(n)
      modifies this`limit, this`page, this`games, this`total, this`loading, this`error
      ensures Valid()
      ensures Settings() == old(Settings()).(limit := n, page := 1)
      ensures EffectRan(old(Settings()), reply, issued)
    {
      var before := Settings();
      limit := n;
      page := 1;
      issued := RunListEffect(before, reply);
    }

    /** The search box: the search text takes the typed value and the page
        goes back to 1, then the list effect runs. */
    method SetSearch(text: string, reply: Outcome<ListBody>) returns (issued: seq<Request>)
      requires Valid()
      modifies this`q, this`page, this`games, this`total, this`loading, this`error
      ensures Valid()
      ensures Settings() == old(Settings()).(q := text, page := 1)
      ensures EffectRan(old(Settings()), reply, issued)
    {
      var before := Settings();
      q := text;
      page := 1;
      issued := RunListEffect(before, reply);
    }

    /** "Précédent": disabled on page 1; otherwise one page back, never below 1. */
    method PrevPage(reply: Outcome<ListBody>) returns (issued: seq<Request>)
      requires Valid()
      modifies this`page, this`games, this`total, this`loading, this`error
      ensures Valid()
      ensures page == if old(page) <= 1 then old(page) else old(page) - 1
      ensures EffectRan(old(Settings()), reply, issued)
    {
      var before := Settings();
      if page > 1 {
        page := if page - 1 < 1 then 1 else page - 1;
      }
      issued := RunListEffect(before, reply);
    }

    /** "Suivant": disabled on the last page; otherwise one page on, never
        past the page count computed from the current total. */
    method NextPage(reply: Outcome<ListBody>) returns (issued: seq<Request>)
      requires Valid()
      modifies this`page, this`games, this`total, this`loading, this`error
      ensures Valid()
      ensures var last := TotalPages(old(total), limit);
              && (old(page) >= last ==> page == old(page))
              && (old(page) < last ==> page == old(page) + 1 && page <= last)
      ensures EffectRan(old(Settings()), reply, issued)
    {
      var before := Settings();
      var last := TotalPages(total, limit);
      if page < last {
        page := if last < page + 1 then last else page + 1;
      }
      issued := RunListEffect(before, reply);
    }

    /** "Ajouter un jeu" opens the add modal. */
    method OpenAddModal()
      modifies this`showAddModal
      ensures showAddModal
    {
      showAddModal := true;
    }

    /** `handleSaveGame`: an entry already on the page is updated and the
        current page re-fetched as it is; any other entry is created without
        its id, the page set to 1 and page 1 fetched. A failed save sends
        nothing more and changes nothing; only a successful one closes the
        modal. */
    method SaveGame(data: Game, mutation: Outcome<()>, reply: Outcome<ListBody>)
      returns (issued: seq<Request>, notice: Option<string>)
      requires Valid()
      modifies this`page, this`showAddModal, this`games, this`total, this`loading, this`error
      ensures Valid()
      ensures |issued| >= 1 && issued[0] == SaveRequest(old(games), data)
      ensures mutation.Failure? ==>
                && issued == [issued[0]] && notice == Some(SaveFailed)
                && page == old(page) && showAddModal == old(showAddModal) && ListKept()
      ensures mutation.Success? && ExistsLocally(old(games), data.id) ==>
                && page == old(page)
                && issued == [issued[0], List(BuildQuery(old(Settings()), NoOverrides))]
      ensures mutation.Success? && !ExistsLocally(old(games), data.id) ==>
                && page == 1
                && issued == [issued[0], List(BuildQuery(old(Settings()), PageOverride(1)))]
      ensures mutation.Success? ==> Reconciled(reply) && !showAddModal && notice == None
    {
      var sent := SaveRequest(games, data);
      issued := [sent];
      notice := None;
      if mutation.Failure? {
        notice := Some(SaveFailed);
        return;
      }
      var listed: seq<Request>;
      if ExistsLocally(games, data.id) {
        listed := FetchGames(NoOverrides, reply);
      } else {
        // The request is built from the settings this handler closed over;
        // the override supplies the page that `setPage(1)` commits.
        listed := FetchGames(PageOverride(1), reply);
        page := 1;
      }
      issued := [sent, listed[0]];
      showAddModal := false;
    }

    /** `handleDeleteGame`: nothing without confirmation; after a successful
        delete of the page's last row on a page after the first, the page
        steps back by one and that page is fetched; after any other
        successful delete the same page is fetched; a failed delete alerts
        and changes neither the page nor the list. */
    method DeleteGame(id: Option<Id>, confirmed: bool, outcome: Outcome<()>, reply: Outcome<ListBody>)
      returns (issued: seq<Request>, notice: Option<string>)
      requires Valid()
      modifies this`page, this`games, this`total, this`loading, this`error
      ensures Valid()
      ensures !confirmed ==> issued == [] && notice == None && page == old(page) && ListKept()
      ensures confirmed ==> |issued| >= 1 && issued[0] == Remove(id)
      ensures confirmed && Deleted(outcome) ==>
                var stepBack := |old(games)| - 1 <= 0 && old(page) > 1;
                && page == (if stepBack then old(page) - 1 else old(page))
                && issued == [Remove(id), List(BuildQuery(old(Settings()),
                                                          if stepBack then PageOverride(page) else NoOverrides))]
                && Reconciled(reply) && notice == None
      ensures confirmed && !Deleted(outcome) ==>
                && issued == [Remove(id)] && notice == Some(DeleteFailureMessage(outcome.status))
                && page == old(page) && ListKept()
    {
      issued, notice := [], None;
      if !confirmed {
        return;
      }
      issued := [Remove(id)];
      if Deleted(outcome) {
        var listed: seq<Request>;
        var remainingOnPage := |games| - 1;
        if remainingOnPage <= 0 && page > 1 {
          var prevPage := page - 1;
          listed := FetchGames(PageOverride(prevPage), reply);
          page := prevPage;
        } else {
          listed := FetchGames(NoOverrides, reply);
        }
        issued := [Remove(id), listed[0]];
      } else {
        notice := Some(DeleteFailureMessage(outcome.status));
      }
    }

    /** `handleToggleFavorite`: the list shows the flipped entries at once
        (`shown`); with no entry of that id nothing is sent; otherwise the
        first flipped entry is sent as an update, a failure restores the
        exact previous list, and a success merges the server's entry by id. */
    method ToggleFavorite(id: Option<Id>, outcome: Outcome<Game>)
      returns (shown: seq<Game>, issued: seq<Request>, notice: Option<string>)
      modifies this`games
      ensures shown == Flip(old(games), id)
      ensures !ExistsLocally(old(games), id) ==> issued == [] && notice == None && games == old(games)
      ensures ExistsLocally(old(games), id) ==> issued == [Update(id, FindById(shown, id).value)]
      ensures ExistsLocally(old(games), id) && outcome.Failure? ==>
                games == old(games) && notice == Some(ToggleFailed)
      ensures ExistsLocally(old(games), id) && outcome.Success? ==>
                games == Merge(shown, outcome.value) && notice == None
    {
      var prev := games;
      var next := Flip(games, id);
      games := next;
      shown := next;
      issued, notice := [], None;
      var target := FindById(next, id);
      if target.None? {
        FlipAbsentIsIdentity(prev, id);
        return;
      }
      issued := [Update(id, target.value)];
      match outcome {
        case Success(updated) =>
          games := Merge(games, updated);
        case Failure(_) =>
          notice := Some(ToggleFailed);
          games := prev;
      }
    }
  }
}
