/** Client walk-throughs: what a caller of the vault can conclude from the
    handlers' contracts alone, for three situations: deleting the only row of
    the last page, a failed favourite toggle, and creating an entry from
    page 5. */
module Scenarios {
  import opened Common
  import opened Query
  import opened GameVault

  /** 17 entries at 8 per page make 3 pages; deleting the only row of page 3
      re-fetches page 2. */
  method DeleteLastRowOfLastPage(g: Game, body: ListBody)
  {
    var v := new Vault();
    v.games, v.total, v.page := [g], 17, 3;
    assert TotalPages(v.total, v.limit) == 3;
    var issued, notice := v.DeleteGame(g.id, true, Success(()), Success(body));
    assert v.page == 2;
    assert Lookup(issued[1].query, "page") == Some(Num(2));
  }

  /** Starring the only entry shows it starred at once; a failed update
      brings back exactly the entry as it was. */
  method ToggleRollsBack()
  {
    var v := new Vault();
    var g := Game(Some(1), "Celeste", "PC", "playing", 12, false);
    v.games := [g];
    assert v.games[0].id == Some(1);
    var shown, issued, notice := v.ToggleFavorite(Some(1), Failure(Some(500)));
    assert shown[0].favorite;
    assert v.games == [g];
    assert notice == Some(ToggleFailed);
  }

  /** Creating from page 5 asks for page 1 and stays there. */
  method CreateReturnsToFirstPage(data: Game, body: ListBody)
    requires data.id.None?
  {
    var v := new Vault();
    v.page := 5;
    var issued, notice := v.SaveGame(data, Success(()), Success(body));
    assert v.page == 1;
    assert issued[0] == Create(data);
    assert Lookup(issued[1].query, "page") == Some(Num(1));
  }
}
