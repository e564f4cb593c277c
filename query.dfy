/** The list request's query string and the page count (GameVault's
    `buildQuery` and `totalPages`). */
module Query {
  import opened Common

  /** The list settings the vault keeps: status and platform filters (`"all"`
      means no filter), the 1-based page, the page size and the search text. */
  datatype ListState = ListState(status: string, platform: string, page: int, limit: int, q: string)

  /** One-off overrides of `buildQuery(opts)`: a present field replaces the
      state's value for this request only. */
  datatype Overrides = Overrides(
    status: Option<string>,
    platform: Option<string>,
    page: Option<int>,
    limit: Option<int>,
    q: Option<string>)

  const NoOverrides := Overrides(None, None, None, None, None)

  /** `fetchGames({ page: p })` */
  function PageOverride(p: int): Overrides
  {
    NoOverrides.(page := Some(p))
  }

  /** A query-string value: text, or a number `URLSearchParams` stringifies. */
  datatype Value = Str(s: string) | Num(n: int)

  datatype Param = Param(key: string, value: Value)

  /** `a ?? b`: an absent override falls back to the current value. */
  function Pick<T>(override: Option<T>, current: T): T
  {
    if override.Some? then override.value else current
  }

  /** The settings one request uses once the overrides are applied. */
  function Effective(s: ListState, o: Overrides): ListState
  {
    ListState(Pick(o.status, s.status), Pick(o.platform, s.platform),
              Pick(o.page, s.page), Pick(o.limit, s.limit), Pick(o.q, s.q))
  }

  /** `v && v !== 'all'`: a filter value that narrows the list. */
  predicate Narrows(v: string)
  {
    v != "" && v != "all"
  }

  /** The first value the query string gives `key`. */
  function Lookup(params: seq<Param>, key: string): Option<Value>
  {
    if params == [] then None
    else if params[0].key == key then Some(params[0].value)
    else Lookup(params[1..], key)
  }

  predicate HasKey(params: seq<Param>, key: string)
  {
    exists i :: 0 <= i < |params| && params[i].key == key
  }

  /** The keys the list request may carry. */
  predicate SettingKey(k: string)
  {
    k == "status" || k == "platform" || k == "q" || k == "page" || k == "limit"
  }

  /** `buildQuery(opts)`: each key appears at most once; `page` and `limit`
      are always there; `status`, `platform` and `q` never carry `"all"` or
      the empty string, because a value that does not narrow is left out. */
  function BuildQuery(s: ListState, o: Overrides): (r: seq<Param>)
    ensures forall i, j :: 0 <= i < j < |r| ==> r[i].key != r[j].key
    ensures HasKey(r, "page") && HasKey(r, "limit")
    ensures forall i :: 0 <= i < |r| && r[i].key in {"status", "platform"} ==>
              r[i].value != Str("all") && r[i].value != Str("")
    ensures forall i :: 0 <= i < |r| && r[i].key == "q" ==> r[i].value != Str("")
  {
    var e := Effective(s, o);
    var r := (if Narrows(e.status) then [Param("status", Str(e.status))] else [])
             + (if Narrows(e.platform) then [Param("platform", Str(e.platform))] else [])
             + (if e.q != "" then [Param("q", Str(e.q))] else [])
             + [Param("page", Num(e.page)), Param("limit", Num(e.limit))];
    assert r[|r| - 2].key == "page" && r[|r| - 1].key == "limit";
    r
  }

  /** Looking a key up in two concatenated parts finds it in the first part
      when it is there, and in the second otherwise. */
  lemma {:induction false} LookupAppend(a: seq<Param>, b: seq<Param>, key: string)
    ensures Lookup(a + b, key) == if Lookup(a, key).Some? then Lookup(a, key) else Lookup(b, key)
  {
    if a != [] {
      assert (a + b)[1..] == a[1..] + b;
      LookupAppend(a[1..], b, key);
    } else {
      assert a + b == b;
    }
  }

  /** What a query says about a filter value: present only when it narrows. */
  function FilterParam(v: string): Option<Value>
  {
    if Narrows(v) then Some(Str(v)) else None
  }

  /** What a query says about the search text: present only when not empty. */
  function SearchParam(q: string): Option<Value>
  {
    if q != "" then Some(Str(q)) else None
  }

  /** The query as its four parts: the optional status, platform and search
      parameters, then page and size. */
  lemma BuildQueryParts(s: ListState, o: Overrides)
    ensures var e := Effective(s, o);
            BuildQuery(s, o)
              == (if Narrows(e.status) then [Param("status", Str(e.status))] else [])
                 + ((if Narrows(e.platform) then [Param("platform", Str(e.platform))] else [])
                    + ((if e.q != "" then [Param("q", Str(e.q))] else [])
                       + [Param("page", Num(e.page)), Param("limit", Num(e.limit))]))
  {
  }

  /** The value a key reads back from a query built from the settings `e`:
      the status and platform when they narrow, the search text when not
      empty, the page and size always, and nothing for any other key. */
  function Expected(e: ListState, key: string): Option<Value>
  {
    if key == "status" then FilterParam(e.status)
    else if key == "platform" then FilterParam(e.platform)
    else if key == "q" then SearchParam(e.q)
    else if key == "page" then Some(Num(e.page))
    else if key == "limit" then Some(Num(e.limit))
    else None
  }

  /** The four parts of the query, read back key by key. */
  lemma LookupParts(e: ListState, key: string)
    ensures Lookup((if Narrows(e.status) then [Param("status", Str(e.status))] else [])
                   + ((if Narrows(e.platform) then [Param("platform", Str(e.platform))] else [])
                      + ((if e.q != "" then [Param("q", Str(e.q))] else [])
                         + [Param("page", Num(e.page)), Param("limit", Num(e.limit))])), key)
            == Expected(e, key)
  {
    var sPart := if Narrows(e.status) then [Param("status", Str(e.status))] else [];
    var pPart := if Narrows(e.platform) then [Param("platform", Str(e.platform))] else [];
    var qPart := if e.q != "" then [Param("q", Str(e.q))] else [];
    var tail := [Param("page", Num(e.page)), Param("limit", Num(e.limit))];
    assert tail[1..] == [Param("limit", Num(e.limit))] && tail[1..][1..] == [];
    LookupAppend(sPart, pPart + (qPart + tail), key);
    LookupAppend(pPart, qPart + tail, key);
    LookupAppend(qPart, tail, key);
  }

  /** Read back as the server reads it, the query gives every key exactly
      what the effective settings say, and nothing to a key outside them. */
  lemma LookupQuery(s: ListState, o: Overrides, key: string)
    ensures Lookup(BuildQuery(s, o), key) == Expected(Effective(s, o), key)
  {
    BuildQueryParts(s, o);
    LookupParts(Effective(s, o), key);
  }

  /** Read back as the server reads it, the query carries exactly the
      effective settings: a filter only when it narrows, the search text only
      when it is not empty, the page and the size always. */
  lemma QueryReflectsSettings(s: ListState, o: Overrides)
    ensures var r, e := BuildQuery(s, o), Effective(s, o);
            && Lookup(r, "status") == FilterParam(e.status)
            && Lookup(r, "platform") == FilterParam(e.platform)
            && Lookup(r, "q") == SearchParam(e.q)
            && Lookup(r, "page") == Some(Num(e.page))
            && Lookup(r, "limit") == Some(Num(e.limit))
  {
    LookupQuery(s, o, "status");
    LookupQuery(s, o, "platform");
    LookupQuery(s, o, "q");
    LookupQuery(s, o, "page");
    LookupQuery(s, o, "limit");
  }

  /** The query carries no key besides the five settings: with unique keys
      and `QueryReflectsSettings` this fixes the query up to order. */
  lemma QueryHasOnlySettingKeys(s: ListState, o: Overrides)
    ensures forall i :: 0 <= i < |BuildQuery(s, o)| ==> SettingKey(BuildQuery(s, o)[i].key)
  {
    BuildQueryParts(s, o);
  }

  /** A present override wins over the state and an absent one falls back
      to it, field by field. */
  lemma OverridesWin(s: ListState, o: Overrides)
    ensures var r := BuildQuery(s, o);
            && Lookup(r, "status") == FilterParam(if o.status.Some? then o.status.value else s.status)
            && Lookup(r, "platform") == FilterParam(if o.platform.Some? then o.platform.value else s.platform)
            && Lookup(r, "q") == SearchParam(if o.q.Some? then o.q.value else s.q)
            && Lookup(r, "page") == Some(Num(if o.page.Some? then o.page.value else s.page))
            && Lookup(r, "limit") == Some(Num(if o.limit.Some? then o.limit.value else s.limit))
  {
    QueryReflectsSettings(s, o);
  }

  /** Forcing the page through an override builds the same request as
      committing that page to the state first: the one-off override is how a
      handler fetches the page it has just set before the state update lands. */
  lemma PageOverrideMatchesCommittedPage(s: ListState, p: int)
    ensures BuildQuery(s, PageOverride(p)) == BuildQuery(s.(page := p), NoOverrides)
  {
  }

  /** `Math.max(1, Math.ceil(total / limit))`: the least page count, at least
      one, whose pages of `limit` rows hold all `total` rows. */
  function TotalPages(total: nat, limit: int): (r: nat)
    requires limit > 0
    ensures r >= 1
    ensures total <= r * limit
    ensures r == 1 || (r - 1) * limit < total
  {
    var n := total + limit - 1;
    var d := n / limit;
    assert n == d * limit + n % limit;
    if d < 1 then 1 else d
  }
}
