/**
 * The derivations and state of src/screens/DetailsScreen.js: the stat
 * labels, the favorite record built from a detail, the theming type, the
 * loading/loaded/blank view, and the heart that shows whether the Pokémon is
 * a favorite.
 */
module Details {
  import opened Wrappers
  import opened Helpers
  import opened PokeApi
  import opened Favorites
  import opened Home

  /** The label a stat row shows: the two long stat names are abbreviated. */
  function StatLabel(name: string): (text: string)
    ensures text != name <==> name == "special-attack" || name == "special-defense"
    ensures name == "special-attack" ==> text == "Sp. Atk"
    ensures name == "special-defense" ==> text == "Sp. Def"
  {
    if name == "special-attack" then "Sp. Atk"
    else if name == "special-defense" then "Sp. Def"
    else name
  }

  /** One row of the base-stats section. */
  datatype StatRow = StatRow(text: string, value: int)

  /** `details.stats.map(s => <StatBar label=… value={s.base_stat}/>)` */
  function StatRows(d: Detail): (rows: seq<StatRow>)
    ensures |rows| == |d.stats|
    ensures forall i :: 0 <= i < |rows| ==>
      rows[i].text == StatLabel(d.stats[i].name) && rows[i].value == d.stats[i].baseStat
  {
    seq(|d.stats|, i requires 0 <= i < |d.stats| => StatRow(StatLabel(d.stats[i].name), d.stats[i].baseStat))
  }

  /** `pokemonForList`: the record `handleToggleFavorite` hands to the store. */
  function FavoriteRecordFor(d: Detail): (r: Record)
    ensures r.id == Num(d.id) && r.name == d.name
    ensures GetPokemonIdFromUrl(r.url) == Some(IntToString(d.id))
  {
    UrlRoundTrip(IntToString(d.id));
    Record(Num(d.id), d.name, PokemonUrl(IntToString(d.id)))
  }

  /** `details.types[0].type.name`, the type the screen is coloured by. */
  function MainType(d: Detail): (t: string)
    requires |d.types| > 0
    ensures t in d.types
    ensures d.types == [t] + d.types[1..]
  {
    d.types[0]
  }

  /** What the screen renders: a spinner, nothing, or the detail. */
  datatype View = Spinner | Blank | Shown(detail: Detail)

  /** The three-way choice at the top of the render. */
  function ViewOf(loading: bool, details: Option<Detail>): (v: View)
    ensures v.Spinner? <==> loading
    ensures v.Blank? <==> !loading && details.None?
    ensures v.Shown? ==> details == Some(v.detail)
  {
    if loading then Spinner
    else if details.None? then Blank
    else Shown(details.value)
  }

  /**
   * The heart in the header: `isFavorite(pokemonId)` for the id the screen
   * was opened with, compared strictly.
   */
  function Heart(favs: seq<Record>, routeId: Id): (shown: bool)
    ensures shown <==> exists x :: x in favs && x.id == routeId
  {
    IsFavoriteIn(favs, routeId)
  }

  /**
   * Opened from the home list, the route id is the string cut out of the
   * entry's URL. Right after that Pokémon was made a favorite here, the heart
   * is still empty, though the store holds it.
   */
  lemma HeartMissesFavoriteOpenedFromList(d: Detail)
    ensures var favs := Toggled([], FavoriteRecordFor(d));
      var fromList := GetPokemonIdFromUrl(SummaryOf(d).url);
      && fromList == Some(IntToString(d.id))
      && IsFavoriteIn(favs, Num(d.id))
      && !Heart(favs, Str(fromList.value))
  {
    var favs := Toggled([], FavoriteRecordFor(d));
    assert favs == [FavoriteRecordFor(d)];
  }

  /** Two ids name the same Pokémon when their decimal text agrees. */
  predicate SameKey(a: Id, b: Id) {
    IdString(a) == IdString(b)
  }

  /** The heart as intended: the route id matches a stored id of either kind by its text. */
  function HeartByKey(favs: seq<Record>, routeId: Id): (shown: bool)
    ensures shown <==> exists x :: x in favs && SameKey(x.id, routeId)
  {
    if favs == [] then false
    else
      assert favs == [favs[0]] + favs[1..];
      SameKey(favs[0].id, routeId) || HeartByKey(favs[1..], routeId)
  }

  /**
   * With numeric ids stored (as this screen stores them), the corrected heart
   * agrees with the store's own membership test whichever kind of id the
   * screen was opened with.
   */
  lemma HeartByKeyMatchesStore(favs: seq<Record>, n: int)
    requires forall x :: x in favs ==> x.id.Num?
    ensures HeartByKey(favs, Str(IntToString(n))) == IsFavoriteIn(favs, Num(n))
    ensures HeartByKey(favs, Num(n)) == IsFavoriteIn(favs, Num(n))
  {
    forall x | x in favs
      ensures SameKey(x.id, Str(IntToString(n))) <==> x.id == Num(n)
    {
      if SameKey(x.id, Str(IntToString(n))) {
        IntToStringInjective(x.id.n, n);
      }
    }
  }

  /** The screen's own cells, for the Pokémon named by the route. */
  class DetailsScreen {
    const pokemonId: Id
    var details: Option<Detail>
    var loading: bool
    /** Whether the screen has asked the navigator to go back. */
    var wentBack: bool

    /** The first render: no detail yet, spinner on. */
    constructor (pokemonId: Id)
      ensures this.pokemonId == pokemonId
      ensures details == None && loading && !wentBack
    {
      this.pokemonId := pokemonId;
      details := None;
      loading := true;
      wentBack := false;
    }

    /** What the screen renders now. */
    function CurrentView(): (v: View)
      reads this
      ensures v.Shown? <==> !loading && details.Some?
    {
      ViewOf(loading, details)
    }

    /**
     * `loadDetails()`: fetch the detail for the route id. On failure, alert
     * (reported in `alerted`) and go back; in both cases the spinner ends.
     */
    method LoadDetails(api: Client) returns (alerted: bool)
      modifies this
      ensures !loading
      ensures alerted <==> api.details(IdString(pokemonId)).Failed?
      ensures match api.details(IdString(pokemonId))
        case Ok(d) => details == Some(d) && wentBack == old(wentBack)
        case Failed => details == old(details) && wentBack
    {
      alerted := false;
      match api.details(IdString(pokemonId)) {
        case Ok(d) =>
          details := Some(d);
        case Failed =>
          alerted := true;
          wentBack := true;
      }
      loading := false;
    }

    /**
     * `handleToggleFavorite()`: nothing until the detail is there; then
     * toggle the record built from it; `alerted` reports the store's alert
     * for a failed write.
     */
    method HandleToggleFavorite(store: Store, saved: bool) returns (alerted: bool)
      modifies store
      ensures alerted <==> details.Some? && !saved
      ensures details.None? ==> store.favorites == old(store.favorites) && store.stored == old(store.stored)
      ensures details.Some? ==>
        && store.favorites == Toggled(old(store.favorites), FavoriteRecordFor(details.value))
        && store.IsFavorite(Num(details.value.id)) == !old(store.IsFavorite(Num(details.value.id)))
        && store.stored == if saved then Some(store.favorites) else old(store.stored)
    {
      if details.None? {
        return false;
      }
      var pokemonForList := FavoriteRecordFor(details.value);
      alerted := store.ToggleFavorite(pokemonForList, saved);
    }
  }
}
