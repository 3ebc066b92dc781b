/**
 * The shapes the remote catalogue hands back, and the remote catalogue itself.
 *
 * The HTTP wrappers of src/api/pokeapi.js only return `response.data` (and, for
 * the by-type endpoint, unwrap `.pokemon.map(p => p.pokemon)`); here every
 * endpoint is a total function from its request arguments to an outcome, so
 * that a handler's contract can say which request it issued and what it did
 * with each possible answer.
 */
module PokeApi {

  /** An entry of a list page: `{name, url}`. */
  datatype Summary = Summary(name: string, url: string)

  /** One base stat of a detail: `stats[i].stat.name` and `stats[i].base_stat`. */
  datatype Stat = Stat(name: string, baseStat: int)

  /** The fields of a detail response that the screens read. */
  datatype Detail = Detail(
    id: int,
    name: string,
    types: seq<string>,
    stats: seq<Stat>,
    abilities: seq<string>)

  /** A list page: `results`, and whether `next` was present. */
  datatype Page = Page(results: seq<Summary>, hasNext: bool)

  /** The outcome of one request: the decoded body, or a thrown error. */
  datatype Fetch<+T> = Ok(value: T) | Failed

  /**
   * The four read operations used by the screens (types are not modelled):
   * `getPokemonList(limit, offset)`, `getPokemonDetails(nameOrId)` and
   * `getPokemonByType(type)`.
   */
  datatype Client = Client(
    list: (nat, nat) -> Fetch<Page>,
    details: string -> Fetch<Detail>,
    byType: string -> Fetch<seq<Summary>>)

  /** The page size every list request of the home screen uses. */
  const PageSize: nat := 20
}
