/**
 The records of the PokeAPI REST service that the viewer reads, and the
 abstract world that stands in for the network.

 Every `fetchData(url)` of the viewer either yields a parsed record or fails
 (a non-OK status); here a world is a set of maps from the fetched address to
 the record, and an address that is not a key of its map is a failed fetch.
 */
module PokeApi {

  datatype Option<T> = None | Some(value: T)

  /** A `{name, url}` pair: the API's reference to another resource. */
  datatype NamedRef = NamedRef(name: string, url: string)

  /**
   An entry of a `names[]` or a `flavor_text_entries[]` list: a text
   (`name` or `flavor_text`) and the tag of its language (`language.name`).
   */
  datatype Localized = Localized(text: string, language: string)

  datatype Sprites = Sprites(frontDefault: string, frontShiny: string)

  /** An entry of `stats[]`: the stat's reference (`stat.name`) and `base_stat`. */
  datatype StatEntry = StatEntry(stat: NamedRef, baseStat: int)

  /**
   `GET /pokemon/{id}`. `types` holds the `type` member of each `types[]`
   entry and `moves` the `move` member of each `moves[]` entry, in the
   record's order.
   */
  datatype Pokemon = Pokemon(
    id: int,
    name: string,
    sprites: Sprites,
    types: seq<NamedRef>,
    stats: seq<StatEntry>,
    moves: seq<NamedRef>)

  /** `GET /pokemon-species/{id}`. */
  datatype Species = Species(flavorTextEntries: seq<Localized>, evolutionChainUrl: string)

  /**
   A node of the `chain` of `GET {evolution_chain.url}`: a species and the
   nodes it evolves into.
   */
  datatype ChainLink = ChainLink(species: NamedRef, evolvesTo: seq<ChainLink>)

  /**
   What the network answers. `pokemon` and `species` are keyed by the id put
   into `/pokemon/{id}` and `/pokemon-species/{id}`; the other maps are keyed
   by the URL a record links to (a type's `names[]`, a move's `names[]`, an
   evolution chain's root node).
   */
  datatype World = World(
    pokemon: map<int, Pokemon>,
    species: map<int, Species>,
    typeNames: map<string, seq<Localized>>,
    moveNames: map<string, seq<Localized>>,
    chains: map<string, ChainLink>)

  /** One fetch: the record under `key`, or a failure when there is none. */
  function Lookup<K, V>(m: map<K, V>, key: K): Option<V>
  {
    if key in m then Some(m[key]) else None
  }

  function Min(a: int, b: int): int
  {
    if a <= b then a else b
  }
}
