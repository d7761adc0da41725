# Pokédex viewer — a Dafny model

The viewer is a browser page that looks a Pokémon up in the public PokeAPI by
its number. It shows the name, number, sprite, types, description, stats,
evolution chain and first four moves, and it offers next, previous, search and
shiny-sprite buttons. This project models the page script's logic.

- **The network.** A `World` value (`PokeApi.World`) replaces it: one map per
  kind of resource. A fetch of an address that is not a key of its map is a
  failed fetch.
- **URL ids** (`UrlIds`). JavaScript's `split('/')` and its inverse `join`,
  and `getIdFromUrl`, which takes the second-to-last segment.
- **Text selection** (`TextSelection`). The description's language fallback
  (Spanish, then English, then a placeholder). Each type's and each move's
  Spanish name, where a missing one fails the load. The fixed table of stat
  labels. `slice(0, 4)` on the moves.
- **The evolution strip** (`Evolution`). The source's do-while loop is a
  method with a `while` loop. A recursive function specifies it, and
  lemmas relate that function to a step-by-step descent along `evolves_to[0]`.
- **The page state** (`Pokedex`). The current id, the shiny flag and the eight
  display regions. Each trigger (load, next, previous, shiny toggle) is a pure
  function from the old state to the new one. The class `Pokedex.Pokedex`
  holds the same state in fields and performs the source's steps in the
  source's order. Each of its methods is proved to end in the state the
  function gives.

## Behaviour the model follows closely

- **When the id is set.** `updatePokemonData` sets the id and the flag right
  after the record and species fetches succeed (pokeapi/script.js:38-39).
  That is before the type, evolution and move fetches. The next and previous
  buttons also set the id before they call it (pokeapi/script.js:126, 145).
  So a later failure clears the display but keeps the new id.
  `Pokedex.LoadStep` and `Pokedex.MoveTo` model this, and
  `Pokedex.MoveToVersusLoad` states exactly when it differs from a plain load.
- **A missing Spanish type or move name.** `find(...)` returns `undefined`
  and reading `.name` throws (pokeapi/script.js:47, 63). The load's `catch`
  handles it as "not found", so the model treats it as a failed load.
- **A stat key outside the six-entry table.** For a key that is neither in
  `statTranslations` nor a member `Object.prototype` provides, the label
  renders as the text `undefined` (pokeapi/script.js:56).
  `TextSelection.StatLabel` does the same for every key outside the table.
- **The probe of next and previous.** It must also yield a record whose
  `name` is non-empty (`pokemonData && pokemonData.name`,
  pokeapi/script.js:125, 144).

## Model

| member | source | states |
|---|---|---|
| `UrlIds.Split` | pokeapi/script.js:94 | `url.split('/')` gives at least one piece. It gives exactly one piece iff the separator does not occur. No piece contains the separator. |
| `UrlIds.JoinSplit` | pokeapi/script.js:94 | Splitting loses nothing: joining the pieces with the separator gives the original string back. |
| `UrlIds.SplitAround` | pokeapi/script.js:94 | A separator between `a` and `b` splits exactly there: the pieces of `a`, then the pieces of `b`. |
| `UrlIds.IdFromUrl` | pokeapi/script.js:93-96 | `getIdFromUrl` yields a segment iff the URL contains a `/`. The segment never contains `/`. With no `/`, `parts[parts.length - 2]` is `undefined`, modelled as `None`. |
| `UrlIds.IdOfResourceUrl` | pokeapi/script.js:93-96 | For a URL of the form `prefix + "/" + n + "/"` where `n` has no `/`, `getIdFromUrl` returns `n`. |
| `TextSelection.FirstIndexOf` | pokeapi/script.js:52-53 | `find` by language stops at the first entry with that tag, and no earlier entry has it. It finds nothing iff no entry has the tag. |
| `TextSelection.FirstText` | pokeapi/script.js:47 | The text of the first entry tagged with a language exists iff some entry has that tag, and it is that first entry's text. |
| `TextSelection.Description` | pokeapi/script.js:52-54 | The description is the first Spanish flavor text if there is one. Otherwise it is the first English one if there is one. Otherwise it is "Descripción no disponible". |
| `TextSelection.SpanishNames` | pokeapi/script.js:45-49 | Each batch of type or move names, all or nothing. It succeeds iff every URL resolves to a record that has a Spanish name. Then it holds one name per reference, in order, each the first Spanish entry of that record. |
| `TextSelection.StatLabel` | pokeapi/script.js:56 | `statTranslations[stat.stat.name]` as the template renders it: the table's label for each of its six keys (pokeapi/script.js:19-26), and the text `undefined` exactly for the keys outside it. |
| `TextSelection.StatLines` | pokeapi/script.js:56 | One stat line per stat, in the record's order. Each line is labelled through `StatLabel` and carries `base_stat`. |
| `TextSelection.FirstMoves` | pokeapi/script.js:61 | `slice(0, 4)`: exactly min(4, number of moves) moves, in the record's order. |
| `Evolution.FirstBranchWalk` | pokeapi/script.js:75-91 | The strip is never empty and starts with the root's stage. A node's stage (`StageOf`, pokeapi/script.js:80-86) carries the species name and the sprite address of pokeapi/script.js:83 built by `SpriteUrl` from the id in the species URL, with the text `undefined` in place of the id when that URL has no `/`. |
| `Evolution.WalkFollowsFirstBranch` | pokeapi/script.js:79-88 | The strip has stage `k` iff following `evolves_to[0]` `k` times from the root reaches a node. Stage `k` is that node's stage (`StageOf`: its name and the sprite address built by `SpriteUrl` from its species URL's id), so the strip is in root-first order, one stage per node on the first-branch path. |
| `Evolution.WalkIgnoresLaterBranches` | pokeapi/script.js:87 | Only `evolves_to[0]` is followed. Cutting every other branch off the chain leaves the strip unchanged. |
| `Evolution.PruneIsLinear` | pokeapi/script.js:87 | The chain with the later branches cut off has at most one successor per node. |
| `Evolution.WalkCoversLinearChain` | pokeapi/script.js:79-88 | On a chain without branching, the strip has exactly one stage per node. |
| `Evolution.EvolutionChainImages` | pokeapi/script.js:75-91 | The do-while loop over `current` emits exactly the walk defined by `FirstBranchWalk`. |
| `Pokedex.RenderRecord` | pokeapi/script.js:41-66 | The rest of a load succeeds iff every type name, the evolution chain and the first four move names resolve. The view then shows the following. The record's name, its own `id` and its default sprite. One badge per type, with its Spanish name. The description chosen by `Description`. The stat lines. The first-branch evolution strip. Min(4, number of moves) Spanish move names. |
| `Pokedex.LoadStep` | pokeapi/script.js:34-73 | `updatePokemonData(id)`. The state becomes (id, not shiny) iff both the record and the species fetches succeed (or it already was). If either fails, the id and the flag stay and the display is cleared. The display is not cleared iff every later fetch also succeeds, and then it shows the rendered record with the default sprite. |
| `Pokedex.MoveTo` | pokeapi/script.js:123-131 | If the probe finds a named record, the id becomes the target, whatever the load then does. Otherwise the id and the flag stay and the display is cleared. |
| `Pokedex.NextStep` | pokeapi/script.js:121-137 | Next: if the probe finds a named record, the id becomes `currentId + 1`. Otherwise the id and the flag stay and the display is cleared. |
| `Pokedex.PreviousStep` | pokeapi/script.js:139-157 | Previous: if `currentId - 1 < 1`, nothing at all changes. Otherwise it behaves like next, with `currentId - 1` as the target. |
| `Pokedex.ToggleShinyStep` | pokeapi/script.js:160-168 | If the re-fetch fails, nothing changes. Otherwise the flag flips and the image becomes the sprite the new flag selects. The id and every other region stay as they were. |
| `Pokedex.MoveToVersusLoad` | pokeapi/script.js:123-127 | Once the probe succeeds, next and previous equal a plain load of the target iff the species record exists. Without one, the id has moved and the display is cleared. |
| `Pokedex.NextAfterLaterFailure` | pokeapi/script.js:121-137 | When the probe and the species fetch succeed but a later type, evolution or move fetch fails, next ends at the new id with the flag reset to not shiny and the display cleared. |
| `Pokedex.ToggleTwiceRestores` | pokeapi/script.js:160-168 | When the image matches the flag, two successful toggles give back exactly the same state. |
| `Pokedex.LoadThenToggleTwice` | pokeapi/script.js:160-168 | After a complete load, one toggle shows the shiny sprite with the flag set, and a second toggle returns exactly the loaded state with the default sprite. |
| `Pokedex.Pokedex.constructor` | pokeapi/script.js:16-17 | The script starts at id 1, not shiny, and then runs `updatePokemonData(1)` (line 170). |
| `Pokedex.Pokedex.ShowNotFoundMessage` | pokeapi/script.js:98-107 | The name region reads "Pokémon no encontrado" and every other region is blank. The id and the flag are unchanged. |
| `Pokedex.Pokedex.UpdatePokemonData` | pokeapi/script.js:34-73 | The step-by-step load ends in the state `LoadStep` gives. |
| `Pokedex.Pokedex.ShowRecord` | pokeapi/script.js:41-66 | Filling the regions after the state is set ends with the rendered view, or with the cleared display if a fetch fails. The id and the flag stay as they were. |
| `Pokedex.Pokedex.Search` | pokeapi/script.js:109-119 | An empty input does nothing. Otherwise the search loads the id. |
| `Pokedex.Pokedex.Next` | pokeapi/script.js:121-137 | The next handler ends in the state `NextStep` gives. |
| `Pokedex.Pokedex.Previous` | pokeapi/script.js:139-157 | The previous handler ends in the state `PreviousStep` gives. |
| `Pokedex.Pokedex.ToggleShiny` | pokeapi/script.js:160-168 | The toggle handler ends in the state `ToggleShinyStep` gives. |

## Left out

- `fetchData`, HTTP status codes and JSON parsing (pokeapi/script.js:28-32). Each fetch is a lookup in the world. Every non-OK response is the same failure.
- The DOM. Element lookups, `innerHTML` and `textContent` writes are left out. The regions hold plain values rather than HTML: no `<span>` or `<li>` markup, and the number label is the record's id, not the text `No {id}`.
- `alert` and `console.error`. They have no effect on the state or the display.
- `async`/`await` and the `Promise.all` fan-out. Each batch is evaluated in order with all-or-nothing failure, which gives the same final state. Races between overlapping clicks are concurrency and are not modelled.
- JavaScript type coercion of the id. The search box passes its raw text, so after a search `currentPokemonId + 1` concatenates strings. The model uses integer ids throughout. A search input is `None` for an empty box and an integer otherwise.
- Search by name. The source fetches `/pokemon/<text>` and `/pokemon-species/<text>` with the text as typed, and the API also answers names, so a search for "pikachu" loads that record and sets `currentPokemonId` to the text. Afterwards previous does nothing (`NaN >= 1` is false) and next probes the concatenated text (`"pikachu1"`). The model cannot express a non-numeric search or this behaviour.
- Stat keys that name an inherited `Object.prototype` member (such as `constructor`). The source renders that member's text as the label. The model renders `undefined` for every key outside the table.
- The search handler's own `try`/`catch` (pokeapi/script.js:114-117). `updatePokemonData` catches every failure itself, so this code is never reached.
- `null` sprite fields in API records. Sprites are always strings here.
- The page's static markup before the first load. The regions start blank.
