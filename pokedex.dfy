/**
 The viewer's state and its four triggers: loading a record
 (`updatePokemonData`, reached from the search button and at start-up), the
 next and previous buttons and the shiny toggle.

 The state is the current id, the shiny flag and what the eight display
 regions show. Each trigger is specified by a function from the old state to
 the new one; the class `Pokedex` performs the same steps in the source's own
 order, field by field, and is proved to end in the state the function names.

 Ids are integers here. In the source the search box passes its raw text, so
 after a search `currentPokemonId` holds a string: `currentPokemonId + 1` then
 concatenates (`"25" + 1` is `"251"`) while `currentPokemonId - 1` converts
 back to a number. The model does not follow that coercion.
 */
module Pokedex {
  import opened PokeApi
  import opened TextSelection
  import opened Evolution

  /** A type badge: the type's key (its CSS class) and its Spanish name. */
  datatype TypeBadge = TypeBadge(typeKey: string, name: string)

  /**
   What the eight display regions show: name, number label (`No {id}`, or
   blank), image, type badges, description, stat list, evolution strip and
   move list.
   */
  datatype View = View(
    name: string,
    number: Option<int>,
    image: string,
    types: seq<TypeBadge>,
    description: string,
    stats: seq<StatLine>,
    evolution: seq<EvolutionStage>,
    moves: seq<string>)

  /** `showNotFoundMessage`: the name region says so and every other region is blank. */
  const NotFoundView := View("Pokémon no encontrado", None, "", [], "", [], [], [])

  /** The regions before anything is loaded (the page's own markup is not part of this model). */
  const BlankView := View("", None, "", [], "", [], [], [])

  datatype AppState = AppState(currentId: int, isShiny: bool, view: View)

  /** The state the page script starts from: `currentPokemonId = 1`, `isShiny = false`. */
  const InitialState := AppState(1, false, BlankView)

  /** The badges for `types`, labelled by the names fetched for them. */
  function Badges(types: seq<NamedRef>, names: seq<string>): seq<TypeBadge>
    requires |names| == |types|
  {
    seq(|types|, i requires 0 <= i < |types| => TypeBadge(types[i].name, names[i]))
  }

  /** The two fetches `updatePokemonData` requires before it touches the state both succeed. */
  ghost predicate Committed(w: World, id: int)
  {
    id in w.pokemon && id in w.species
  }

  /**
   Every fetch the rest of the load makes for `p` and `sp` succeeds: each
   type's names and Spanish name, the evolution chain, and the names and
   Spanish name of each of the first four moves.
   */
  ghost predicate Renders(w: World, p: Pokemon, sp: Species)
  {
    (forall i :: 0 <= i < |p.types| ==> Resolves(w.typeNames, p.types[i])) &&
    sp.evolutionChainUrl in w.chains &&
    (forall i :: 0 <= i < Min(4, |p.moves|) ==> Resolves(w.moveNames, p.moves[i]))
  }

  /**
   What the regions show once the record `p` and its species `sp` are in hand,
   or a failure when a later fetch or a Spanish-name lookup fails.
   */
  function RenderRecord(w: World, p: Pokemon, sp: Species): (v: Option<View>)
    ensures v.Some? <==> Renders(w, p, sp)
    ensures v.Some? ==> v.value.name == p.name && v.value.number == Some(p.id) &&
                        v.value.image == p.sprites.frontDefault
    ensures v.Some? ==> |v.value.types| == |p.types|
    ensures v.Some? ==> forall i :: 0 <= i < |p.types| ==>
      v.value.types[i].typeKey == p.types[i].name &&
      IsFirstTextIn(w.typeNames[p.types[i].url], "es", v.value.types[i].name)
    ensures v.Some? ==> v.value.description == Description(sp.flavorTextEntries)
    ensures v.Some? ==> v.value.stats == StatLines(p.stats)
    ensures v.Some? ==> v.value.evolution == FirstBranchWalk(w.chains[sp.evolutionChainUrl])
    ensures v.Some? ==> |v.value.moves| == Min(4, |p.moves|)
    ensures v.Some? ==> forall i :: 0 <= i < |v.value.moves| ==>
      IsFirstTextIn(w.moveNames[p.moves[i].url], "es", v.value.moves[i])
  {
    var typeNames := SpanishNames(w.typeNames, p.types);
    var chain := Lookup(w.chains, sp.evolutionChainUrl);
    var first := FirstMoves(p.moves);
    var moveNames := SpanishNames(w.moveNames, first);
    if typeNames.None? || chain.None? || moveNames.None? then None
    else Some(View(p.name, Some(p.id), p.sprites.frontDefault, Badges(p.types, typeNames.value),
                   Description(sp.flavorTextEntries), StatLines(p.stats),
                   FirstBranchWalk(chain.value), moveNames.value))
  }

  /** The image region shows the sprite the flag selects for the current record. */
  ghost predicate ShowsFlaggedSprite(w: World, s: AppState)
  {
    s.currentId in w.pokemon &&
    s.view.image == (if s.isShiny then w.pokemon[s.currentId].sprites.frontShiny
                     else w.pokemon[s.currentId].sprites.frontDefault)
  }

  /**
   `updatePokemonData(id)`. A failure of either of the first two fetches
   leaves the id and the flag alone and clears the display. Once both succeed
   the id and the flag are set, before any further fetch, so a later failure
   clears the display but keeps the new id.
   */
  function LoadStep(w: World, s: AppState, id: int): (r: AppState)
    ensures (r.currentId == id && !r.isShiny) <==> Committed(w, id) || (s.currentId == id && !s.isShiny)
    ensures Committed(w, id) ==> r.currentId == id && !r.isShiny
    ensures !Committed(w, id) ==> r == s.(view := NotFoundView)
    ensures r.view != NotFoundView <==> Committed(w, id) && Renders(w, w.pokemon[id], w.species[id])
    ensures r.view != NotFoundView ==> Some(r.view) == RenderRecord(w, w.pokemon[id], w.species[id])
    ensures r.view != NotFoundView ==> ShowsFlaggedSprite(w, r)
  {
    match (Lookup(w.pokemon, id), Lookup(w.species, id))
    case (Some(p), Some(sp)) =>
      var v := RenderRecord(w, p, sp);
      AppState(id, false, if v.Some? then v.value else NotFoundView)
    case _ => s.(view := NotFoundView)
  }

  /** The probe of the next and previous buttons finds a record with a (non-empty) name. */
  ghost predicate ProbeFinds(w: World, id: int)
  {
    id in w.pokemon && w.pokemon[id].name != ""
  }

  /**
   The common part of the next and previous buttons: probe `target`; when it
   has a name, set the id to it first and then load it; otherwise clear the
   display.
   */
  function MoveTo(w: World, s: AppState, target: int): (r: AppState)
    ensures ProbeFinds(w, target) ==> r.currentId == target
    ensures !ProbeFinds(w, target) ==> r == s.(view := NotFoundView)
  {
    match Lookup(w.pokemon, target)
    case Some(p) =>
      if p.name != "" then LoadStep(w, s.(currentId := target), target)
      else s.(view := NotFoundView)
    case None => s.(view := NotFoundView)
  }

  /** The next button. */
  function NextStep(w: World, s: AppState): (r: AppState)
    ensures ProbeFinds(w, s.currentId + 1) ==> r.currentId == s.currentId + 1
    ensures !ProbeFinds(w, s.currentId + 1) ==> r == s.(view := NotFoundView)
  {
    MoveTo(w, s, s.currentId + 1)
  }

  /** The previous button: nothing at all happens when the id would drop below 1. */
  function PreviousStep(w: World, s: AppState): (r: AppState)
    ensures s.currentId - 1 < 1 ==> r == s
    ensures s.currentId - 1 >= 1 && ProbeFinds(w, s.currentId - 1) ==> r.currentId == s.currentId - 1
    ensures s.currentId - 1 >= 1 && !ProbeFinds(w, s.currentId - 1) ==> r == s.(view := NotFoundView)
  {
    var previousId := s.currentId - 1;
    if previousId >= 1 then MoveTo(w, s, previousId) else s
  }

  /**
   The shiny toggle: re-fetch the current record, flip the flag and show the
   sprite it selects; only the image region changes. A failed fetch changes
   nothing (the source only logs it).
   */
  function ToggleShinyStep(w: World, s: AppState): (r: AppState)
    ensures s.currentId !in w.pokemon ==> r == s
    ensures s.currentId in w.pokemon ==>
      r.currentId == s.currentId && r.isShiny == !s.isShiny && ShowsFlaggedSprite(w, r) &&
      r.view == s.view.(image := r.view.image)
  {
    match Lookup(w.pokemon, s.currentId)
    case None => s
    case Some(p) =>
      var shiny := !s.isShiny;
      s.(isShiny := shiny,
         view := s.view.(image := if shiny then p.sprites.frontShiny else p.sprites.frontDefault))
  }

  /**
   Next and previous set the id before they load, so they agree with a plain
   load of the new id exactly when its species record is there: otherwise the
   load leaves the id alone while the button has already moved it.
   */
  lemma MoveToVersusLoad(w: World, s: AppState, target: int)
    requires ProbeFinds(w, target) && s.currentId != target
    ensures MoveTo(w, s, target) == LoadStep(w, s, target) <==> target in w.species
    ensures target !in w.species ==>
      MoveTo(w, s, target) == s.(currentId := target, view := NotFoundView)
  {
  }

  /**
   When the probe and the species fetch succeed but a later fetch fails, the
   next button ends at the new id with the flag reset and the display cleared.
   */
  lemma NextAfterLaterFailure(w: World, s: AppState)
    requires ProbeFinds(w, s.currentId + 1) && s.currentId + 1 in w.species
    requires !Renders(w, w.pokemon[s.currentId + 1], w.species[s.currentId + 1])
    ensures NextStep(w, s) == AppState(s.currentId + 1, false, NotFoundView)
  {
  }

  /** Two successful toggles undo each other when the image already matches the flag. */
  lemma ToggleTwiceRestores(w: World, s: AppState)
    requires ShowsFlaggedSprite(w, s)
    ensures ToggleShinyStep(w, ToggleShinyStep(w, s)) == s
  {
  }

  /** After a complete load, toggling twice brings back the default sprite and the same state. */
  lemma LoadThenToggleTwice(w: World, s: AppState, id: int)
    requires LoadStep(w, s, id).view != NotFoundView
    ensures var t := ToggleShinyStep(w, LoadStep(w, s, id));
      t.isShiny && t.view.image == w.pokemon[id].sprites.frontShiny
    ensures ToggleShinyStep(w, ToggleShinyStep(w, LoadStep(w, s, id))) == LoadStep(w, s, id)
  {
  }

  /** The page script: its state, the display regions as fields, and the triggers. */
  class Pokedex {
    var currentId: int
    var isShiny: bool

    var name: string
    var number: Option<int>
    var image: string
    var types: seq<TypeBadge>
    var description: string
    var stats: seq<StatLine>
    var evolution: seq<EvolutionStage>
    var moves: seq<string>

    function State(): AppState
      reads this
    {
      AppState(currentId, isShiny, View(name, number, image, types, description, stats, evolution, moves))
    }

    /** The page script: the initial state, then `updatePokemonData(1)`. */
    constructor (w: World)
      ensures State() == LoadStep(w, InitialState, 1)
    {
      currentId, isShiny := 1, false;
      name, number, image, types := "", None, "", [];
      description, stats, evolution, moves := "", [], [], [];
      new;
      UpdatePokemonData(w, 1);
    }

    /** `showNotFoundMessage`: every region is reset; the id and the flag stay. */
    method ShowNotFoundMessage()
      modifies this
      ensures State() == old(State()).(view := NotFoundView)
    {
      name := "Pokémon no encontrado";
      number := None;
      image := "";
      types := [];
      description := "";
      stats := [];
      evolution := [];
      moves := [];
    }

    /** `updatePokemonData(id)`, each fetch a lookup in `w` and each failure caught by the reset. */
    method UpdatePokemonData(w: World, id: int)
      modifies this
      ensures State() == LoadStep(w, old(State()), id)
    {
      var pokemonData := Lookup(w.pokemon, id);
      if pokemonData.None? {
        ShowNotFoundMessage();
        return;
      }
      var speciesData := Lookup(w.species, id);
      if speciesData.None? {
        ShowNotFoundMessage();
        return;
      }
      currentId := id;
      isShiny := false;
      ShowRecord(w, pokemonData.value, speciesData.value);
    }

    /**
     The rest of `updatePokemonData` once both records are in hand: fill the
     regions in the source's order, fetching the type names, the evolution
     chain and the move names on the way; a failed fetch or a missing Spanish
     name resets the display.
     */
    method ShowRecord(w: World, p: Pokemon, sp: Species)
      modifies this
      ensures State() == old(State()).(view := var v := RenderRecord(w, p, sp);
                                              if v.Some? then v.value else NotFoundView)
    {
      ghost var render := RenderRecord(w, p, sp);
      name := p.name;
      number := Some(p.id);
      image := p.sprites.frontDefault;

      var typeNames := SpanishNames(w.typeNames, p.types);
      if typeNames.None? {
        ShowNotFoundMessage();
        return;
      }
      types := Badges(p.types, typeNames.value);

      description := Description(sp.flavorTextEntries);
      stats := StatLines(p.stats);

      var chain := Lookup(w.chains, sp.evolutionChainUrl);
      if chain.None? {
        ShowNotFoundMessage();
        return;
      }
      evolution := EvolutionChainImages(chain.value);

      var moveNames := SpanishNames(w.moveNames, FirstMoves(p.moves));
      if moveNames.None? {
        ShowNotFoundMessage();
        return;
      }
      moves := moveNames.value;
      assert render == Some(State().view);
    }

    /** The search button; `None` is an empty input box, which does nothing. */
    method Search(w: World, input: Option<int>)
      modifies this
      ensures State() == if input.Some? then LoadStep(w, old(State()), input.value) else old(State())
    {
      if input.Some? {
        UpdatePokemonData(w, input.value);
      }
    }

    /** The next button. */
    method Next(w: World)
      modifies this
      ensures State() == NextStep(w, old(State()))
    {
      var nextId := currentId + 1;
      var pokemonData := Lookup(w.pokemon, nextId);
      if pokemonData.None? {
        ShowNotFoundMessage();
        return;
      }
      if pokemonData.value.name != "" {
        currentId := nextId;
        UpdatePokemonData(w, currentId);
      } else {
        ShowNotFoundMessage();
      }
    }

    /** The previous button. */
    method Previous(w: World)
      modifies this
      ensures State() == PreviousStep(w, old(State()))
    {
      var previousId := currentId - 1;
      if previousId >= 1 {
        var pokemonData := Lookup(w.pokemon, previousId);
        if pokemonData.None? {
          ShowNotFoundMessage();
          return;
        }
        if pokemonData.value.name != "" {
          currentId := previousId;
          UpdatePokemonData(w, currentId);
        } else {
          ShowNotFoundMessage();
        }
      }
    }

    /** The shiny toggle. */
    method ToggleShiny(w: World)
      modifies this
      ensures State() == ToggleShinyStep(w, old(State()))
    {
      var pokemonData := Lookup(w.pokemon, currentId);
      if pokemonData.None? {
        return;
      }
      isShiny := !isShiny;
      image := if isShiny then pokemonData.value.sprites.frontShiny else pokemonData.value.sprites.frontDefault;
    }
  }
}
