/**
 How the viewer picks the text it shows: the language preference for the
 description, the Spanish name of each type and move, the stat label table and
 the first four moves.
 */
module TextSelection {
  import opened PokeApi

  /** Some entry of `entries` is tagged `lang`. */
  ghost predicate HasLanguage(entries: seq<Localized>, lang: string)
  {
    exists i :: 0 <= i < |entries| && entries[i].language == lang
  }

  /** `t` is the text of the first entry of `entries` tagged `lang`. */
  ghost predicate IsFirstTextIn(entries: seq<Localized>, lang: string, t: string)
  {
    exists i :: 0 <= i < |entries| && entries[i].language == lang && entries[i].text == t &&
      forall j :: 0 <= j < i ==> entries[j].language != lang
  }

  /**
   The position `entries.find(e => e.language.name === lang)` stops at: the
   first entry tagged `lang`, or none when no entry is.
   */
  function FirstIndexOf(entries: seq<Localized>, lang: string): (r: Option<nat>)
    ensures r.Some? ==> r.value < |entries| && entries[r.value].language == lang &&
                        forall j :: 0 <= j < r.value ==> entries[j].language != lang
    ensures r.None? ==> forall j :: 0 <= j < |entries| ==> entries[j].language != lang
  {
    if |entries| == 0 then None
    else if entries[0].language == lang then Some(0)
    else match FirstIndexOf(entries[1..], lang)
      case None => None
      case Some(i) => Some(i + 1)
  }

  /** The text of the first entry tagged `lang`, if there is one. */
  function FirstText(entries: seq<Localized>, lang: string): (t: Option<string>)
    ensures t.Some? <==> HasLanguage(entries, lang)
    ensures t.Some? ==> IsFirstTextIn(entries, lang, t.value)
  {
    match FirstIndexOf(entries, lang)
    case None => None
    case Some(i) => Some(entries[i].text)
  }

  const NoDescription := "Descripción no disponible"

  /**
   The description shown: the first Spanish flavor text, else the first
   English one, else the fixed placeholder.
   */
  function Description(entries: seq<Localized>): (d: string)
    ensures HasLanguage(entries, "es") ==> IsFirstTextIn(entries, "es", d)
    ensures !HasLanguage(entries, "es") && HasLanguage(entries, "en") ==> IsFirstTextIn(entries, "en", d)
    ensures !HasLanguage(entries, "es") && !HasLanguage(entries, "en") ==> d == NoDescription
  {
    match FirstText(entries, "es")
    case Some(t) => t
    case None =>
      match FirstText(entries, "en")
      case Some(t) => t
      case None => NoDescription
  }

  /**
   A type's or move's Spanish name: `names.find(es).name`, which throws, and
   so fails, when there is no Spanish entry.
   */
  function SpanishName(names: seq<Localized>): Option<string>
  {
    FirstText(names, "es")
  }

  /** The fetch of `ref.url` succeeds and the record it yields has a Spanish name. */
  ghost predicate Resolves(resources: map<string, seq<Localized>>, ref: NamedRef)
  {
    ref.url in resources && HasLanguage(resources[ref.url], "es")
  }

  /**
   `Promise.all(refs.map(fetch, then take the Spanish name))`: all the names in
   the order of `refs`, or a failure when any one fetch or lookup fails.
   */
  function SpanishNames(resources: map<string, seq<Localized>>, refs: seq<NamedRef>): (r: Option<seq<string>>)
    ensures r.Some? <==> forall i :: 0 <= i < |refs| ==> Resolves(resources, refs[i])
    ensures r.Some? ==> |r.value| == |refs|
    ensures r.Some? ==> forall i :: 0 <= i < |refs| ==>
      IsFirstTextIn(resources[refs[i].url], "es", r.value[i])
  {
    if |refs| == 0 then Some([])
    else
      var head := match Lookup(resources, refs[0].url)
        case None => None
        case Some(names) => SpanishName(names);
      var tail := SpanishNames(resources, refs[1..]);
      assert forall i :: 1 <= i < |refs| ==> refs[i] == refs[1..][i - 1];
      if head.None? || tail.None? then None
      else Some([head.value] + tail.value)
  }

  /** `statTranslations`: the label shown for each of the six stat keys. */
  const StatTranslations: map<string, string> := map[
    "hp" := "PS",
    "attack" := "Ataque",
    "defense" := "Defensa",
    "special-attack" := "Ataque Especial",
    "special-defense" := "Defensa Especial",
    "speed" := "Velocidad"]

  /**
   `statTranslations[key]` as the template literal renders it: a key outside
   the table reads `undefined`. (Keys naming an inherited `Object.prototype`
   member, such as `constructor`, render that member in the source; this
   model does not follow that.)
   */
  function StatLabel(key: string): (shown: string)
    ensures key in StatTranslations ==> shown == StatTranslations[key]
    ensures shown == "undefined" <==> key !in StatTranslations
  {
    if key in StatTranslations then StatTranslations[key] else "undefined"
  }

  /** One line of the stat list: its label and `base_stat`. */
  datatype StatLine = StatLine(name: string, value: int)

  /**
   `stats.map(...)`: one line per stat, in the record's order, labelled through
   the table.
   */
  function StatLines(stats: seq<StatEntry>): (lines: seq<StatLine>)
    ensures |lines| == |stats|
    ensures forall i :: 0 <= i < |stats| ==>
      lines[i] == StatLine(StatLabel(stats[i].stat.name), stats[i].baseStat)
  {
    if |stats| == 0 then []
    else
      assert forall i :: 1 <= i < |stats| ==> stats[i] == stats[1..][i - 1];
      [StatLine(StatLabel(stats[0].stat.name), stats[0].baseStat)] + StatLines(stats[1..])
  }

  /** `moves.slice(0, 4)`. */
  function FirstMoves(moves: seq<NamedRef>): (r: seq<NamedRef>)
    ensures |r| == Min(4, |moves|)
    ensures forall i :: 0 <= i < |r| ==> r[i] == moves[i]
  {
    if |moves| <= 4 then moves else moves[..4]
  }
}
