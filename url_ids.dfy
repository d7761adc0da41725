/**
 Extraction of a resource's numeric id from its URL (`getIdFromUrl`) and the
 sprite address built from it.
 */
module UrlIds {
  import opened PokeApi

  /**
   JavaScript's `s.split(sep)` for a one-character separator: the pieces
   between separators, in order, always at least one (`"".split("/")` is
   `[""]`).
   */
  function Split(s: string, sep: char): (parts: seq<string>)
    ensures |parts| >= 1
    ensures |parts| == 1 <==> sep !in s
    ensures forall i :: 0 <= i < |parts| ==> sep !in parts[i]
    decreases |s|
  {
    if |s| == 0 then [""]
    else
      var rest := Split(s[1..], sep);
      assert s == [s[0]] + s[1..];
      if s[0] == sep then [""] + rest
      else [[s[0]] + rest[0]] + rest[1..]
  }

  /** `parts.join(sep)`: the inverse of `Split`. */
  function Join(parts: seq<string>, sep: char): string
  {
    if |parts| == 0 then ""
    else if |parts| == 1 then parts[0]
    else parts[0] + [sep] + Join(parts[1..], sep)
  }

  /** Splitting loses nothing: joining the pieces gives the string back. */
  lemma {:induction false} JoinSplit(s: string, sep: char)
    ensures Join(Split(s, sep), sep) == s
    decreases |s|
  {
    if |s| > 0 {
      var rest := Split(s[1..], sep);
      JoinSplit(s[1..], sep);
      if s[0] == sep {
        assert Split(s, sep) == [""] + rest;
        assert Join(Split(s, sep), sep) == "" + [sep] + Join(rest, sep);
      } else if |rest| == 1 {
        assert Split(s, sep) == [[s[0]] + rest[0]];
      } else {
        var parts := Split(s, sep);
        assert parts == [[s[0]] + rest[0]] + rest[1..];
        assert parts[1..] == rest[1..];
        assert Join(rest, sep) == rest[0] + [sep] + Join(rest[1..], sep);
        assert Join(parts, sep) == [s[0]] + rest[0] + [sep] + Join(rest[1..], sep);
      }
    }
  }

  /** A separator between `a` and `b` splits exactly there. */
  lemma {:induction false} SplitAround(a: string, b: string, sep: char)
    ensures Split(a + [sep] + b, sep) == Split(a, sep) + Split(b, sep)
    decreases |a|
  {
    var s := a + [sep] + b;
    if |a| == 0 {
      assert s == [sep] + b;
      assert s[1..] == b;
    } else {
      assert s[0] == a[0];
      assert s[1..] == a[1..] + [sep] + b;
      SplitAround(a[1..], b, sep);
    }
  }

  /** A string without the separator is one piece. */
  lemma SplitWithoutSeparator(n: string, sep: char)
    requires sep !in n
    ensures Split(n, sep) == [n]
  {
    var parts := Split(n, sep);
    JoinSplit(n, sep);
    assert |parts| == 1;
  }

  /**
   `getIdFromUrl`: the second-to-last `/`-separated segment of `url`. With
   fewer than two segments the source indexes past the front of the array and
   gets `undefined`, which is `None` here.
   */
  function IdFromUrl(url: string): (id: Option<string>)
    ensures id.Some? <==> '/' in url
    ensures id.Some? ==> '/' !in id.value
  {
    var parts := Split(url, '/');
    if |parts| >= 2 then Some(parts[|parts| - 2]) else None
  }

  /**
   A resource URL as the API writes it, `prefix/n/` with a trailing slash,
   yields `n`: `IdFromUrl("https://pokeapi.co/api/v2/pokemon-species/25/")`
   is `"25"`.
   */
  lemma IdOfResourceUrl(prefix: string, n: string)
    requires '/' !in n
    ensures IdFromUrl(prefix + "/" + n + "/") == Some(n)
  {
    var url := prefix + "/" + n + "/";
    assert url == prefix + ['/'] + (n + ['/'] + "");
    SplitAround(prefix, n + ['/'] + "", '/');
    SplitAround(n, "", '/');
    SplitWithoutSeparator(n, '/');
    assert Split("", '/') == [""];
    var parts := Split(url, '/');
    assert parts == Split(prefix, '/') + [n] + [""];
  }

  const SpriteBase := "https://raw.githubusercontent.com/PokeAPI/sprites/master/sprites/pokemon/"

  /**
   The evolution stage's image address. A missing id is rendered by the
   template literal as the text `undefined`.
   */
  function SpriteUrl(id: Option<string>): string
  {
    SpriteBase + (if id.Some? then id.value else "undefined") + ".png"
  }
}
