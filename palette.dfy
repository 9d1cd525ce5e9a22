/** The colour palette of the client: an insertion-ordered mapping from a
    colour name to an RGB triple, the default table, and the canonical form
    a caller's colour name is put in before it is looked up. */
module Palette {
  import opened Text
  import opened Wrappers

  /** An RGB triple. The client does not range-check triples it is given,
      so the components are unbounded here; `InByteRange` is the property
      the default table has. */
  datatype Rgb = Rgb(r: int, g: int, b: int)

  predicate InByteRange(c: Rgb)
  {
    0 <= c.r <= 255 && 0 <= c.g <= 255 && 0 <= c.b <= 255
  }

  /** A Python dict keeps at most one entry per key, in insertion order. */
  predicate UniqueKeys(entries: seq<(string, Rgb)>)
  {
    forall i, j :: 0 <= i < j < |entries| ==> entries[i].0 != entries[j].0
  }

  type ColorTable = entries: seq<(string, Rgb)> | UniqueKeys(entries) witness []

  /** `dict.keys()`, in insertion order. */
  function Keys(p: seq<(string, Rgb)>): (names: seq<string>)
    ensures |names| == |p|
    ensures forall i :: 0 <= i < |p| ==> names[i] == p[i].0
  {
    if p == [] then [] else [p[0].0] + Keys(p[1..])
  }

  /** `dict.get(name)`: the triple stored under `name`, or nothing. */
  function Lookup(p: ColorTable, name: string): (v: Option<Rgb>)
    ensures v.Some? <==> name in Keys(p)
    ensures v.Some? ==> (name, v.value) in p
  {
    if p == [] then None
    else if p[0].0 == name then Some(p[0].1)
    else Lookup(p[1..], name)
  }

  /** The name under which a caller's colour is looked up: lower-cased, then
      stripped of surrounding whitespace (core/esp32_led.py, `encender_led`). */
  function CanonicalName(color: string): (name: string)
    ensures name == [] || (!IsSpace(name[0]) && !IsSpace(name[|name| - 1]))
    ensures forall i :: 0 <= i < |name| ==> !IsUpper(name[i])
  {
    StripKeepsLower(Lower(color));
    Strip(Lower(color))
  }

  /** The default table, in its declaration order. */
  const DEFAULT_COLORS: ColorTable := [
    ("rojo", Rgb(255, 0, 0)),
    ("naranja", Rgb(255, 165, 0)),
    ("amarillo", Rgb(255, 255, 0)),
    ("verde", Rgb(0, 255, 0)),
    ("cian", Rgb(0, 255, 255)),
    ("azul", Rgb(0, 0, 255)),
    ("violeta", Rgb(128, 0, 128)),
    ("blanco", Rgb(255, 255, 255))
  ]

  /** A canonical name is its own canonical form, so a lookup of it is not
      changed by canonicalising again. */
  lemma CanonicalNameIdempotent(color: string)
    ensures CanonicalName(CanonicalName(color)) == CanonicalName(color)
  {
    var name := CanonicalName(color);
    LowerNoUpper(name);
    StripNoSurrounding(name);
  }

  /** A key without capitals or surrounding whitespace is its own canonical
      form, so some caller input finds it (the converse is `CanonicalName`'s
      own contract). */
  lemma CanonicalKeyReachable(key: string)
    requires key == [] || (!IsSpace(key[0]) && !IsSpace(key[|key| - 1]))
    requires forall i :: 0 <= i < |key| ==> !IsUpper(key[i])
    ensures CanonicalName(key) == key
  {
    LowerNoUpper(key);
    StripNoSurrounding(key);
  }

  predicate IsLowerWord(s: string)
  {
    forall j :: 0 <= j < |s| ==> 'a' <= s[j] <= 'z'
  }

  /** A word of small ASCII letters is canonical. */
  lemma LowercaseWordCanonical(key: string)
    requires IsLowerWord(key)
    ensures CanonicalName(key) == key
  {
    CanonicalKeyReachable(key);
  }

  /** The default table has the eight documented names in declaration order. */
  lemma DefaultColorsNames()
    ensures Keys(DEFAULT_COLORS)
            == ["rojo", "naranja", "amarillo", "verde", "cian", "azul", "violeta", "blanco"]
  {
    var names := Keys(DEFAULT_COLORS);
    assert |names| == 8;
    assert forall i :: 0 <= i < 8 ==> names[i] == DEFAULT_COLORS[i].0;
  }

  /** Every default name is a word of small letters. */
  lemma DefaultColorsLowerWords()
    ensures forall name :: name in Keys(DEFAULT_COLORS) ==> IsLowerWord(name)
  {
    DefaultColorsNames();
    assert IsLowerWord("rojo") by { }
    assert IsLowerWord("naranja") by { }
    assert IsLowerWord("amarillo") by { }
    assert IsLowerWord("verde") by { }
    assert IsLowerWord("cian") by { }
    assert IsLowerWord("azul") by { }
    assert IsLowerWord("violeta") by { }
    assert IsLowerWord("blanco") by { }
  }

  /** Every default name is its own canonical form. */
  lemma DefaultColorsCanonical()
    ensures forall name :: name in Keys(DEFAULT_COLORS) ==> CanonicalName(name) == name
  {
    DefaultColorsLowerWords();
    forall name | name in Keys(DEFAULT_COLORS) ensures CanonicalName(name) == name {
      LowercaseWordCanonical(name);
    }
  }

  /** The looked-up name ignores the case of the caller's colour and any
      whitespace around it: `pre + color + post`, with `pre` and `post` blank,
      is looked up under the same name as `color` in small letters. */
  lemma CanonicalIgnoresCaseAndSpacing(pre: string, color: string, post: string)
    requires AllSpace(pre) && AllSpace(post)
    ensures CanonicalName(pre + color + post) == CanonicalName(Lower(color))
    ensures CanonicalName(Lower(color)) == CanonicalName(color)
  {
    LowerAppend(pre + color, post);
    LowerAppend(pre, color);
    LowerAllSpace(pre);
    LowerAllSpace(post);
    StripSurrounding(pre, Lower(color), post);
    LowerNoUpper(Lower(color));
  }

  /** Each default colour is found whatever ASCII case the caller writes it
      in and whatever whitespace surrounds it. */
  lemma DefaultColorsFoundAnyCaseAndSpacing(pre: string, color: string, post: string)
    requires AllSpace(pre) && AllSpace(post)
    requires Lower(color) in Keys(DEFAULT_COLORS)
    ensures Lookup(DEFAULT_COLORS, CanonicalName(pre + color + post)) == Lookup(DEFAULT_COLORS, Lower(color))
    ensures Lookup(DEFAULT_COLORS, CanonicalName(pre + color + post)).Some?
  {
    CanonicalIgnoresCaseAndSpacing(pre, color, post);
    DefaultColorsCanonical();
  }

  /** Every default triple lies in 0..255. */
  lemma DefaultColorsInByteRange()
    ensures forall i :: 0 <= i < |DEFAULT_COLORS| ==> InByteRange(DEFAULT_COLORS[i].1)
  {
  }

  /** Upper case and surrounding spaces are dropped from " ROJO ". */
  lemma CanonicalRojo()
    ensures CanonicalName(" ROJO ") == "rojo"
  {
    assert Lower(" ROJO ") == " rojo ";
    StripRojo();
  }

  lemma StripRojo()
    ensures Strip(" rojo ") == "rojo"
  {
    assert LeadingSpaces(" rojo ") == 1;
  }

  /** "NotAColor" is canonicalised to "notacolor". */
  lemma CanonicalNotAColor()
    ensures CanonicalName("NotAColor") == "notacolor"
  {
    assert Lower("NotAColor") == "notacolor";
    StripNoSurrounding("notacolor");
  }

  /** Whatever case and surrounding whitespace the caller uses, "ROJO" finds red. */
  lemma LookupRojoExample()
    ensures Lookup(DEFAULT_COLORS, CanonicalName(" ROJO ")) == Some(Rgb(255, 0, 0))
  {
    CanonicalRojo();
  }

  /** An unknown name finds nothing in the default table. */
  lemma LookupMissExample()
    ensures Lookup(DEFAULT_COLORS, CanonicalName("NotAColor")) == None
  {
    CanonicalNotAColor();
    DefaultColorsNames();
  }
}
