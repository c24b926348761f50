/**
 * The font registry of fonts/cache.go: a map from font name to parsed
 * TrueType font, filled once at start-up with the "regular" and "bold" faces
 * and consulted by name.
 */
module FontCache {

  /**
   * `draw2d.FontData`. Only `name` takes part in registry lookups; the family
   * and style ride along unread.
   */
  datatype FontData = FontData(name: string, family: int, style: int)

  /** The two results of `Load`: the stored font, or the "not stored" error naming the font. */
  datatype LoadResult<F> = Loaded(font: F) | NotStored(name: string)

  /** What `Load` answers for a registry holding `fonts`. */
  function Lookup<F>(fonts: map<string, F>, name: string): (r: LoadResult<F>)
    ensures r.Loaded? <==> name in fonts
    ensures r.Loaded? ==> r.font == fonts[name]
    ensures r.NotStored? ==> r.name == name
  {
    if name in fonts then Loaded(fonts[name]) else NotStored(name)
  }

  /** `MyFontCache`, a map keyed by font name and updated in place. */
  class MyFontCache<F> {
    var fonts: map<string, F>

    constructor ()
      ensures fonts == map[]
    {
      fonts := map[];
    }

    /** `Store`: (re)binds the font data's name to `font`; nothing else changes. */
    method Store(fd: FontData, font: F)
      modifies this
      ensures fonts == old(fonts)[fd.name := font]
    {
      fonts := fonts[fd.name := font];
    }

    /** `Load`: the font stored under the name, or an error when there is none. */
    method Load(fd: FontData) returns (r: LoadResult<F>)
      ensures r == Lookup(fonts, fd.name)
      ensures r.Loaded? <==> fd.name in fonts
      ensures r.NotStored? ==> r.name == fd.name
    {
      if fd.name !in fonts {
        return NotStored(fd.name);
      }
      return Loaded(fonts[fd.name]);
    }
  }

  /**
   * `init`: stores the two bundled faces under "regular" and "bold". Go visits
   * the `TTFs` map in an unspecified order, so the order is a parameter; the
   * resulting registry is the same either way.
   */
  method InitFontCache<F>(regular: F, bold: F, regularFirst: bool) returns (fc: MyFontCache<F>)
    ensures fresh(fc)
    ensures fc.fonts.Keys == {"regular", "bold"}
    ensures fc.fonts["regular"] == regular && fc.fonts["bold"] == bold
  {
    fc := new MyFontCache();
    var ttfs := if regularFirst then [("regular", regular), ("bold", bold)]
                else [("bold", bold), ("regular", regular)];
    var i := 0;
    while i < |ttfs|
      invariant 0 <= i <= |ttfs|
      invariant fc.fonts.Keys == set j | 0 <= j < i :: ttfs[j].0
      invariant forall j :: 0 <= j < i ==> fc.fonts[ttfs[j].0] == ttfs[j].1
    {
      var (fontName, font) := ttfs[i];
      fc.Store(FontData(fontName, 0, 0), font);
      i := i + 1;
    }
    assert ttfs[0].0 in fc.fonts.Keys && ttfs[1].0 in fc.fonts.Keys;
  }

  /** A font stored under a name is what any later load of that name returns, whatever the other fields. */
  lemma StoreThenLoad<F>(fonts: map<string, F>, stored: FontData, loaded: FontData, font: F)
    requires loaded.name == stored.name
    ensures Lookup(fonts[stored.name := font], loaded.name) == Loaded(font)
  {
  }

  /** Storing leaves every other name's answer as it was. */
  lemma StoreKeepsOthers<F>(fonts: map<string, F>, stored: FontData, font: F, name: string)
    requires name != stored.name
    ensures Lookup(fonts[stored.name := font], name) == Lookup(fonts, name)
  {
  }

  /** Storing twice under one name keeps the last font. */
  lemma StoreLastWins<F>(fonts: map<string, F>, first: FontData, second: FontData, f1: F, f2: F)
    requires first.name == second.name
    ensures fonts[first.name := f1][second.name := f2] == fonts[second.name := f2]
  {
  }

  /** After `init`, "regular" and "bold" load and any other name is an error. */
  lemma InitLoads<F>(regular: F, bold: F, name: string)
    ensures var fonts := map["regular" := regular, "bold" := bold];
      && Lookup(fonts, "regular") == Loaded(regular)
      && Lookup(fonts, "bold") == Loaded(bold)
      && (name != "regular" && name != "bold" ==> Lookup(fonts, name) == NotStored(name))
  {
  }
}
