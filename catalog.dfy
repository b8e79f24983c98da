/**
 * The fetcher's static configuration: the numbered menu of nebulae
 * (`CATALOGO_NEBULOSAS`), the popular-name to catalogue-identifier table
 * (`MAPEAMENTO_SIMBAD`) and name resolution through it.
 */
module Catalog {

  /** The ten numbered entries of the interactive menu. */
  const Nebulae: map<int, string> := map[
    1 := "Helix Nebula",
    2 := "Cat's Eye Nebula",
    3 := "Ring Nebula",
    4 := "Dumbbell Nebula",
    5 := "Eskimo Nebula",
    6 := "Saturn Nebula",
    7 := "NGC 7027",
    8 := "NGC 6543",
    9 := "IC 418",
    10 := "NGC 3242"
  ]

  /** Popular names and the NGC identifiers the catalogue services know them by. */
  const SimbadNames: map<string, string> := map[
    "Cat's Eye Nebula" := "NGC 6543",
    "Ring Nebula" := "NGC 6720",
    "Eskimo Nebula" := "NGC 2392",
    "Helix Nebula" := "NGC 7293",
    "Dumbbell Nebula" := "NGC 6853",
    "Saturn Nebula" := "NGC 7009"
  ]

  /** `MAPEAMENTO_SIMBAD.get(name, name)`: a mapped name gives its NGC
      identifier, any other name is used unchanged; either way the result is
      not itself a popular name of the table. */
  function ResolveName(name: string): (id: string)
    ensures name in SimbadNames ==> "NGC " <= id && id != name
    ensures name !in SimbadNames ==> id == name
    ensures id !in SimbadNames
  {
    if name in SimbadNames then SimbadNames[name] else name
  }

  /** Resolving an identifier a second time changes nothing. */
  lemma ResolveIdempotent(name: string)
    ensures ResolveName(ResolveName(name)) == ResolveName(name)
  {
  }

  /** The six popular names and their identifiers. */
  lemma ResolveTable()
    ensures ResolveName("Cat's Eye Nebula") == "NGC 6543"
    ensures ResolveName("Ring Nebula") == "NGC 6720"
    ensures ResolveName("Eskimo Nebula") == "NGC 2392"
    ensures ResolveName("Helix Nebula") == "NGC 7293"
    ensures ResolveName("Dumbbell Nebula") == "NGC 6853"
    ensures ResolveName("Saturn Nebula") == "NGC 7009"
  {
  }

  /** Every popular name of the table is also a menu entry. */
  lemma MappedNamesAreOnMenu()
    ensures forall name :: name in SimbadNames ==> name in Nebulae.Values
  {
    assert Nebulae[1] == "Helix Nebula" && Nebulae[2] == "Cat's Eye Nebula";
    assert Nebulae[3] == "Ring Nebula" && Nebulae[4] == "Dumbbell Nebula";
    assert Nebulae[5] == "Eskimo Nebula" && Nebulae[6] == "Saturn Nebula";
  }
}
