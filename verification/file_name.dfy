/**
 * The name of the generated workbook:
 * `FT_${nomeReceita.replace(/[^a-zA-Z0-9]/g, '_')}.xlsx`.
 * The pattern has no `u` flag, so it tests one UTF-16 code unit at a time:
 * a character outside the Basic Multilingual Plane becomes two underscores.
 */
module FileName {
  import opened Js

  const Underscore: CodeUnit := 0x5F

  /** The class `[a-zA-Z0-9]`. */
  predicate IsAsciiAlnum(u: CodeUnit) {
    (0x30 <= u <= 0x39) || (0x41 <= u <= 0x5A) || (0x61 <= u <= 0x7A)
  }

  /** A code unit that can appear in a sanitised name. */
  predicate IsSafe(u: CodeUnit) {
    IsAsciiAlnum(u) || u == Underscore
  }

  /** What the global `replace` puts in place of one code unit. */
  function SanitizeUnit(u: CodeUnit): CodeUnit {
    if IsAsciiAlnum(u) then u else Underscore
  }

  /** The global `replace`: each code unit is mapped on its own, in place. */
  function Sanitize(name: JsString): (r: JsString)
    ensures |r| == |name|
    ensures forall i | 0 <= i < |name| :: IsAsciiAlnum(name[i]) ==> r[i] == name[i]
    ensures forall i | 0 <= i < |name| :: !IsAsciiAlnum(name[i]) ==> r[i] == Underscore
  {
    seq(|name|, i requires 0 <= i < |name| => SanitizeUnit(name[i]))
  }

  const Prefix: JsString := Bmp("FT_")
  const Extension: JsString := Bmp(".xlsx")

  /**
   * `nomeArquivo` for a recipe called `nomeReceita`: it starts with "FT_",
   * ends with ".xlsx" and is 8 code units longer than the name.
   */
  function WorkbookFileName(nomeReceita: JsString): (r: JsString)
    ensures |r| == |nomeReceita| + 8
    ensures r[..3] == Prefix && r[|r| - 5..] == Extension
  {
    Prefix + Sanitize(nomeReceita) + Extension
  }

  /**
   * Between "FT_" and ".xlsx" the file name holds the sanitised recipe
   * name: one safe code unit per code unit of the name.
   */
  lemma WorkbookFileNameShape(nomeReceita: JsString)
    ensures var f := WorkbookFileName(nomeReceita);
      && f[3..|f| - 5] == Sanitize(nomeReceita)
      && forall i | 3 <= i < |f| - 5 :: IsSafe(f[i])
  {
  }

  /** A name is left as it is exactly when all its code units are already safe. */
  lemma SanitizeFixedPoints(name: JsString)
    ensures Sanitize(name) == name <==> forall i | 0 <= i < |name| :: IsSafe(name[i])
  {
  }

  /** Sanitising twice gives the same name as sanitising once. */
  lemma SanitizeIdempotent(name: JsString)
    ensures Sanitize(Sanitize(name)) == Sanitize(name)
  {
  }

  /** "Bolo de Cenoura!" is saved as "FT_Bolo_de_Cenoura_.xlsx". */
  lemma ExampleBoloDeCenoura()
    ensures WorkbookFileName(Bmp("Bolo de Cenoura!")) == Bmp("FT_Bolo_de_Cenoura_.xlsx")
  {
  }

  /** "Bolo 🍰" (the cake is the surrogate pair D83C DF70) gets two underscores for the cake. */
  lemma ExampleSurrogatePair()
    ensures WorkbookFileName(Bmp("Bolo ") + [0xD83C, 0xDF70]) == Bmp("FT_Bolo___.xlsx")
  {
  }

  /** Different recipe names can share a file: "Pão de queijo" and "P?o-de-queijo" collide. */
  lemma ExampleNamesCollide()
    ensures Bmp("Pão de queijo") != Bmp("P?o-de-queijo")
    ensures WorkbookFileName(Bmp("Pão de queijo")) == WorkbookFileName(Bmp("P?o-de-queijo"))
  {
    assert Bmp("Pão de queijo")[1] != Bmp("P?o-de-queijo")[1];
    var f := WorkbookFileName(Bmp("Pão de queijo"));
    var g := WorkbookFileName(Bmp("P?o-de-queijo"));
    forall i | 0 <= i < |f| ensures f[i] == g[i] {
    }
  }
}
