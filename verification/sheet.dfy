/**
 * Filling the "Planilha1" worksheet of the technical-sheet template
 * (`gerarFichaTecnica`). The worksheet is a map from cell address to
 * value that starts out as whatever the template holds; filling writes the
 * revision date into B2, the recipe name into B3, one row per ingredient
 * from row 5 (at most 12 rows, so rows 5 to 16) and the preparation text
 * into E19. Every other cell keeps its template value.
 */
module Sheet {
  import opened Js
  import opened Recipes

  /** A cell address: column letter and row number, so `('B', 5)` is cell B5. */
  type Address = (char, int)

  type Cells = map<Address, JsValue>

  /** The template has twelve ingredient rows; later ingredients are dropped. */
  const MaxIngredients: nat := 12
  const FirstIngredientRow: int := 5

  const RevisionCell: Address := ('B', 2)
  const NameCell: Address := ('B', 3)
  const MethodCell: Address := ('E', 19)

  function RevisionText(today: JsString): JsString {
    Bmp("Data de revisão: ") + today
  }

  function NameText(nomeReceita: JsString): JsString {
    Bmp("Preparo: ") + nomeReceita
  }

  function MethodText(modoPreparo: JsString): JsString {
    Bmp("FORMA DE PREPARO:\n\n") + modoPreparo
  }

  /** Cell `a` holds `v`. */
  predicate Holds(cells: Cells, a: Address, v: JsValue) {
    a in cells && cells[a] == v
  }

  /** Cell `a` is the same in both maps (present in both with one value, or in neither). */
  predicate SameCell(before: Cells, after: Cells, a: Address) {
    (a in before <==> a in after) && (a in before ==> before[a] == after[a])
  }

  /** The G (price) cell of an ingredient row is written unless the price is `null`. */
  predicate WritesPrice(ing: Ingredient) {
    !ing.preco.Null?
  }

  /** `a` is one of the cells the ingredient loop writes for `ings`. */
  predicate IsIngredientCell(ings: seq<Ingredient>, a: Address) {
    var idx := a.1 - FirstIngredientRow;
    && 0 <= idx < |ings|
    && idx < MaxIngredients
    && (a.0 == 'B' || a.0 == 'C' || a.0 == 'D' || (a.0 == 'G' && WritesPrice(ings[idx])))
  }

  /** `a` is one of the cells filling the sheet for `recipe` writes. */
  predicate IsWrittenCell(recipe: Recipe, a: Address) {
    a == RevisionCell || a == NameCell || a == MethodCell || IsIngredientCell(recipe.ingredientes, a)
  }

  /** `a` is one of the cells the `forEach` callback writes for the ingredient at index `idx`. */
  predicate IsRowCell(idx: nat, ing: Ingredient, a: Address) {
    && idx < MaxIngredients
    && a.1 == FirstIngredientRow + idx
    && (a.0 == 'B' || a.0 == 'C' || a.0 == 'D' || (a.0 == 'G' && WritesPrice(ing)))
  }

  /**
   * One pass of the `forEach` callback, for the ingredient at index `idx`:
   * from index 12 on it returns at once; before that it fills row `5 + idx`
   * and touches no other cell.
   */
  function WriteIngredient(cells: Cells, idx: nat, ing: Ingredient): (r: Cells)
    ensures idx >= MaxIngredients ==> r == cells
    ensures idx < MaxIngredients ==>
      var row := FirstIngredientRow + idx;
      && Holds(r, ('B', row), ing.nome)
      && Holds(r, ('C', row), ing.qtdBruta)
      && Holds(r, ('D', row), ing.qtdLiquida)
      && (WritesPrice(ing) ==> Holds(r, ('G', row), ing.preco))
    ensures forall a: Address :: !IsRowCell(idx, ing, a) ==> SameCell(cells, r, a)
  {
    if idx >= MaxIngredients then cells
    else
      var row := FirstIngredientRow + idx;
      var written := cells[('B', row) := ing.nome][('C', row) := ing.qtdBruta][('D', row) := ing.qtdLiquida];
      if WritesPrice(ing) then written[('G', row) := ing.preco] else written
  }

  /**
   * The cells after the `forEach` has visited every ingredient of `ings`,
   * in order. Assignments never remove a cell.
   */
  function WriteIngredients(cells: Cells, ings: seq<Ingredient>): (r: Cells)
    ensures cells.Keys <= r.Keys
    decreases |ings|
  {
    if ings == [] then cells
    else WriteIngredient(WriteIngredients(cells, ings[..|ings| - 1]), |ings| - 1, ings[|ings| - 1])
  }

  /**
   * The worksheet after `gerarFichaTecnica` has filled `template` for
   * `recipe` on date `today`: B2 holds the date line, B3 the name line and
   * E19 the preparation text.
   */
  function Filled(template: Cells, today: JsString, recipe: Recipe): (sheet: Cells)
    ensures Holds(sheet, RevisionCell, Str(RevisionText(today)))
    ensures Holds(sheet, NameCell, Str(NameText(recipe.nomeReceita)))
    ensures Holds(sheet, MethodCell, Str(MethodText(recipe.modoPreparo)))
  {
    var header := template[RevisionCell := Str(RevisionText(today))][NameCell := Str(NameText(recipe.nomeReceita))];
    IngredientLoopFrame(header, recipe.ingredientes, RevisionCell);
    IngredientLoopFrame(header, recipe.ingredientes, NameCell);
    WriteIngredients(header, recipe.ingredientes)[MethodCell := Str(MethodText(recipe.modoPreparo))]
  }

  /** Cells the ingredient loop does not address keep their template value. */
  lemma {:induction false} IngredientLoopFrame(cells: Cells, ings: seq<Ingredient>, a: Address)
    requires !IsIngredientCell(ings, a)
    ensures SameCell(cells, WriteIngredients(cells, ings), a)
    decreases |ings|
  {
    if ings != [] {
      var n := |ings| - 1;
      var prefix := ings[..n];
      assert !IsIngredientCell(prefix, a) by {
        var idx := a.1 - FirstIngredientRow;
        if 0 <= idx < n {
          assert prefix[idx] == ings[idx];
        }
      }
      IngredientLoopFrame(cells, prefix, a);
    }
  }

  /**
   * Ingredient `i` (for `i < 12`) lands in row `5 + i`: B gets `nome`, C
   * `qtdBruta`, D `qtdLiquida`; G gets `preco` unless it is `null`, and
   * otherwise keeps its template value.
   */
  lemma {:induction false} IngredientRowContents(cells: Cells, ings: seq<Ingredient>, i: nat)
    requires i < |ings| && i < MaxIngredients
    ensures var after := WriteIngredients(cells, ings);
      var row := FirstIngredientRow + i;
      && Holds(after, ('B', row), ings[i].nome)
      && Holds(after, ('C', row), ings[i].qtdBruta)
      && Holds(after, ('D', row), ings[i].qtdLiquida)
      && (WritesPrice(ings[i]) ==> Holds(after, ('G', row), ings[i].preco))
      && (!WritesPrice(ings[i]) ==> SameCell(cells, after, ('G', row)))
    decreases |ings|
  {
    var n := |ings| - 1;
    var prefix := ings[..n];
    var row := FirstIngredientRow + i;
    if i == n {
      if !WritesPrice(ings[i]) {
        IngredientLoopFrame(cells, prefix, ('G', row));
      }
    } else {
      assert prefix[i] == ings[i];
      IngredientRowContents(cells, prefix, i);
    }
  }

  /** Ingredients from index 12 on write nothing: only the first twelve matter. */
  lemma {:induction false} IngredientsBeyondTwelveIgnored(cells: Cells, ings: seq<Ingredient>)
    requires |ings| > MaxIngredients
    ensures WriteIngredients(cells, ings) == WriteIngredients(cells, ings[..MaxIngredients])
    decreases |ings|
  {
    var n := |ings| - 1;
    var prefix := ings[..n];
    assert prefix[..MaxIngredients] == ings[..MaxIngredients];
    if n > MaxIngredients {
      IngredientsBeyondTwelveIgnored(cells, prefix);
    }
  }

  /** Each of the first twelve ingredients fills its own row of the filled sheet. */
  lemma FilledIngredientRow(template: Cells, today: JsString, recipe: Recipe, i: nat)
    requires i < |recipe.ingredientes| && i < MaxIngredients
    ensures var sheet := Filled(template, today, recipe);
      var ing := recipe.ingredientes[i];
      var row := FirstIngredientRow + i;
      && Holds(sheet, ('B', row), ing.nome)
      && Holds(sheet, ('C', row), ing.qtdBruta)
      && Holds(sheet, ('D', row), ing.qtdLiquida)
      && (WritesPrice(ing) ==> Holds(sheet, ('G', row), ing.preco))
      && (!WritesPrice(ing) ==> SameCell(template, sheet, ('G', row)))
  {
    var header := template[RevisionCell := Str(RevisionText(today))][NameCell := Str(NameText(recipe.nomeReceita))];
    IngredientRowContents(header, recipe.ingredientes, i);
  }

  /** Filling changes no cell outside B2, B3, E19 and the ingredient cells. */
  lemma FilledFrame(template: Cells, today: JsString, recipe: Recipe, a: Address)
    requires !IsWrittenCell(recipe, a)
    ensures SameCell(template, Filled(template, today, recipe), a)
  {
    var header := template[RevisionCell := Str(RevisionText(today))][NameCell := Str(NameText(recipe.nomeReceita))];
    IngredientLoopFrame(header, recipe.ingredientes, a);
  }

  /**
   * Every cell that filling changes is B2, B3, E19, or a B, C, D or G cell
   * of rows 5 to 16; the fixed cells lie outside those rows.
   */
  lemma FilledChangesOnlyKnownCells(template: Cells, today: JsString, recipe: Recipe)
    ensures forall a: Address :: !SameCell(template, Filled(template, today, recipe), a) ==>
      || a in {RevisionCell, NameCell, MethodCell}
      || (a.0 in {'B', 'C', 'D', 'G'} && FirstIngredientRow <= a.1 < FirstIngredientRow + MaxIngredients)
    ensures forall a: Address :: a in {RevisionCell, NameCell, MethodCell} ==>
      !(FirstIngredientRow <= a.1 < FirstIngredientRow + MaxIngredients)
  {
    forall a: Address | !IsWrittenCell(recipe, a) {
      FilledFrame(template, today, recipe, a);
    }
  }

  /** The template's "Planilha1" worksheet, whose cells are updated in place. */
  class Worksheet {
    var cells: Cells

    /** The worksheet as loaded from the template file. */
    constructor (template: Cells)
      ensures cells == template
    {
      cells := template;
    }

    /** `worksheet.getCell(a).value = v`. */
    method SetCell(a: Address, v: JsValue)
      modifies this
      ensures cells == old(cells)[a := v]
    {
      cells := cells[a := v];
    }
  }

  /**
   * Fills `ws` for `recipe`: the two header cells, the ingredient rows (the
   * `forEach` callback returns early from index 12 on), then E19.
   */
  method FillSheet(ws: Worksheet, today: JsString, recipe: Recipe)
    modifies ws
    ensures ws.cells == Filled(old(ws.cells), today, recipe)
  {
    ghost var template := ws.cells;
    ws.SetCell(RevisionCell, Str(RevisionText(today)));
    ws.SetCell(NameCell, Str(NameText(recipe.nomeReceita)));
    ghost var header := ws.cells;
    var ings := recipe.ingredientes;
    var idx := 0;
    while idx < |ings|
      invariant 0 <= idx <= |ings|
      invariant ws.cells == WriteIngredients(header, ings[..idx])
    {
      var ing := ings[idx];
      assert ings[..idx + 1][..idx] == ings[..idx];
      if idx < MaxIngredients {
        var row := FirstIngredientRow + idx;
        ws.SetCell(('B', row), ing.nome);
        ws.SetCell(('C', row), ing.qtdBruta);
        ws.SetCell(('D', row), ing.qtdLiquida);
        if WritesPrice(ing) {
          ws.SetCell(('G', row), ing.preco);
        }
      }
      idx := idx + 1;
    }
    assert ings[..idx] == ings;
    ws.SetCell(MethodCell, Str(MethodText(recipe.modoPreparo)));
  }
}
