# Recipe-to-technical-sheet backend, modelled in Dafny

The backend takes a recipe as a link, an uploaded photo or pasted text,
turns it into recipe text, asks a language model to return the recipe as a
JSON object, copies that object into the fixed cells of a spreadsheet
template ("ficha técnica") and returns the generated workbook. This project
models the decisions the `/api/processar-receita` handler takes between its
library and network calls:

- `SourceSelection` (source_selection.dfy): which input feeds the
  pipeline. A non-empty `link` wins, then an uploaded `imagem`, then a
  non-empty `texto`; otherwise the answer is 400 "Nenhuma receita fornecida".
- `JsonSpan` (json_span.dfy): the search `/\{[\s\S]*\}/` over the model's
  reply, stated against the regular-expression reading (leftmost start,
  greedy end) and proved to be "first `{` to last `}`".
- `Sheet` (sheet.dfy): the `Worksheet` class, whose cell map is updated in
  place, and `FillSheet`, whose loop writes B2, B3, one row per ingredient
  from row 5 (at most twelve), the price column G only when `preco` is not
  `null`, and E19. Lemmas about the specification function `Filled` give
  each written cell and the frame: every other template cell is unchanged.
- `FileName` (file_name.dfy): `"FT_" + name with [^a-zA-Z0-9] replaced by
  "_" + ".xlsx"`, over UTF-16 code units.
- `Handler` (handler.dfy): the handler as a method that sequences these
  steps. The link fetch, the two model calls, `JSON.parse`, the template
  load, the date and the file write are parameters (`Services`); the
  method returns the response and the list of outside calls it made.

`Js` (js.dfy) holds the JavaScript string and value types: strings are
sequences of UTF-16 code units, and `Null` and `Undefined` are distinct.
`Recipes` (recipe.dfy) holds the parsed recipe shape. `Wrappers`
(wrappers.dfy) holds `Option` and `Result`; `Failure(e)` stands for a thrown
error with message `e`.

Behaviour of the handler that a reader might not expect:

- The uploaded photo is deleted only after a successful answer. It is not
  deleted on a 400 or a 500 (backend/server.js:49, 66-69).
- An empty recipe name is not rejected. It gives the file name "FT_.xlsx".
- A request with both a link and text is not an error: the link is used.

## Model

| member | source | states |
|---|---|---|
| SourceSelection.SelectSource | backend/server.js:36-50 | link, then image, then text is chosen, each exactly under its condition; no source (absent or empty link and text, no file) iff the 400 branch; the chosen variant carries the field as received |
| SourceSelection.LinkOverridesImageAndText | backend/server.js:42-43 | with a non-empty link, any text and any upload give the link source |
| SourceSelection.ImageOverridesText | backend/server.js:44-45 | without a usable link, an upload is chosen whatever the text |
| SourceSelection.TextIsVerbatim | backend/server.js:46-47 | text mode passes `texto` unchanged, only when it is non-empty and there is neither link nor upload |
| JsonSpan.MatchBounds | backend/server.js:152-153 | no match iff no `{` has a `}` after it; otherwise the bounds are the leftmost, then longest, match of the pattern, at the first `{` and the last `}` of the reply |
| JsonSpan.ExtractJsonSpan | backend/server.js:152-157 | fails with "Claude não retornou JSON válido" iff there is no match; otherwise returns the reported match as a contiguous slice of the reply |
| JsonSpan.ReportedMatchIsUnique | backend/server.js:152 | the leftmost-longest match is unique, so the extracted span is determined |
| JsonSpan.SpanStartsAndEndsWithBraces | backend/server.js:152 | an extracted span has at least two units and opens with `{` and closes with `}` |
| JsonSpan.WrappedObjectIsExtracted | backend/server.js:151-157 | an object preceded by text without `{` and followed by text without `}` (prose, Markdown fences, line breaks) is extracted exactly |
| JsonSpan.TwoObjectsGiveOneSpan | backend/server.js:152 | with two objects in the reply the greedy match returns both and everything between them as one span |
| JsonSpan.ExampleFencedReply | backend/server.js:151-152 | a concrete fenced reply yields the object inside the fence |
| Sheet.IngredientLoopFrame | backend/server.js:175-185 | the ingredient loop leaves every cell it does not address as it was, including absent cells |
| Sheet.IngredientRowContents | backend/server.js:175-185 | ingredient i < 12 puts nome, qtdBruta, qtdLiquida in B, C, D of row 5+i, and preco in G unless it is null, in which case G keeps its value (undefined is written) |
| Sheet.IngredientsBeyondTwelveIgnored | backend/server.js:174-176 | ingredients from index 12 on change nothing: the result equals that of the first twelve |
| Sheet.WriteIngredient | backend/server.js:175-185 | one callback pass: from index 12 on nothing changes; before that row 5+idx gets nome, qtdBruta, qtdLiquida in B, C, D and preco in G unless it is null, and no other cell changes |
| Sheet.WriteIngredients | backend/server.js:175-185 | visiting the ingredients in order never removes a cell of the sheet |
| Sheet.Filled | backend/server.js:170-188 | after filling, B2 holds "Data de revisão: " + date, B3 "Preparo: " + name, E19 "FORMA DE PREPARO:\n\n" + preparation |
| Sheet.FilledIngredientRow | backend/server.js:174-185 | in the filled sheet, each of the first twelve ingredients occupies its row as above |
| Sheet.FilledFrame | backend/server.js:170-188 | a cell that is not B2, B3, E19 or an ingredient cell keeps its template value |
| Sheet.FilledChangesOnlyKnownCells | backend/server.js:170-188 | every changed cell is B2, B3, E19 or a B/C/D/G cell of rows 5 to 16, and the fixed cells lie outside rows 5 to 16 |
| Sheet.Worksheet.constructor | backend/server.js:165-167 | the worksheet starts with the template's cells |
| Sheet.Worksheet.SetCell | backend/server.js:171 | assigning a cell value changes that cell and no other |
| Sheet.FillSheet | backend/server.js:170-188 | the loop with early return at index 12 leaves exactly the cells `Filled` gives from the old ones |
| FileName.Sanitize | backend/server.js:191 | keeps the length, keeps each ASCII letter or digit and turns every other code unit into `_` |
| FileName.WorkbookFileName | backend/server.js:191 | the file name starts with "FT_", ends with ".xlsx" and is 8 units longer than the recipe name |
| FileName.WorkbookFileNameShape | backend/server.js:191 | between "FT_" and ".xlsx" the file name is the sanitised recipe name, so it holds only letters, digits and `_` |
| FileName.SanitizeFixedPoints | backend/server.js:191 | sanitising leaves a name unchanged iff it holds only letters, digits and `_` |
| FileName.SanitizeIdempotent | backend/server.js:191 | sanitising twice is sanitising once |
| FileName.ExampleBoloDeCenoura | backend/server.js:191 | "Bolo de Cenoura!" gives "FT_Bolo_de_Cenoura_.xlsx" |
| FileName.ExampleSurrogatePair | backend/server.js:191 | a character outside the BMP becomes two underscores |
| FileName.ExampleNamesCollide | backend/server.js:191-195 | two different recipe names can map to the same output file |
| Handler.LinkErrorMessage | backend/server.js:91 | the link error message contains the link verbatim at a fixed offset |
| Handler.FetchRecipe | backend/server.js:81-93 | the fetch yields the text of the response data, or fails with the fixed message exactly when the fetch fails |
| Handler.StructuringMessage | backend/server.js:133-145 | the prompt is the fixed instruction head, the recipe content unchanged, then the fixed JSON-shape tail |
| Handler.StructuringMessageEmbedsContent | backend/server.js:133-145 | distinct recipe contents give distinct prompts |
| Handler.ResolveContent | backend/server.js:42-47 | text yields itself, a link the fetch result, an upload the image transcription |
| Handler.StructureRecipe | backend/server.js:126-158 | a failed model call propagates its error; a reply without a span fails with the fixed message before parsing; a reply with a span gives exactly what parsing the span gives, success or error; success implies a reply with a span |
| Handler.GenerateSheet | backend/server.js:161-205 | a template load error propagates; otherwise the written cells are `Filled(template, date, recipe)` and the result is the derived file name with the stored content, or the store error |
| Handler.ProcessRecipe | backend/server.js:34-78 | 400 iff no source, with no outside call; otherwise the answer is 500 with "Erro ao processar receita" and the message of the first failing stage (fetch, transcription, model call, missing span, parse, template, store) as detalhes, or, when every stage succeeds, the success answer with the parsed name, warnings and stored file (and success implies every stage succeeded); first call follows the precedence; an unreachable link makes only the fetch call; the template is loaded iff parsing succeeded; the upload is deleted only after success |

## Left out

- HTTP plumbing: the Express app, CORS, the 50 MB body limit, static files, the multer configuration, the health endpoint and `listen` (backend/server.js:11-23, 207-216).
- The network and model calls (axios fetch, both Anthropic calls, including the model name, token limits and image instruction): their outcomes are parameters of `Services`. For the link, the parameter gives the text the template literal makes of `response.data`, which axios may already have parsed as JSON (an object then reads "[object Object]").
- The `console.error` logging of a failed request (backend/server.js:72).
- `JSON.parse`, the ExcelJS template load and write, `fs.mkdir`, `fs.readFile`, `fs.unlink` and base64 encoding: foreign library and filesystem calls, given as parameters or recorded as calls.
- The date `new Date().toLocaleDateString('pt-BR')` is a parameter (clock and locale).
- Cell addresses are `(column, row)` pairs rather than the strings `B${linha}`; template cells are modelled as `JsValue`s (formulas and styles are not represented).
- Request fields `texto` and `link` are absent or strings; non-string JSON values in the body are not modelled.
- The parsed reply is assumed to have string `nomeReceita` and `modoPreparo` and an `ingredientes` array; a reply of another shape, where the code would throw a TypeError or write "undefined", is not modelled.
- The model-call results do not distinguish a first content block that is not text.
- Concurrent requests writing the same output file, and the payload round trip through base64, are not modelled.
- The browser code (frontend/app.js) is not part of this model.
