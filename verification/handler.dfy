/**
 * The `/api/processar-receita` handler: select the input, turn it into
 * recipe text, ask the language model to structure it, fill the template
 * and answer with the generated file.
 *
 * The outside world is a parameter (`Services`): the link fetch, the two
 * model calls, `JSON.parse`, the template load, the date and the file
 * write are given as their outcomes. Each thrown error becomes a 500
 * answer carrying the error's message. The handler also returns the list
 * of outside calls it made, in order.
 */
module Handler {
  import opened Wrappers
  import opened Js
  import opened Recipes
  import opened SourceSelection
  import opened JsonSpan
  import opened Sheet
  import opened FileName

  /** The outcomes of everything the handler asks of the outside world. */
  datatype Services = Services(
    fetchLink: JsString -> Option<JsString>,                 // axios.get(link): the text `${response.data}` gives, or None when it throws
    extractImageText: JsString -> Result<JsString, JsString>, // extrairTextoImagem(path): the model's transcription
    complete: JsString -> Result<JsString, JsString>,         // the structuring call: text of the reply's first block
    parseJson: JsString -> Result<Recipe, JsString>,          // JSON.parse of the extracted span
    template: Result<Cells, JsString>,                        // "Planilha1" of the template file, or the load error
    today: JsString,                                          // toLocaleDateString('pt-BR')
    saveWorkbook: (JsString, Cells) -> Result<JsString, JsString>) // write, read back, base64

  /** The outside calls, as recorded in the handler's trace. */
  datatype Call =
    | FetchLink(url: JsString)
    | ExtractImageText(path: JsString)
    | AskStructuring(message: JsString)
    | LoadTemplate
    | SaveWorkbook(name: JsString)
    | DeleteUpload(path: JsString)

  /** `{ nome, dados }`: the file name and its base64 content. */
  datatype GeneratedFile = GeneratedFile(nome: JsString, dados: JsString)

  datatype Response =
    | BadRequest(erro: JsString)                                        // status 400
    | ServerError(erro: JsString, detalhes: JsString)                   // status 500
    | Processed(nomeReceita: JsString, avisos: JsValue, arquivo: GeneratedFile) // sucesso: true

  function NoRecipeMessage(): JsString {
    Bmp("Nenhuma receita fornecida")
  }

  function ProcessingError(): JsString {
    Bmp("Erro ao processar receita")
  }

  const LinkErrorHead: JsString := Bmp("Não consegui acessar o link ")
  const LinkErrorTail: JsString := Bmp(". Por favor, copie e cole o conteúdo da receita.")

  /** The error `buscarReceitaDoLink` throws: it names the link and asks for the text to be pasted. */
  function LinkErrorMessage(link: JsString): (r: JsString)
    ensures |r| >= |LinkErrorHead| + |link|
    ensures r[|LinkErrorHead|..|LinkErrorHead| + |link|] == link
    ensures |r| == |LinkErrorHead| + |link| + |LinkErrorTail|
  {
    var r := LinkErrorHead + link + LinkErrorTail;
    assert r[|LinkErrorHead|..|LinkErrorHead| + |link|] == link;
    r
  }

  /** `buscarReceitaDoLink`: the text of the response data, or the fixed error whatever made the fetch fail. */
  function FetchRecipe(link: JsString, fetch: JsString -> Option<JsString>): (r: Result<JsString, JsString>)
    ensures r.Failure? <==> fetch(link).None?
    ensures r.Success? ==> r.value == fetch(link).value
    ensures r.Failure? ==> r.error == LinkErrorMessage(link)
  {
    match fetch(link)
    case None => Failure(LinkErrorMessage(link))
    case Some(body) => Success(body)
  }

  const PromptHead: JsString := Bmp("Processe esta receita e retorne em formato JSON estruturado:\n\n")
  const PromptTail: JsString := Bmp(
    "\n\nRetorne APENAS um objeto JSON válido com esta estrutura:\n"
    + "{\n"
    + "  \"nomeReceita\": \"nome da receita\",\n"
    + "  \"ingredientes\": [\n"
    + "    {\"nome\": \"ingrediente\", \"qtdBruta\": 100, \"qtdLiquida\": 100, \"preco\": null}\n"
    + "  ],\n"
    + "  \"modoPreparo\": \"texto completo do modo de preparo\",\n"
    + "  \"avisos\": [\"aviso1\", \"aviso2\"]\n"
    + "}")

  /**
   * The user message of the structuring call: the content sits unchanged
   * between the fixed instruction head and the fixed JSON-shape tail.
   */
  function StructuringMessage(content: JsString): (m: JsString)
    ensures |m| == |PromptHead| + |content| + |PromptTail|
    ensures m[..|PromptHead|] == PromptHead
    ensures m[|PromptHead|..|PromptHead| + |content|] == content
    ensures m[|PromptHead| + |content|..] == PromptTail
  {
    PromptHead + content + PromptTail
  }

  /** Distinct contents give distinct messages. */
  lemma StructuringMessageEmbedsContent(content: JsString, other: JsString)
    ensures StructuringMessage(content) == StructuringMessage(other) ==> content == other
  {
  }

  /** The recipe text each source yields: the fetched page, the image transcription, or `texto` itself. */
  function ResolveContent(source: Source, env: Services): (r: Result<JsString, JsString>)
    ensures source.Text? ==> r == Success(source.content)
    ensures source.Link? ==> r == FetchRecipe(source.url, env.fetchLink)
    ensures source.Image? ==> r == env.extractImageText(source.file.path)
  {
    match source
    case Link(url) => FetchRecipe(url, env.fetchLink)
    case Image(file) => env.extractImageText(file.path)
    case Text(content) => Success(content)
  }

  /**
   * `processarComClaude`: ask for the structure, cut the JSON span out of
   * the reply and parse it. A reply without a span fails with the fixed
   * "no JSON" message before any parsing.
   */
  function StructureRecipe(content: JsString, env: Services): (r: Result<Recipe, JsString>)
    ensures var reply := env.complete(StructuringMessage(content));
      && (reply.Failure? ==> r == Failure(reply.error))
      && (reply.Success? && !HasMatch(reply.value) ==> r == Failure(NoJsonMessage()))
      && (reply.Success? && HasMatch(reply.value) ==> r == env.parseJson(ExtractJsonSpan(reply.value).value))
  {
    match env.complete(StructuringMessage(content))
    case Failure(e) => Failure(e)
    case Success(reply) =>
      match ExtractJsonSpan(reply)
      case Failure(e) => Failure(e)
      case Success(span) => env.parseJson(span)
  }

  /**
   * `gerarFichaTecnica`: load the template, fill it, derive the file name
   * and store the workbook. `filled` is the worksheet as written, when the
   * template could be loaded.
   */
  method GenerateSheet(recipe: Recipe, env: Services) returns (file: Result<GeneratedFile, JsString>, filled: Option<Cells>)
    ensures env.template.Failure? ==> file == Failure(env.template.error) && filled.None?
    ensures env.template.Success? ==> filled == Some(Filled(env.template.value, env.today, recipe))
    ensures env.template.Success? ==>
      var name := WorkbookFileName(recipe.nomeReceita);
      var stored := env.saveWorkbook(name, filled.value);
      && (file.Success? <==> stored.Success?)
      && (file.Success? ==> file.value == GeneratedFile(name, stored.value))
      && (file.Failure? ==> file.error == stored.error)
  {
    if env.template.Failure? {
      return Failure(env.template.error), None;
    }
    var ws := new Worksheet(env.template.value);
    FillSheet(ws, env.today, recipe);
    filled := Some(ws.cells);
    var name := WorkbookFileName(recipe.nomeReceita);
    match env.saveWorkbook(name, ws.cells)
    case Failure(e) => file := Failure(e);
    case Success(data) => file := Success(GeneratedFile(name, data));
  }

  /** The handler, from request to response, with the outside calls it made. */
  method ProcessRecipe(req: RecipeRequest, env: Services) returns (resp: Response, calls: seq<Call>)
    // 400 exactly when no source is usable, and then nothing outside is called
    ensures resp.BadRequest? <==> SelectSource(req).None?
    ensures resp.BadRequest? ==> resp.erro == NoRecipeMessage() && calls == []
    ensures resp.ServerError? ==> resp.erro == ProcessingError()
    // every other request gets the answer of its first failing stage, or the success answer
    ensures var source := SelectSource(req);
      source.Some? ==>
      var content := ResolveContent(source.value, env);
      && (content.Failure? ==> resp == ServerError(ProcessingError(), content.error))
      && (content.Success? ==>
        var recipe := StructureRecipe(content.value, env);
        && (recipe.Failure? ==> resp == ServerError(ProcessingError(), recipe.error))
        && (recipe.Success? && env.template.Failure? ==> resp == ServerError(ProcessingError(), env.template.error))
        && (recipe.Success? && env.template.Success? ==>
          var name := WorkbookFileName(recipe.value.nomeReceita);
          var stored := env.saveWorkbook(name, Filled(env.template.value, env.today, recipe.value));
          && (stored.Failure? ==> resp == ServerError(ProcessingError(), stored.error))
          && (stored.Success? ==>
            resp == Processed(recipe.value.nomeReceita, recipe.value.avisos, GeneratedFile(name, stored.value)))))
    // the first outside call follows the source precedence
    ensures Truthy(req.link) ==> |calls| >= 1 && calls[0] == FetchLink(req.link.value)
    ensures !Truthy(req.link) && req.imagem.Some? ==>
      |calls| >= 1 && calls[0] == ExtractImageText(req.imagem.value.path)
    ensures !Truthy(req.link) && req.imagem.None? && Truthy(req.texto) ==>
      |calls| >= 1 && calls[0] == AskStructuring(StructuringMessage(req.texto.value))
    // an unreachable link stops the request with the fixed message
    ensures Truthy(req.link) && env.fetchLink(req.link.value).None? ==>
      resp == ServerError(ProcessingError(), LinkErrorMessage(req.link.value)) && calls == [FetchLink(req.link.value)]
    // the template is touched only once the model's answer has been parsed
    ensures LoadTemplate in calls <==>
      var source := SelectSource(req);
      && source.Some?
      && ResolveContent(source.value, env).Success?
      && StructureRecipe(ResolveContent(source.value, env).value, env).Success?
    // success: every stage succeeded, and the answer carries the parsed name, the warnings and the stored file
    ensures resp.Processed? ==>
      var source := SelectSource(req);
      && source.Some?
      && ResolveContent(source.value, env).Success?
      && var recipe := StructureRecipe(ResolveContent(source.value, env).value, env);
      && recipe.Success?
      && env.template.Success?
      && var name := WorkbookFileName(recipe.value.nomeReceita);
      && var stored := env.saveWorkbook(name, Filled(env.template.value, env.today, recipe.value));
      && stored.Success?
      && resp == Processed(recipe.value.nomeReceita, recipe.value.avisos, GeneratedFile(name, stored.value))
    // the upload is deleted only after a successful answer
    ensures forall c | c in calls && c.DeleteUpload? :: resp.Processed? && req.imagem == Some(UploadedFile(c.path))
    ensures resp.Processed? && req.imagem.Some? ==> calls[|calls| - 1] == DeleteUpload(req.imagem.value.path)
  {
    var source := SelectSource(req);
    if source.None? {
      return BadRequest(NoRecipeMessage()), [];
    }
    calls := match source.value
      case Link(url) => [FetchLink(url)]
      case Image(file) => [ExtractImageText(file.path)]
      case Text(_) => [];
    var content := ResolveContent(source.value, env);
    if content.Failure? {
      return ServerError(ProcessingError(), content.error), calls;
    }
    calls := calls + [AskStructuring(StructuringMessage(content.value))];
    var recipe := StructureRecipe(content.value, env);
    if recipe.Failure? {
      return ServerError(ProcessingError(), recipe.error), calls;
    }
    calls := calls + [LoadTemplate];
    var file, filled := GenerateSheet(recipe.value, env);
    if filled.Some? {
      calls := calls + [SaveWorkbook(WorkbookFileName(recipe.value.nomeReceita))];
    }
    if file.Failure? {
      return ServerError(ProcessingError(), file.error), calls;
    }
    resp := Processed(recipe.value.nomeReceita, recipe.value.avisos, file.value);
    if req.imagem.Some? {
      calls := calls + [DeleteUpload(req.imagem.value.path)];
    }
  }
}
