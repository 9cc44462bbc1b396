/**
 * Which input feeds the pipeline: the branch at the top of the
 * `/api/processar-receita` handler. A non-empty `link` wins, then an
 * uploaded `imagem`, then a non-empty `texto`; with none of them the
 * request is rejected with status 400.
 */
module SourceSelection {
  import opened Wrappers
  import opened Js

  /** A file stored by the upload middleware; the handler only uses its temporary path. */
  datatype UploadedFile = UploadedFile(path: JsString)

  /** The request fields the handler reads: `req.body.texto`, `req.body.link` and `req.file`. */
  datatype RecipeRequest = RecipeRequest(
    texto: Option<JsString>,
    link: Option<JsString>,
    imagem: Option<UploadedFile>)

  /** The chosen input, carrying exactly what the next step receives. */
  datatype Source =
    | Link(url: JsString)
    | Image(file: UploadedFile)
    | Text(content: JsString)

  /** JavaScript truthiness of a body field: an absent field and the empty string are falsy. */
  predicate Truthy(field: Option<JsString>) {
    field.Some? && field.value != []
  }

  /** `None` is the 400 branch; an uploaded file object is always truthy. */
  function SelectSource(req: RecipeRequest): (r: Option<Source>)
    ensures r.None? <==> !Truthy(req.link) && req.imagem.None? && !Truthy(req.texto)
    ensures (r.Some? && r.value.Link?) <==> Truthy(req.link)
    ensures (r.Some? && r.value.Image?) <==> !Truthy(req.link) && req.imagem.Some?
    ensures (r.Some? && r.value.Text?) <==> !Truthy(req.link) && req.imagem.None? && Truthy(req.texto)
    ensures r.Some? && r.value.Link? ==> r.value.url == req.link.value
    ensures r.Some? && r.value.Image? ==> r.value.file == req.imagem.value
    ensures r.Some? && r.value.Text? ==> r.value.content == req.texto.value
  {
    if Truthy(req.link) then Some(Link(req.link.value))
    else if req.imagem.Some? then Some(Image(req.imagem.value))
    else if Truthy(req.texto) then Some(Text(req.texto.value))
    else None
  }

  /** A non-empty link decides the source whatever else the request carries. */
  lemma LinkOverridesImageAndText(req: RecipeRequest, texto: Option<JsString>, imagem: Option<UploadedFile>)
    requires Truthy(req.link)
    ensures SelectSource(req.(texto := texto, imagem := imagem)) == Some(Link(req.link.value))
  {
  }

  /** Without a usable link, an upload decides the source whatever the text says. */
  lemma ImageOverridesText(req: RecipeRequest, texto: Option<JsString>)
    requires !Truthy(req.link) && req.imagem.Some?
    ensures SelectSource(req.(texto := texto)) == Some(Image(req.imagem.value))
  {
  }

  /** Text mode hands over `texto` verbatim, and happens only when nothing outranks it. */
  lemma TextIsVerbatim(req: RecipeRequest, t: JsString)
    requires SelectSource(req) == Some(Text(t))
    ensures req.texto == Some(t) && t != []
    ensures !Truthy(req.link) && req.imagem.None?
  {
  }
}
