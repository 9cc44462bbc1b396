/**
 * The structured recipe the language model is asked to return, as the
 * handler reads it after `JSON.parse`: `{ nomeReceita, ingredientes:
 * [{ nome, qtdBruta, qtdLiquida, preco }], modoPreparo, avisos }`.
 */
module Recipes {
  import opened Js

  /** One entry of `ingredientes`; each field is whatever JSON value (or `undefined`) the reply held. */
  datatype Ingredient = Ingredient(nome: JsValue, qtdBruta: JsValue, qtdLiquida: JsValue, preco: JsValue)

  /** The parsed reply. `avisos` is passed back to the caller untouched. */
  datatype Recipe = Recipe(
    nomeReceita: JsString,
    ingredientes: seq<Ingredient>,
    modoPreparo: JsString,
    avisos: JsValue)
}
