/** The tokenizer (the tiktoken library) seen from the estimator: a model
    name selects an encoding, or none when the library has no encoding for
    that name, and an encoding turns text into a sequence of token ids.
    Both are parameters: the model says nothing about how text is split. */
module Tokenizer {
  import opened Wrappers

  /** `encoding.encode(text)`: the token ids of the text. */
  type Encoding = string -> seq<nat>

  /** `tiktoken.encoding_for_model(model)`: None when it raises. */
  type EncodingForModel = string -> Option<Encoding>

  datatype TokenizerError = UnsupportedModel(model: string)

  /** `count_tokens(text, model)`: the number of token ids the model's
      encoding produces for the text. */
  function CountTokens(encodingFor: EncodingForModel, text: string, model: string): (r: Result<nat, TokenizerError>)
    ensures r.Failure? <==> encodingFor(model).None?
    ensures r.Failure? ==> r.error == UnsupportedModel(model)
    ensures r.Success? ==> r.value == |encodingFor(model).value(text)|
  {
    match encodingFor(model)
    case None => Failure(UnsupportedModel(model))
    case Some(encoding) => Success(|encoding(text)|)
  }
}
