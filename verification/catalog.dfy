/** The closed catalogue of chat models: two variants, each with a public
    (OpenAI-facing) identifier and an upstream identifier, and a parser for
    the public one. */
module Catalog {
  import opened Wrappers

  datatype ChatModel = DeepSeekV3 | DeepSeekR1

  /** The only way parsing a model name fails. */
  datatype CatalogError = InvalidModel

  /** The public identifiers, in no particular order. */
  const PublicIds: set<string> := {"deepseek-v3", "deepseek-r1"}

  /** `as_common_string`: the identifier clients send and see. */
  function PublicId(m: ChatModel): (id: string)
    ensures id in PublicIds
  {
    match m
    case DeepSeekV3 => "deepseek-v3"
    case DeepSeekR1 => "deepseek-r1"
  }

  /** `as_yuanbao_string`: the identifier the upstream expects in `chatModelId`. */
  function UpstreamId(m: ChatModel): (id: string)
    ensures id !in PublicIds
  {
    match m
    case DeepSeekV3 => "deep_seek_v3"
    case DeepSeekR1 => "deep_seek"
  }

  /** `from_str`: accepts exactly the public identifiers. */
  function Parse(s: string): (r: Result<ChatModel, CatalogError>)
    ensures r.Success? <==> s in PublicIds
    ensures r.Failure? ==> r.error == InvalidModel
    ensures r.Success? ==> PublicId(r.value) == s
  {
    if s == "deepseek-r1" then Success(DeepSeekR1)
    else if s == "deepseek-v3" then Success(DeepSeekV3)
    else Failure(InvalidModel)
  }

  /** Printing a model and parsing it back gives the model. */
  lemma ParsePublicIdRoundTrip(m: ChatModel)
    ensures Parse(PublicId(m)) == Success(m)
  {
  }

  /** Parsing then printing gives back the accepted string. */
  lemma PublicIdParseRoundTrip(s: string)
    requires Parse(s).Success?
    ensures PublicId(Parse(s).value) == s
  {
  }

  /** Distinct models have distinct identifiers on both sides. */
  lemma IdsInjective(m: ChatModel, n: ChatModel)
    requires m != n
    ensures PublicId(m) != PublicId(n)
    ensures UpstreamId(m) != UpstreamId(n)
  {
  }
}
