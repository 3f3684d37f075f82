/**
 * `get_embedding`: the guard against blank text and the single call to the embedding
 * service. The service is an oracle, a function from request to reply fixed when the client
 * is created; the client keeps a ghost log of the requests it was sent.
 */
module Embedding {
  import opened Wrappers
  import opened Text
  import opened Exceptions

  /** One component of an embedding. Floating point is not modelled: a component is its bits. */
  datatype Float = Float(bits: bv64)

  type Vector = seq<Float>

  const DefaultModel: string := "text-embedding-3-small"
  const DefaultDimensions: int := 1536

  /** `client.embeddings.create(input=..., model=..., dimensions=...)`. */
  datatype Request = Request(input: seq<string>, model: string, dimensions: int)

  /** The service answers with one embedding per input, or raises. */
  datatype Reply = Response(data: seq<Vector>) | Raised(error: Exception)

  class EmbeddingClient {
    const endpoint: Request -> Reply
    ghost var requests: seq<Request>

    constructor (endpoint: Request -> Reply)
      ensures this.endpoint == endpoint && requests == []
    {
      this.endpoint := endpoint;
      requests := [];
    }

    /** One call to the service. */
    method Create(request: Request) returns (reply: Reply)
      modifies this
      ensures requests == old(requests) + [request]
      ensures reply == endpoint(request)
    {
      requests := requests + [request];
      reply := endpoint(request);
    }
  }

  /** The requests `get_embedding(text)` sends: none for blank text, one otherwise. */
  function RequestsFor(text: string, model: string, dimensions: int): seq<Request> {
    if IsBlank(text) then [] else [Request([text], model, dimensions)]
  }

  /** What `get_embedding(text)` returns or raises, given the service. */
  function Embed(endpoint: Request -> Reply, text: string, model: string, dimensions: int)
    : Result<Vector, Exception>
  {
    if IsBlank(text) then Success([])
    else
      match endpoint(Request([text], model, dimensions))
      case Raised(e) => Failure(e)
      case Response(data) => if data == [] then Failure(IndexError) else Success(data[0])
  }

  /** `get_embedding`, as the source runs it. */
  method GetEmbedding(client: EmbeddingClient, text: string, model: string, dimensions: int)
    returns (r: Result<Vector, Exception>)
    modifies client
    ensures client.requests == old(client.requests) + RequestsFor(text, model, dimensions)
    ensures r == Embed(client.endpoint, text, model, dimensions)
  {
    if text == [] || Strip(text) == [] {
      return Success([]);
    }
    var reply := client.Create(Request([text], model, dimensions));
    match reply {
      case Raised(e) =>
        r := Failure(e);
      case Response(data) =>
        if data == [] {
          r := Failure(IndexError);
        } else {
          r := Success(data[0]);
        }
    }
  }

  /** `not text or not text.strip()` holds exactly for blank text. */
  lemma BlankTexts(text: string)
    ensures IsBlank(text) <==> text == [] || Strip(text) == []
  {
  }

  /** Blank text yields the empty vector without any call to the service. */
  lemma EmbedBlank(endpoint: Request -> Reply, text: string, model: string, dimensions: int)
    requires forall i :: 0 <= i < |text| ==> IsSpace(text[i])
    ensures Embed(endpoint, text, model, dimensions) == Success([])
    ensures RequestsFor(text, model, dimensions) == []
  {
  }

  /**
   * Text that is not blank is sent exactly once, alone, with the given model and
   * dimensions; the reply's first embedding is returned and every failure is passed on.
   */
  lemma EmbedNonBlank(endpoint: Request -> Reply, text: string, model: string, dimensions: int)
    requires exists i :: 0 <= i < |text| && !IsSpace(text[i])
    ensures RequestsFor(text, model, dimensions) == [Request([text], model, dimensions)]
    ensures var reply := endpoint(Request([text], model, dimensions));
      && (reply.Raised? ==> Embed(endpoint, text, model, dimensions) == Failure(reply.error))
      && (reply.Response? && reply.data != [] ==>
            Embed(endpoint, text, model, dimensions) == Success(reply.data[0]))
      && (reply.Response? && reply.data == [] ==>
            Embed(endpoint, text, model, dimensions) == Failure(IndexError))
  {
  }

  /** A failure, or a non-empty vector, always comes from a call that was made. */
  lemma EmbedOnlyAfterCall(endpoint: Request -> Reply, text: string, model: string, dimensions: int)
    ensures Embed(endpoint, text, model, dimensions).Failure? ==>
      |RequestsFor(text, model, dimensions)| == 1
    ensures (Embed(endpoint, text, model, dimensions).Success? &&
             Embed(endpoint, text, model, dimensions).value != []) ==>
      |RequestsFor(text, model, dimensions)| == 1
  {
  }
}
