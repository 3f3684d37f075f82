/** The exceptions the scripts raise or let through. */
module Exceptions {

  datatype Exception =
      /** Whatever the embedding client raised; `get_embedding` re-raises it unchanged. */
    | ServiceError(detail: string)
      /** `response.data[0]` on a reply that carries no embedding. */
    | IndexError
      /** `read_and_clean_webpage` on a path that does not exist; it carries the message. */
    | FileNotFoundError(message: string)
      /** Assigning `values` on a decoded line that is not a JSON object. */
    | TypeError
}
