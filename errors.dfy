/**
 * The error taxonomy (`KvError`) and its conversion into a response.
 * The message texts are this model's choice: the error type's own file is
 * not part of this model. The tests rely only on the status codes and on
 * the not-found message containing "Not found".
 */
module Errors {
  import opened Pb

  datatype KvError =
    | NotFound(table: string, key: string)
    | InvalidCommand(msg: string)
    | ConvertError(msg: string)
    | StorageError(msg: string)
    | EncodeError(msg: string)
    | DecodeError(msg: string)
    | Internal(msg: string)

  /** NotFound maps to 404, InvalidCommand to 400, everything else to 500. */
  function ErrorStatus(e: KvError): nat {
    match e
    case NotFound(_, _) => 404
    case InvalidCommand(_) => 400
    case _ => 500
  }

  function ErrorText(e: KvError): string {
    match e
    case NotFound(t, k) => "Not found for table: " + t + ", key: " + k
    case InvalidCommand(m) => "Invalid command: " + m
    case ConvertError(m) => m
    case StorageError(m) => m
    case EncodeError(m) => m
    case DecodeError(m) => m
    case Internal(m) => m
  }

  /** `impl From<KvError> for CommandResponse`: an error response carries no values and no pairs. */
  function ErrorResponse(e: KvError): (r: CommandResponse)
    ensures e.NotFound? ==> r.status == 404
    ensures e.InvalidCommand? ==> r.status == 400
    ensures !e.NotFound? && !e.InvalidCommand? ==> r.status == 500
    ensures r.values == [] && r.pairs == []
  {
    CommandResponse(ErrorStatus(e), ErrorText(e), [], [])
  }

  /** What the not-found test asserts about the response: status 404, a message
      beginning with "Not found" and naming the key, nothing else in it. */
  lemma NotFoundResponse(t: string, k: string)
    ensures ErrorResponse(NotFound(t, k)).status == 404
    ensures "Not found" <= ErrorResponse(NotFound(t, k)).message
    ensures ErrorResponse(NotFound(t, k)).message[|ErrorResponse(NotFound(t, k)).message| - |k|..] == k
    ensures ErrorResponse(NotFound(t, k)).values == [] && ErrorResponse(NotFound(t, k)).pairs == []
  {
    var m := ErrorResponse(NotFound(t, k)).message;
    assert m == ("Not found" + " for table: " + t + ", key: ") + k;
  }

  /** Only a success response has status 200: every error has status 400, 404 or 500. */
  lemma ErrorIsNeverOk(e: KvError)
    ensures ErrorResponse(e).status != 200
    ensures ErrorResponse(e).status in {400, 404, 500}
  {
  }
}
