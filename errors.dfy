/** The exception kinds the ingest code raises or lets propagate (ingest/errors.py and builtins). */
module Errors {

  datatype Error =
    | ParameterMissing(message: string)
    | UnknownDataConvertOperation(message: string)
    | UnKnownGeomType(message: string)
      // Python built-in exceptions
    | ValueError(message: string)
    | TypeError
    | AttributeError
    | KeyError(key: string)
    | IndexError
    | OverflowError
    | JsonDecodeError
    | FileNotFound(path: string)
    | CalledProcessError(command: string)
      // requests.exceptions.HTTPError, with the response's status code
    | HttpError(status: int)
      // any other failure of an external collaborator (raster libraries, cdsapi, disk)
    | ExternalFailure(what: string)

  /** `response.raise_for_status()` raises HTTPError for client and server error statuses. */
  predicate RaisesForStatus(status: int)
  {
    400 <= status < 600
  }
}
