/** The part of the Connect RPC library the handlers use: status codes, and the error a handler
    returns (`connect.NewError(code, err)`), whose message is either the business error itself
    or a fixed text. */
module Rpc {
  import opened Errors

  /** The `connect.Code` values the core returns. */
  datatype Code =
    | CodeNotFound
    | CodeAlreadyExists
    | CodePermissionDenied
    | CodeInvalidArgument
    | CodeInternal
    | CodeUnauthenticated

  /** What the error carries: the business error it wraps, a new error with a fixed text, or
      the package's constant `OnlyAdminCanManageTypeTemplate4ServiceNames`, whose text is
      declared in a file that is not part of this model. */
  datatype Detail = Cause(err: Error) | Message(text: string) | OnlyAdminCanManageTypes

  datatype RpcError = RpcError(code: Code, detail: Detail)
}
