/** Value types exchanged between the client session store and the auth
    gateway: the user record, the error envelope, the outcome of one HTTP
    call and the transient notification ("toast") an action emits. */
module AuthTypes {

  datatype Option<+T> = None | Some(value: T)

  /** The authenticated user record as the client types it. */
  datatype User = User(
    id: string,
    email: string,
    fullName: string,
    profilePicture: string,
    createdAt: string,
    updatedAt: string)

  /** The error envelope the server sends on failure. */
  datatype ErrorSchema = ErrorSchema(
    status: int,
    errorType: string,
    message: string,
    stack: Option<string>)

  /** The decoded JSON body of a successful response: either `null`, or an
      object whose `user` field may be absent. */
  datatype Body = NullBody | Body(user: Option<User>)

  /** What one awaited HTTP call settles with: a body, or a rejection. */
  datatype Response = Ok(body: Body) | Err(error: ErrorSchema)

  /** A notification shown to the user; only the chosen text is modelled. */
  datatype Toast = ToastSuccess(text: string) | ToastError(text: string)

  /** The four actions that raise an in-flight flag; logout raises none. */
  datatype Action = CheckAuth | Signup | Login | UpdateProfile

  /** True when `data?.user` is truthy: the body is an object carrying a user. */
  predicate CarriesUser(r: Response)
  {
    r.Ok? && r.body.Body? && r.body.user.Some?
  }

  /** True when `data.user` can be read without throwing: the call resolved
      and its body is not `null`. */
  predicate Readable(r: Response)
  {
    r.Ok? && r.body.Body?
  }
}
