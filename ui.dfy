/** What the client's screens show outside their own state. */
module Ui {
  import opened Wrappers

  /** One `Alert.alert(title, message)` pop-up. */
  datatype Alert = Alert(title: string, message: string)

  /** A context hook (`useAuth`, `useProjects`, `useTheme`): the value of the nearest provider, or
      the error thrown when the component is not inside one. */
  function UseContext<C>(context: Option<C>, hook: string, provider: string): (r: Result<C, string>)
    ensures r.Success? <==> context.Some?
    ensures context.Some? ==> r.value == context.value
    ensures context.None? ==> r.error == hook + " must be used within " + provider
  {
    match context
    case Some(c) => Success(c)
    case None => Failure(hook + " must be used within " + provider)
  }
}
