/** ApiKeyAuthenticationFailedContext: the context the OnAuthenticationFailed
    hook receives; it carries the exception that ended authentication and a
    result the hook may set. */
module FailedContexts {
  import opened Common
  import opened ResultContexts

  class AuthenticationFailedContext {
    /** The Exception property. */
    const exception: Exception
    const core: ResultContext

    constructor (exception: Exception)
      ensures this.exception == exception
      ensures fresh(core) && core.State() == ResultState(None, None)
    {
      this.exception := exception;
      core := new ResultContext(None);
    }

    /** Runs an OnAuthenticationFailed hook's calls on this context. */
    method Run(calls: seq<ResultCall>) returns (error: Option<Exception>)
      modifies core
      ensures Settled(core.State(), error) == RunResultCalls(old(core.State()), calls)
    {
      error := core.Run(calls);
    }
  }
}
