/** The response that challenge and forbid handling write to, and the two
    contexts their hooks receive, ApiKeyHandleChallengeContext and
    ApiKeyHandleForbiddenContext, each with a flag that only Handled() sets. */
module ResponseContexts {

  /** The parts of an HTTP response that challenge and forbid handling touch. */
  datatype ResponseState = ResponseState(statusCode: int, headers: map<string, string>)

  /** What an OnHandleChallenge or OnHandleForbidden hook did: the response
      as it left it, and whether it called Handled(). */
  datatype HookReply = HookReply(response: ResponseState, callsHandled: bool)

  class Response {
    var statusCode: int
    var headers: map<string, string>

    constructor (st: ResponseState)
      ensures State() == st
    {
      statusCode := st.statusCode;
      headers := st.headers;
    }

    function State(): ResponseState
      reads this
    {
      ResponseState(statusCode, headers)
    }

    /** Takes over the writes a hook made to the response. */
    method Assign(st: ResponseState)
      modifies this
      ensures State() == st
    {
      statusCode := st.statusCode;
      headers := st.headers;
    }
  }

  class HandleChallengeContext {
    /** IsHandled; its setter is private and only Handled() writes it. */
    var isHandled: bool

    constructor ()
      ensures !isHandled
    {
      isHandled := false;
    }

    /** Handled(): marks the response as handled. */
    method Handled()
      modifies this
      ensures isHandled
    {
      isHandled := true;
    }
  }

  class HandleForbiddenContext {
    /** IsHandled; its setter is private and only Handled() writes it. */
    var isHandled: bool

    constructor ()
      ensures !isHandled
    {
      isHandled := false;
    }

    /** Handled(): marks the response as handled. */
    method Handled()
      modifies this
      ensures isHandled
    {
      isHandled := true;
    }
  }
}
