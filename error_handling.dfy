/** The older error handlers: the same shape as the newer ones, with
    messages that carry no status prefix and with no handling of
    constraint violations. */
module ErrorHandling {
  import opened HandlerChain
  import ErrorsControllers

  const PathNotFoundMsg := "path not found"
  const BadRequestMsg := "bad request"

  /** The route of last resort: any request no router matched. */
  function PathNotFound(): (r: Outcome)
    ensures r.Respond? && r.status == 404 && r.msg == PathNotFoundMsg
  {
    Respond(404, PathNotFoundMsg)
  }

  /** An error built upstream with both a status and a message is sent
      back as it is; anything else goes on down the chain untouched. */
  function CustomError(err: Err): (r: Outcome)
    ensures r.Respond? <==> TruthyStatus(err.status) && TruthyMsg(err.msg)
    ensures r.Respond? ==> r.status == err.status.value && r.msg == err.msg.value
    ensures r.Next? ==> r.err == err
  {
    if TruthyStatus(err.status) && TruthyMsg(err.msg) then
      Respond(err.status.value, err.msg.value)
    else
      Next(err)
  }

  /** A value the database could not read as the column's type is a bad
      request. */
  function BadRequest(err: Err): (r: Outcome)
    ensures r.Respond? <==> err.code == Some(InvalidTextRepresentation)
    ensures r.Respond? ==> r.status == 400 && r.msg == BadRequestMsg
    ensures r.Next? ==> r.err == err
  {
    if err.code == Some(InvalidTextRepresentation) then
      Respond(400, BadRequestMsg)
    else
      Next(err)
  }

  /** The older chain, in the order the handlers are tried. */
  const Chain: seq<Handler> := [CustomError, BadRequest]

  /** The newer not-found message is the older one behind a "404: " prefix. */
  lemma PathNotFoundPrefixed()
    ensures ErrorsControllers.PathNotFound().status == PathNotFound().status
    ensures ErrorsControllers.PathNotFound().msg == "404: " + PathNotFound().msg
  {
  }

  /** Both versions of customError treat every error alike. */
  lemma CustomErrorUnchanged(err: Err)
    ensures CustomError(err) == ErrorsControllers.CustomError(err)
  {
  }

  /** Both versions of badRequest answer the same errors with the same
      status; only the message gained its "400: " prefix. */
  lemma BadRequestPrefixed(err: Err)
    ensures BadRequest(err).Respond? <==> ErrorsControllers.BadRequest(err).Respond?
    ensures BadRequest(err).Respond? ==>
      ErrorsControllers.BadRequest(err) == Respond(400, "400: " + BadRequest(err).msg)
    ensures BadRequest(err).Next? ==> ErrorsControllers.BadRequest(err) == BadRequest(err)
  {
  }

  /** The older chain answers exactly the pre-classified errors and the
      invalid-text ones, and forwards everything else unchanged. */
  lemma ChainClassifies(err: Err)
    ensures Run(Chain, err) ==
      if TruthyStatus(err.status) && TruthyMsg(err.msg) then Respond(err.status.value, err.msg.value)
      else if err.code == Some(InvalidTextRepresentation) then Respond(400, BadRequestMsg)
      else Next(err)
  {
    assert AllTransparent(Chain) by {
      assert Transparent(CustomError);
      assert Transparent(BadRequest);
    }
    if Run(Chain, err).Respond? {
      ResponseHasFirstResponder(Chain, err);
    } else {
      RunForwardsUnchanged(Chain, err);
      assert Chain[0](err).Next? && Chain[1](err).Next?;
    }
  }

  /** Constraint violations the newer chain classifies fall through the
      older one: a missing comment author is forwarded, not answered. */
  lemma ForeignKeyNotClassified(err: Err)
    requires err == Err(None, None, Some(ForeignKeyViolation), Some(ErrorsControllers.CommentAuthorFk))
    ensures Run(Chain, err) == Next(err)
    ensures Run(ErrorsControllers.Chain, err) == Respond(422, ErrorsControllers.UnregisteredUserMsg)
  {
    ChainClassifies(err);
    ErrorsControllers.ClassifyByPriority(err);
  }
}
