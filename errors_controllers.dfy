/** The newer error handlers of the API: every message carries its HTTP
    status as a prefix ("404: ..."), and PostgreSQL constraint violations
    are told apart by SQLSTATE code and constraint name. */
module ErrorsControllers {
  import opened HandlerChain

  const PathNotFoundMsg := "404: path not found"
  const BadRequestMsg := "400: bad request"
  const ArticleMissingMsg := "404: article does not exist"
  const UnregisteredUserMsg := "422: username does not belong to a registered user"
  const RequiredDataMsg := "422: required data missing"

  /** Names of the foreign keys of the comments table. */
  const CommentArticleFk := "comments_article_id_fkey"
  const CommentAuthorFk := "comments_author_fkey"

  /** The SQLSTATE codes `badRequest` answers with 400. */
  const BadRequestCodes: seq<string> := [InvalidTextRepresentation]

  /** Status and message of the catch-all that closes the chain. */
  const InternalStatus := 500
  const InternalMsg := "500: internal server error"

  /** The route of last resort: any request no router matched. */
  function PathNotFound(): (r: Outcome)
    ensures r.Respond? && r.status == 404 && r.msg == PathNotFoundMsg
  {
    Respond(404, PathNotFoundMsg)
  }

  /** An error built upstream with both a status and a message is sent
      back as it is; anything else goes on down the chain untouched. */
  function CustomError(err: Err): (r: Outcome)
    ensures r.Respond? <==> TruthyStatus(err.status) && TruthyMsg(err.msg)
    ensures r.Respond? ==> r.status == err.status.value && r.msg == err.msg.value
    ensures r.Next? ==> r.err == err
  {
    if TruthyStatus(err.status) && TruthyMsg(err.msg) then
      Respond(err.status.value, err.msg.value)
    else
      Next(err)
  }

  /** A value the database could not read as the column's type (a
      non-numeric id, say) is a bad request. */
  function BadRequest(err: Err): (r: Outcome)
    ensures r.Respond? <==> err.code == Some(InvalidTextRepresentation)
    ensures r.Respond? ==> r.status == 400 && r.msg == BadRequestMsg
    ensures r.Next? ==> r.err == err
  {
    if err.code.Some? && err.code.value in BadRequestCodes then
      Respond(400, BadRequestMsg)
    else
      Next(err)
  }

  /** A foreign-key violation on the comments table is answered according
      to the key that failed: a missing article is 404, an unknown author
      422. Other violations, and other errors, are forwarded. */
  function ViolatesForeignKeyConstraint(err: Err): (r: Outcome)
    ensures (r == Respond(404, ArticleMissingMsg)) <==>
              err.code == Some(ForeignKeyViolation) && err.constraint == Some(CommentArticleFk)
    ensures (r == Respond(422, UnregisteredUserMsg)) <==>
              err.code == Some(ForeignKeyViolation) && err.constraint == Some(CommentAuthorFk)
    ensures r.Respond? ==> r == Respond(404, ArticleMissingMsg) || r == Respond(422, UnregisteredUserMsg)
    ensures r.Next? ==> r.err == err
  {
    if err.code == Some(ForeignKeyViolation) && err.constraint == Some(CommentArticleFk) then
      Respond(404, ArticleMissingMsg)
    else if err.code == Some(ForeignKeyViolation) && err.constraint == Some(CommentAuthorFk) then
      Respond(422, UnregisteredUserMsg)
    else
      Next(err)
  }

  /** A required column left null is 422. */
  function ViolatesNotNullConstraint(err: Err): (r: Outcome)
    ensures r.Respond? <==> err.code == Some(NotNullViolation)
    ensures r.Respond? ==> r.status == 422 && r.msg == RequiredDataMsg
    ensures r.Next? ==> r.err == err
  {
    if err.code == Some(NotNullViolation) then
      Respond(422, RequiredDataMsg)
    else
      Next(err)
  }

  /** Closes the chain: whatever no handler recognised becomes a 500. */
  function CatchAll(err: Err): (r: Outcome)
    ensures r.Respond? && r.status == InternalStatus
  {
    Respond(InternalStatus, InternalMsg)
  }

  /** The classifying handlers, in the order they are tried. */
  const Chain: seq<Handler> :=
    [CustomError, BadRequest, ViolatesForeignKeyConstraint, ViolatesNotNullConstraint]

  /** The classifying handlers followed by the catch-all. */
  const App: seq<Handler> := Chain + [CatchAll]

  /** The reference classification, written as one ordered match: a
      pre-classified error first, then the SQLSTATE signatures by priority. */
  function ByPriority(err: Err): (r: Outcome) {
    if TruthyStatus(err.status) && TruthyMsg(err.msg) then
      Respond(err.status.value, err.msg.value)
    else if err.code == Some(InvalidTextRepresentation) then
      Respond(400, BadRequestMsg)
    else if err.code == Some(ForeignKeyViolation) && err.constraint == Some(CommentArticleFk) then
      Respond(404, ArticleMissingMsg)
    else if err.code == Some(ForeignKeyViolation) && err.constraint == Some(CommentAuthorFk) then
      Respond(422, UnregisteredUserMsg)
    else if err.code == Some(NotNullViolation) then
      Respond(422, RequiredDataMsg)
    else
      Next(err)
  }

  /** No classifying handler alters the error it forwards. */
  lemma ChainTransparent()
    ensures AllTransparent(Chain)
  {
    assert Transparent(CustomError);
    assert Transparent(BadRequest);
    assert Transparent(ViolatesForeignKeyConstraint);
    assert Transparent(ViolatesNotNullConstraint);
  }

  /** The assembled chain classifies every error as the ordered match does. */
  lemma ClassifyByPriority(err: Err)
    ensures Run(Chain, err) == ByPriority(err)
  {
    ChainTransparent();
    if Run(Chain, err).Respond? {
      ResponseHasFirstResponder(Chain, err);
    } else {
      RunForwardsUnchanged(Chain, err);
      assert Chain[0](err).Next? && Chain[1](err).Next? && Chain[2](err).Next? && Chain[3](err).Next?;
    }
  }

  /** A pre-classified error wins over any SQLSTATE code it also carries. */
  lemma PreClassifiedWins(err: Err)
    requires TruthyStatus(err.status) && TruthyMsg(err.msg)
    ensures Run(App, err) == Respond(err.status.value, err.msg.value)
  {
    FirstResponderDecides(App, err, 0);
  }

  /** With the catch-all at the end every error gets a response, and the
      status is the error's own, one of the classified ones, or 500. */
  lemma AppAlwaysResponds(err: Err)
    ensures Run(App, err).Respond?
    ensures var s := Run(App, err).status;
      (TruthyStatus(err.status) && s == err.status.value) || s in {400, 404, 422, InternalStatus}
  {
    ChainTransparent();
    ClassifyByPriority(err);
    if Run(Chain, err).Respond? {
      ResponseHasFirstResponder(Chain, err);
      var k :| FirstResponder(Chain, err, k) && Run(Chain, err) == Chain[k](err);
      forall j | 0 <= j <= k ensures App[j] == Chain[j] { }
      assert FirstResponder(App, err, k);
      FirstResponderDecides(App, err, k);
    } else {
      RunForwardsUnchanged(Chain, err);
      forall j | 0 <= j < 4 ensures App[j](err) == Next(err) {
        assert App[j] == Chain[j];
      }
      assert FirstResponder(App, err, 4);
      FirstResponderDecides(App, err, 4);
    }
  }

  /** A record that is not a pre-classified error and carries no SQLSTATE
      code the handlers know reaches the catch-all. */
  lemma UnrecognisedReachesCatchAll(err: Err)
    requires !(TruthyStatus(err.status) && TruthyMsg(err.msg))
    requires err.code !in {Some(InvalidTextRepresentation), Some(ForeignKeyViolation), Some(NotNullViolation)}
    ensures Run(App, err) == Respond(InternalStatus, InternalMsg)
  {
    assert FirstResponder(App, err, 4);
    FirstResponderDecides(App, err, 4);
  }

  /** The same foreign-key code with a constraint the handler does not
      name is not answered by any classifying handler. */
  lemma OtherForeignKeyForwarded(err: Err)
    requires !(TruthyStatus(err.status) && TruthyMsg(err.msg))
    requires err.code == Some(ForeignKeyViolation)
    requires err.constraint !in {Some(CommentArticleFk), Some(CommentAuthorFk)}
    ensures Run(Chain, err) == Next(err)
  {
    ClassifyByPriority(err);
  }

  /** A missing article or a missing author on a new comment: the same
      SQLSTATE code, two different responses. */
  lemma ForeignKeyDisambiguated(article: Err, author: Err)
    requires article == Err(None, None, Some(ForeignKeyViolation), Some(CommentArticleFk))
    requires author == Err(None, None, Some(ForeignKeyViolation), Some(CommentAuthorFk))
    ensures Run(App, article) == Respond(404, ArticleMissingMsg)
    ensures Run(App, author) == Respond(422, UnregisteredUserMsg)
    ensures Run(App, article) != Run(App, author)
  {
    assert FirstResponder(App, article, 2);
    FirstResponderDecides(App, article, 2);
    assert FirstResponder(App, author, 2);
    FirstResponderDecides(App, author, 2);
  }

  /** A non-numeric id reaches the database and comes back as 400. */
  lemma InvalidIdIsBadRequest(err: Err)
    requires err == Err(None, None, Some(InvalidTextRepresentation), None)
    ensures Run(App, err) == Respond(400, BadRequestMsg)
  {
    assert FirstResponder(App, err, 1);
    FirstResponderDecides(App, err, 1);
  }

  /** A comment or vote posted without a required field is 422. */
  lemma MissingFieldIsUnprocessable(err: Err)
    requires err == Err(None, None, Some(NotNullViolation), None)
    ensures Run(App, err) == Respond(422, RequiredDataMsg)
  {
    assert FirstResponder(App, err, 3);
    FirstResponderDecides(App, err, 3);
  }

  /** The rejection a model raises for an unknown article id is answered
      with its own status and message. */
  lemma MissingArticleRejection(err: Err)
    requires err == Err(Some(404), Some(ArticleMissingMsg), None, None)
    ensures Run(App, err) == Respond(404, ArticleMissingMsg)
  {
    PreClassifiedWins(err);
  }
}
