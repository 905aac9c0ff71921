/** Express-style error middleware, reduced to values.

    An error handler receives the error record that an earlier stage passed
    to `next(err)`. It either answers the request (`res.status(s).send({msg})`)
    or hands an error on to the next handler (`next(err)`). A chain of such
    handlers is tried in order, and the first one that answers decides the
    response.
 */
module HandlerChain {

  datatype Option<T> = None | Some(value: T)

  /** SQLSTATE codes of the PostgreSQL error classes the handlers recognise
      (Appendix A, "PostgreSQL Error Codes", of the PostgreSQL manual). */
  const InvalidTextRepresentation := "22P02"
  const ForeignKeyViolation := "23503"
  const NotNullViolation := "23502"

  /** The error record a rejected promise carries: an application error
      built upstream has `status` and `msg`; an error raised by the
      PostgreSQL driver has a SQLSTATE `code` and, for constraint
      violations, the name of the violated `constraint`. Any field may be
      missing. */
  datatype Err = Err(
    status: Option<int>,
    msg: Option<string>,
    code: Option<string>,
    constraint: Option<string>)

  /** What one handler does with an error. */
  datatype Outcome = Respond(status: int, msg: string) | Next(err: Err)

  type Handler = Err -> Outcome

  /** JavaScript truthiness of a numeric field: present and not 0. */
  predicate TruthyStatus(s: Option<int>) {
    s.Some? && s.value != 0
  }

  /** JavaScript truthiness of a string field: present and not "". */
  predicate TruthyMsg(m: Option<string>) {
    m.Some? && m.value != ""
  }

  /** A handler is transparent when whatever it forwards is the very error
      it was given. */
  ghost predicate Transparent(h: Handler) {
    forall e :: h(e).Next? ==> h(e).err == e
  }

  ghost predicate AllTransparent(chain: seq<Handler>) {
    forall j :: 0 <= j < |chain| ==> Transparent(chain[j])
  }

  /** Run the handlers in order, each on what the previous one forwarded.
      An error that falls off the end is still `Next`: it reaches whatever
      the framework puts after the chain. */
  function Run(chain: seq<Handler>, err: Err): (r: Outcome)
    decreases |chain|
  {
    if chain == [] then Next(err)
    else
      match chain[0](err)
      case Respond(s, m) => Respond(s, m)
      case Next(e) => Run(chain[1..], e)
  }

  /** Handler `k` is the first one in `chain` to answer `err`: every handler
      before it forwards `err` itself, and handler `k` responds. */
  ghost predicate FirstResponder(chain: seq<Handler>, err: Err, k: int) {
    0 <= k < |chain|
    && (forall j :: 0 <= j < k ==> chain[j](err) == Next(err))
    && chain[k](err).Respond?
  }

  /** The first handler to respond fixes the outcome of the whole chain;
      nothing after it is consulted. */
  lemma {:induction false} FirstResponderDecides(chain: seq<Handler>, err: Err, k: int)
    requires FirstResponder(chain, err, k)
    ensures Run(chain, err) == chain[k](err)
  {
    if k > 0 {
      assert chain[0](err) == Next(err);
      assert FirstResponder(chain[1..], err, k - 1) by {
        forall j | 0 <= j < k - 1 ensures chain[1..][j](err) == Next(err) {
          assert chain[1..][j] == chain[j + 1];
        }
        assert chain[1..][k - 1] == chain[k];
      }
      FirstResponderDecides(chain[1..], err, k - 1);
      assert chain[1..][k - 1] == chain[k];
    }
  }

  /** In a chain of transparent handlers an error is forwarded past the end
      exactly when no handler responds to it, and it is then forwarded
      unchanged. */
  lemma {:induction false} RunForwardsUnchanged(chain: seq<Handler>, err: Err)
    requires AllTransparent(chain)
    ensures Run(chain, err).Next? <==> (forall j :: 0 <= j < |chain| ==> chain[j](err).Next?)
    ensures Run(chain, err).Next? ==> Run(chain, err) == Next(err)
  {
    if chain != [] {
      assert Transparent(chain[0]);
      assert AllTransparent(chain[1..]) by {
        forall j | 0 <= j < |chain| - 1 ensures Transparent(chain[1..][j]) {
          assert chain[1..][j] == chain[j + 1];
        }
      }
      RunForwardsUnchanged(chain[1..], err);
      if chain[0](err).Next? {
        assert chain[0](err) == Next(err);
        forall j | 0 <= j < |chain| - 1 ensures chain[1..][j] == chain[j + 1] { }
      }
    }
  }

  /** In a chain of transparent handlers, every response comes from a first
      responder. Together with FirstResponderDecides: the chain responds
      exactly as its first responding handler does. */
  lemma {:induction false} ResponseHasFirstResponder(chain: seq<Handler>, err: Err)
    requires AllTransparent(chain)
    requires Run(chain, err).Respond?
    ensures exists k :: FirstResponder(chain, err, k) && Run(chain, err) == chain[k](err)
  {
    assert chain != [];
    assert Transparent(chain[0]);
    if chain[0](err).Respond? {
      assert FirstResponder(chain, err, 0);
    } else {
      assert chain[0](err) == Next(err);
      assert AllTransparent(chain[1..]) by {
        forall j | 0 <= j < |chain| - 1 ensures Transparent(chain[1..][j]) {
          assert chain[1..][j] == chain[j + 1];
        }
      }
      ResponseHasFirstResponder(chain[1..], err);
      var k :| FirstResponder(chain[1..], err, k) && Run(chain[1..], err) == chain[1..][k](err);
      assert chain[1..][k] == chain[k + 1];
      forall j | 0 <= j < k + 1 ensures chain[j](err) == Next(err) {
        if j > 0 { assert chain[1..][j - 1] == chain[j]; }
      }
      assert FirstResponder(chain, err, k + 1);
    }
  }
}
