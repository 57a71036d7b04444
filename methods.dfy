/** The contract between the room store and a game implementation:
    the user identity, the per-command context, the Result of a command,
    and the set of operations a game offers (the Methods<T> interface). */
module Methods {

  datatype Option<T> = None | Some(value: T)

  /** An anonymous user as carried by a verified token. Users are compared
      by value here; the server's sets of users compare objects by identity. */
  datatype User = User(id: string, name: string)

  /** The room's seeded random stream: the seed it was created from and how
      many values have been drawn from it so far. Its values are not modelled. */
  datatype Rng = Rng(seed: string, drawn: nat)

  /** A stream freshly seeded from `seed`. */
  function Seeded(seed: string): (r: Rng)
    ensures r.seed == seed && r.drawn == 0
  {
    Rng(seed, 0)
  }

  /** The context of one command: the room's stream and the time the command
      was received. */
  datatype Context = Context(rng: Rng, time: int)

  /** What a command reports: it changed the state, or it did not, with an
      optional reason. */
  datatype Result = Modified | Unmodified(error: Option<string>)

  /** `Result.modified()` */
  function ModifiedResult(): (r: Result)
    ensures r.Modified?
  {
    Modified
  }

  /** `Result.unmodified(error?)` */
  function UnmodifiedResult(error: Option<string>): (r: Result)
    ensures r.Unmodified? && r.error == error
  {
    Unmodified(error)
  }

  /** A game freshly created, with the stream as the creation left it. */
  datatype Created<S> = Created(state: S, rng: Rng)

  /** What a command does: its Result, the state it leaves (the source mutates
      the state in place) and the stream as it leaves it. */
  datatype Outcome<S> = Outcome(result: Result, state: S, rng: Rng)

  /** The operations of a game over state S, request arguments A and per-user
      views V. Creation takes no prior state; every command takes the state,
      the user, the context and the arguments; the view takes no context. */
  datatype Methods<!S, !A, V> = Methods(
    createGame: (User, Context, A) -> Created<S>,
    joinGame: (S, User, Context, A) -> Outcome<S>,
    startGame: (S, User, Context, A) -> Outcome<S>,
    startRound: (S, User, Context, A) -> Outcome<S>,
    call: (S, User, Context, A) -> Outcome<S>,
    raise: (S, User, Context, A) -> Outcome<S>,
    fold: (S, User, Context, A) -> Outcome<S>,
    getUserState: (S, User) -> V)
}
