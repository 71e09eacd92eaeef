/**
 * The user resolvers of server/resolvers/users.js: `Query.getUsers` and the
 * find-or-create `Mutation.register`, over the User collection modelled as a
 * map from a Google account's `sub` to its record.
 *
 * Google's ID-token check is an oracle whose answer (claims or a rejection
 * with its message) is a parameter, and so are the failures the database may
 * raise and the clock reading `new Date().toISOString()` gives.
 */
module UserResolvers {
  import opened Wrappers

  /** A stored user (the fields `register` writes and replies with). */
  datatype User = User(sub: string, email: string, name: string, createdAt: string)

  /** The payload of a verified ID token: the fields `register` reads from it. */
  datatype Claims = Claims(sub: string, email: string, name: string)

  /** The answer of `verifyIdToken`: the token's claims, or the message it was rejected with. */
  datatype Verification = Verified(claims: Claims) | Rejected(message: string)

  /** The store after a `register` call, and what the call replied. */
  datatype Registration = Registration(users: map<string, User>, reply: Result<User>)

  /** Every record is filed under its own `sub`, so `findOne({ sub })` is a map lookup. */
  ghost predicate KeyedBySub(users: map<string, User>)
  {
    forall s :: s in users ==> users[s].sub == s
  }

  /**
   * `register` on the store `users` (lines 21-46): the token's claims, a
   * lookup by `sub`, and either the stored record or a new one stamped
   * `now`. `findFault` and `saveFault` are the messages `findOne` and
   * `save` reject with, if they do; every failure leaves the store as it was
   * and becomes an error carrying the underlying message (line 45).
   * Existing records are never touched, and at most one is added.
   */
  function RegisterOutcome(users: map<string, User>, verification: Verification,
                           findFault: Option<string>, saveFault: Option<string>, now: string): (out: Registration)
    ensures users.Keys <= out.users.Keys
    ensures forall s :: s in users ==> out.users[s] == users[s]
    ensures verification.Verified? ==> out.users.Keys <= users.Keys + {verification.claims.sub}
    ensures verification.Rejected? ==> out.users.Keys == users.Keys
  {
    match verification
    case Rejected(message) => Registration(users, Err(message))
    case Verified(claims) =>
      if findFault.Some? then Registration(users, Err(findFault.value))
      else if claims.sub in users then
        var found := users[claims.sub];
        Registration(users, Ok(User(found.sub, found.email, found.name, found.createdAt)))
      else if saveFault.Some? then Registration(users, Err(saveFault.value))
      else
        var saved := users[claims.sub := User(claims.sub, claims.email, claims.name, now)];
        var res := saved[claims.sub];
        Registration(saved, Ok(User(res.sub, res.email, res.name, res.createdAt)))
  }

  /**
   * A `sub` already on file: the stored record comes back unchanged,
   * whatever name or email the fresh claims carry, and the store is not
   * written (lines 31-35).
   */
  lemma RegisterFindsExisting(users: map<string, User>, claims: Claims, saveFault: Option<string>, now: string)
    requires claims.sub in users
    ensures RegisterOutcome(users, Verified(claims), None, saveFault, now) == Registration(users, Ok(users[claims.sub]))
  {
  }

  /**
   * A new `sub`: exactly one record `{ sub, email, name, createdAt: now }`
   * is added, every other record stays, and the reply is the saved record
   * (lines 37-43).
   */
  lemma RegisterCreates(users: map<string, User>, claims: Claims, now: string)
    requires claims.sub !in users
    ensures var out := RegisterOutcome(users, Verified(claims), None, None, now);
      && out.users == users[claims.sub := User(claims.sub, claims.email, claims.name, now)]
      && |out.users| == |users| + 1
      && out.reply == Ok(User(claims.sub, claims.email, claims.name, now))
      && out.reply.value == out.users[claims.sub]
  {
  }

  /**
   * A call fails exactly when the token is rejected, the lookup fails, or
   * the save of a new record fails; the error carries that step's message
   * and the store is unchanged (lines 24-28, 31, 41, 45).
   */
  lemma RegisterFailures(users: map<string, User>, verification: Verification,
                         findFault: Option<string>, saveFault: Option<string>, now: string)
    ensures var out := RegisterOutcome(users, verification, findFault, saveFault, now);
      && (out.reply.Err? <==>
            verification.Rejected? || findFault.Some? || (verification.claims.sub !in users && saveFault.Some?))
      && (out.reply.Err? ==> out.users == users)
      && (verification.Rejected? ==> out.reply == Err(verification.message))
      && (verification.Verified? && findFault.Some? ==> out.reply == Err(findFault.value))
      && (verification.Verified? && findFault.None? && verification.claims.sub !in users && saveFault.Some? ==>
            out.reply == Err(saveFault.value))
  {
  }

  /**
   * The reply is what the store holds under the claims' `sub`: the store
   * stays keyed by `sub`, and a successful reply is the record filed under
   * the `sub` of the token.
   */
  lemma RegisterKeepsKeyed(users: map<string, User>, verification: Verification,
                           findFault: Option<string>, saveFault: Option<string>, now: string)
    requires KeyedBySub(users)
    ensures var out := RegisterOutcome(users, verification, findFault, saveFault, now);
      && KeyedBySub(out.users)
      && (out.reply.Ok? ==>
            && out.reply.value.sub == verification.claims.sub
            && out.reply.value.sub in out.users
            && out.users[out.reply.value.sub] == out.reply.value)
  {
  }

  /**
   * Registering twice with the same `sub`: the second call succeeds with the
   * record of the first, at any later time and whatever name and email the
   * second token carries, and leaves the store as the first call left it.
   */
  lemma {:induction false} RegisterIdempotent(users: map<string, User>, first: Claims, second: Claims,
                                              now: string, later: string)
    requires first.sub == second.sub
    ensures var one := RegisterOutcome(users, Verified(first), None, None, now);
      var two := RegisterOutcome(one.users, Verified(second), None, None, later);
      && one.reply.Ok?
      && two == Registration(one.users, one.reply)
  {
    var one := RegisterOutcome(users, Verified(first), None, None, now);
    assert one.reply == Ok(one.users[first.sub]);
    RegisterFindsExisting(one.users, second, None, later);
  }

  /** The arguments of a `register` call as GraphQL hands them to the resolver, by name. */
  type Arguments = map<string, string>

  /** Arguments as the schema declares them: `register(idToken: String!, accessToken: String!)` (typeDefs.js line 63). */
  predicate SchemaArguments(args: Arguments)
  {
    args.Keys == {"idToken", "accessToken"}
  }

  /** The argument the resolver hands to `verifyIdToken` as written: `token` (line 21); absent is `undefined`. */
  function TokenAsWritten(args: Arguments): Option<string>
  {
    if "token" in args then Some(args["token"]) else None
  }

  /** The argument the schema names `idToken`: what the resolver evidently means to verify. */
  function IdToken(args: Arguments): Option<string>
  {
    if "idToken" in args then Some(args["idToken"]) else None
  }

  /**
   * `register` as written, on its arguments: `verify` stands for
   * `verifyIdToken`, applied to the argument the resolver reads.
   */
  function RegisterAsWritten(users: map<string, User>, args: Arguments, verify: Option<string> -> Verification,
                             findFault: Option<string>, saveFault: Option<string>, now: string): (out: Registration)
    ensures "token" !in args ==> out == RegisterOutcome(users, verify(None), findFault, saveFault, now)
    ensures "token" in args ==> out == RegisterOutcome(users, verify(Some(args["token"])), findFault, saveFault, now)
  {
    RegisterOutcome(users, verify(TokenAsWritten(args)), findFault, saveFault, now)
  }

  /**
   * With arguments as the schema declares them, the resolver as written
   * never passes the client's token on: `verifyIdToken` gets `undefined`,
   * which it rejects, so every registration fails and nothing is stored.
   */
  lemma RegisterAsWrittenIgnoresToken(users: map<string, User>, args: Arguments, verify: Option<string> -> Verification,
                                      findFault: Option<string>, saveFault: Option<string>, now: string)
    requires SchemaArguments(args)
    requires verify(None).Rejected?
    ensures var out := RegisterAsWritten(users, args, verify, findFault, saveFault, now);
      && TokenAsWritten(args) == None
      && out == Registration(users, Err(verify(None).message))
  {
    assert "token" !in args.Keys by {
      assert "token" != "idToken" && "token" != "accessToken" by {
        assert "token"[0] != "idToken"[0];
        assert "token"[0] != "accessToken"[0];
      }
    }
  }

  /** `register` reading the `idToken` argument, as the schema and the client name it. */
  function RegisterWithArguments(users: map<string, User>, args: Arguments, verify: Option<string> -> Verification,
                                 findFault: Option<string>, saveFault: Option<string>, now: string): (out: Registration)
    ensures SchemaArguments(args) ==>
      out == RegisterOutcome(users, verify(Some(args["idToken"])), findFault, saveFault, now)
  {
    RegisterOutcome(users, verify(IdToken(args)), findFault, saveFault, now)
  }

  /**
   * Reading `idToken`, the client's token is what gets verified: a token
   * the oracle accepts registers its `sub`, whatever the other arguments.
   */
  lemma RegisterWithArgumentsVerifiesToken(users: map<string, User>, args: Arguments,
                                           verify: Option<string> -> Verification, now: string)
    requires SchemaArguments(args)
    requires verify(Some(args["idToken"])).Verified?
    ensures var out := RegisterWithArguments(users, args, verify, None, None, now);
      && out.reply.Ok?
      && verify(Some(args["idToken"])).claims.sub in out.users
  {
  }

  /** The User collection. */
  class UserStore {
    var users: map<string, User>

    /** Records are filed under their own `sub`. */
    ghost predicate Valid()
      reads this
    {
      KeyedBySub(users)
    }

    /** An empty collection. */
    constructor ()
      ensures Valid() && users == map[]
    {
      users := map[];
    }

    /**
     * `Mutation.register` as evidently intended: verify the `idToken`
     * argument, look the `sub` up, and return the stored record or save and
     * return a new one stamped `now`. Line 21 as written reads `token`
     * instead; `RegisterAsWritten` is that version.
     */
    method Register(args: Arguments, verify: Option<string> -> Verification,
                    findFault: Option<string>, saveFault: Option<string>, now: string)
      returns (reply: Result<User>)
      requires Valid()
      modifies this
      ensures Valid()
      ensures Registration(users, reply) == RegisterWithArguments(old(users), args, verify, findFault, saveFault, now)
    {
      var verification := verify(IdToken(args));
      if verification.Rejected? {
        return Err(verification.message);
      }
      var claims := verification.claims;
      if findFault.Some? {
        return Err(findFault.value);
      }
      if claims.sub in users {
        var found := users[claims.sub];
        return Ok(User(found.sub, found.email, found.name, found.createdAt));
      }
      var newUser := User(claims.sub, claims.email, claims.name, now);
      if saveFault.Some? {
        return Err(saveFault.value);
      }
      users := users[claims.sub := newUser];
      var res := users[claims.sub];
      reply := Ok(User(res.sub, res.email, res.name, res.createdAt));
    }

    /**
     * `Query.getUsers` (lines 11-18): every stored record exactly once, in an
     * order the model leaves open, or the lookup's failure message.
     */
    method GetUsers(findFault: Option<string>) returns (r: Result<seq<User>>)
      requires Valid()
      ensures findFault.Some? ==> r == Err(findFault.value)
      ensures findFault.None? ==> r.Ok?
      ensures r.Ok? ==>
        && |r.value| == |users|
        && (forall i :: 0 <= i < |r.value| ==> r.value[i].sub in users && users[r.value[i].sub] == r.value[i])
        && (forall i, j :: 0 <= i < j < |r.value| ==> r.value[i].sub != r.value[j].sub)
        && (forall s :: s in users ==> users[s] in r.value)
    {
      if findFault.Some? {
        return Err(findFault.value);
      }
      var listed: seq<User> := [];
      var rest := users.Keys;
      while rest != {}
        invariant rest <= users.Keys
        invariant forall i :: 0 <= i < |listed| ==>
          listed[i].sub in users && users[listed[i].sub] == listed[i] && listed[i].sub !in rest
        invariant forall i, j :: 0 <= i < j < |listed| ==> listed[i].sub != listed[j].sub
        invariant forall s :: s in users && s !in rest ==> users[s] in listed
        invariant |listed| + |rest| == |users|
        decreases rest
      {
        var s :| s in rest;
        listed := listed + [users[s]];
        rest := rest - {s};
      }
      r := Ok(listed);
    }
  }
}
