/** Resolving a guild id through the client: `validateGuildAccess` throws a
    guild-not-found error, `hasGuildAccess` answers a boolean and never
    throws. */
module GuildValidation {
  import opened Wrappers
  import opened Text
  import opened Errors

  /** How `client.guilds.fetch(id)` settles: it resolves to a guild or to
      nothing, or it rejects. */
  datatype Fetched<G> = Resolved(guild: Option<G>) | Rejected

  /** `validateGuildAccess`: a rejection is caught as null, and null throws. */
  function ValidateGuildAccess<G>(fetched: Fetched<G>, guildId: string): (r: Result<G, Fault>)
    ensures r.Success? <==> fetched.Resolved? && fetched.guild.Some?
    ensures r.Success? ==> r.value == fetched.guild.value
    ensures r.Failure? ==> r.error == GuildNotFound(guildId)
  {
    match fetched
    case Resolved(Some(g)) => Success(g)
    case _ => Failure(GuildNotFound(guildId))
  }

  /** `hasGuildAccess`: `!!guild`, or false when the fetch rejects. */
  function HasGuildAccess<G>(fetched: Fetched<G>): bool {
    match fetched
    case Resolved(g) => g.Some?
    case Rejected => false
  }

  /** The two agree: access exactly when validation yields the guild, and a
      refusal names the guild id. */
  lemma AccessIffValid<G>(fetched: Fetched<G>, guildId: string)
    ensures HasGuildAccess(fetched) <==> ValidateGuildAccess(fetched, guildId).Success?
    ensures !HasGuildAccess(fetched) ==> Contains(Message(ValidateGuildAccess(fetched, guildId).error), guildId)
  {
    NotFoundNamesId(guildId);
  }
}
