/** The webhook's dispatch (internal/transport/http/handler.go): what one mapped message does to
    the claims, the debouncer and the escalations. */
module Webhook {
  import opened Domain
  import Debouncer
  import Normalize
  import Stores

  /** An escalation recorded outside the orchestrator. */
  datatype Escalation = Escalation(key: Key, postID: string, reason: string)

  datatype Response = Accepted | AlreadySeen

  class Handler {
    const claims: Stores.Idempotency
    const debouncer: Debouncer.Timed
    var escalations: seq<Escalation>

    constructor (claims: Stores.Idempotency, debouncer: Debouncer.Timed)
      ensures this.claims == claims && this.debouncer == debouncer && escalations == []
    {
      this.claims, this.debouncer, escalations := claims, debouncer, [];
    }

    /** A host message drops the buffer, a blank guest message is escalated unclaimed, and any
        other guest message is pushed exactly when its claim is fresh. */
    method Dispatch(key: Key, m: Message, now: int) returns (response: Response)
      modifies this, claims, debouncer
      ensures
        var claim := Stores.ClaimKey(key, m.postID);
        var guest := m.role.Guest?;
        var unclaimed := guest && !Normalize.Blank(m.body) && claim !in old(claims.claimed);
        && claims.claimed == (if unclaimed then old(claims.claimed)[claim := false] else old(claims.claimed))
        && debouncer.Now() == (if unclaimed then Debouncer.Pushed(debouncer.cfg, old(debouncer.Now()), key, m, now)
                               else if guest then old(debouncer.Now())
                               else Debouncer.Cancelled(old(debouncer.Now()), key, m.role))
        && escalations == old(escalations)
                          + (if guest && Normalize.Blank(m.body) then [Escalation(key, m.postID, "empty_body")] else [])
        && (response.AlreadySeen? <==> guest && !Normalize.Blank(m.body) && !unclaimed)
    {
      if !m.role.Guest? {
        debouncer.CancelIfHostReplied(key, m.role);
        return Accepted;
      }
      Normalize.TrimsToNothingIff(m.body);
      if Normalize.TrimSpace(m.body) == "" {
        escalations := escalations + [Escalation(key, m.postID, "empty_body")];
        return Accepted;
      }
      var already := claims.SeenOrClaim(key, m.postID);
      if already {
        return AlreadySeen;
      }
      debouncer.Push(key, m, now);
      return Accepted;
    }
  }
}
