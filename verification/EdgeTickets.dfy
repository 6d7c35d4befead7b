/**
  Capability tickets: issued by the control plane, verified by an Edge, accepted once.

  A token that decodes is its payload with a signature; the HMAC of a payload under a secret stands
  for that pair, so signatures are injective. Base64 and JSON text are not part of this model.
*/
module EdgeTickets {
  import opened Common

  datatype Json = Str(s: string) | Int(n: int) | Bool(b: bool) | Float(x: real) | Other

  datatype Mac = Mac(secret: string, payload: Payload)
  /** The claims of a ticket: `v`, `node`, `store`, `host`, `port`, `iat`, `exp`, `jti`, or another member. */
  datatype Claim =
    | Version | ForNode | ForStore | ToHost | ToPort | IssuedAt | ExpiresAt | TicketId | OtherMember(name: string)

  datatype Payload = NotAnObject | Object(fields: map<Claim, Json>)
  datatype Token = Malformed | Token(payload: Payload, signature: Mac)

  datatype Ticket = Ticket(
    node: string, store: string, host: string, port: int, issuedAt: int, expiresAt: int, jti: string)

  datatype TicketError =
    | MalformedTicket | InvalidSignature | MalformedClaims | UnsupportedVersion | InvalidClaim(claim: Claim)
    | WrongNode | InvalidPort | Expired | IssuedInFuture | LifetimeExceedsLimit | NonPositiveLifetime

  datatype Result<+T> = Ok(value: T) | Err(error: TicketError)

  // ---- Issuing ----

  datatype Issuer = Issuer(secret: string, node: string, maxTtl: int) {
    /** The constructor refuses every other lifetime. */
    predicate Valid() { 0 < maxTtl <= 60 }

    function Issue(store: string, host: string, port: int, ttl: Option<int>, jti: string, now: nat): Result<Token> {
      var lifetime := if ttl.None? || ttl.value > maxTtl then maxTtl else ttl.value;
      if lifetime <= 0 then Err(NonPositiveLifetime)
      else
        var issuedAt := WholeSecond(now);
        var payload := Object(map[
          Version := Int(1), ForNode := Str(node), ForStore := Str(store), ToHost := Str(host), ToPort := Int(port),
          IssuedAt := Int(issuedAt), ExpiresAt := Int(issuedAt + lifetime), TicketId := Str(jti)]);
        Ok(Token(payload, Mac(secret, payload)))
    }
  }

  // ---- Verifying ----

  const REQUIRED := {Version, ForNode, ForStore, ToHost, ToPort, IssuedAt, ExpiresAt, TicketId}

  /** Python compares `True` and `1.0` equal to `1`. */
  predicate EqualsOne(j: Json) { j == Int(1) || j == Bool(true) || j == Float(1.0) }

  predicate NonEmptyText(j: Json) { j.Str? && j.s != "" }

  datatype Verifier = Verifier(secret: string, node: string, maxTtl: int, futureSkew: int) {
    function Verify(token: Token, now: nat): Result<Ticket> {
      if token.Malformed? then Err(MalformedTicket)
      else if token.signature != Mac(secret, token.payload) then Err(InvalidSignature)
      else if token.payload.NotAnObject? || !(REQUIRED <= token.payload.fields.Keys) then Err(MalformedClaims)
      else CheckClaims(token.payload.fields, WholeSecond(now))
    }

    function CheckClaims(p: map<Claim, Json>, now: int): Result<Ticket>
      requires REQUIRED <= p.Keys
    {
      if !EqualsOne(p[Version]) then Err(UnsupportedVersion)
      else if !NonEmptyText(p[ForNode]) then Err(InvalidClaim(ForNode))
      else if !NonEmptyText(p[ForStore]) then Err(InvalidClaim(ForStore))
      else if !NonEmptyText(p[ToHost]) then Err(InvalidClaim(ToHost))
      else if !NonEmptyText(p[TicketId]) then Err(InvalidClaim(TicketId))
      else if !p[ToPort].Int? then Err(InvalidClaim(ToPort))
      else if !p[IssuedAt].Int? then Err(InvalidClaim(IssuedAt))
      else if !p[ExpiresAt].Int? then Err(InvalidClaim(ExpiresAt))
      else if p[ForNode].s != node then Err(WrongNode)
      else if p[ToPort].n != 80 && p[ToPort].n != 443 then Err(InvalidPort)
      else if p[ExpiresAt].n <= now then Err(Expired)
      else if p[IssuedAt].n > now + futureSkew then Err(IssuedInFuture)
      else if p[ExpiresAt].n - p[IssuedAt].n <= 0 || p[ExpiresAt].n - p[IssuedAt].n > maxTtl
      then Err(LifetimeExceedsLimit)
      else Ok(Ticket(node, p[ForStore].s, p[ToHost].s, p[ToPort].n, p[IssuedAt].n, p[ExpiresAt].n, p[TicketId].s))
    }
  }

  /** The verdict depends on the clock only through the expiry and the future skew, and never on anything later. */
  lemma VerifyBounds(v: Verifier, token: Token, now: nat)
    requires v.Verify(token, now).Ok?
    ensures var t := v.Verify(token, now).value;
            && WholeSecond(now) < t.expiresAt <= t.issuedAt + v.maxTtl
            && t.issuedAt <= WholeSecond(now) + v.futureSkew
            && t.node == v.node && t.jti != "" && (t.port == 80 || t.port == 443)
            && token.Token? && token.signature == Mac(v.secret, token.payload)
  {
  }

  /** The claims spell the ticket. */
  predicate Spells(p: map<Claim, Json>, t: Ticket) {
    && {Version, ForNode, ForStore, ToHost, ToPort, IssuedAt, ExpiresAt, TicketId} <= p.Keys
    && p[Version] in {Int(1), Bool(true), Float(1.0)} && p[ForNode] == Str(t.node) && p[ForStore] == Str(t.store)
    && p[ToHost] == Str(t.host) && p[ToPort] == Int(t.port) && p[TicketId] == Str(t.jti)
    && p[IssuedAt] == Int(t.issuedAt) && p[ExpiresAt] == Int(t.expiresAt)
  }

  /** A token verifies to a ticket exactly when its signed claims spell that ticket, which is good now and here. */
  lemma VerifiesExactly(v: Verifier, token: Token, now: nat, t: Ticket)
    ensures v.Verify(token, now) == Ok(t) <==>
              && token.Token? && token.signature == Mac(v.secret, token.payload)
              && token.payload.Object? && Spells(token.payload.fields, t)
              && t.node == v.node && t.node != "" && t.store != "" && t.host != "" && t.jti != ""
              && (t.port == 80 || t.port == 443)
              && now / 1_000_000 < t.expiresAt && t.issuedAt <= now / 1_000_000 + v.futureSkew
              && 0 < t.expiresAt - t.issuedAt <= v.maxTtl
  {
  }

  /** Why a token is refused: for its text, its signature, its claims, or the first thing about its ticket. */
  lemma RefusedFor(v: Verifier, token: Token, now: nat, t: Ticket)
    ensures token.Malformed? ==> v.Verify(token, now) == Err(MalformedTicket)
    ensures token.Token? && token.signature != Mac(v.secret, token.payload) ==>
              v.Verify(token, now) == Err(InvalidSignature)
    ensures token.Token? && token.signature == Mac(v.secret, token.payload) && token.payload.NotAnObject? ==>
              v.Verify(token, now) == Err(MalformedClaims)
    ensures && token.Token? && token.signature == Mac(v.secret, token.payload) && token.payload.Object?
            && Spells(token.payload.fields, t) && t.node != "" && t.store != "" && t.host != "" && t.jti != "" ==>
              v.Verify(token, now) == if t.node != v.node then Err(WrongNode)
                                      else if t.port !in {80, 443} then Err(InvalidPort)
                                      else if t.expiresAt <= now / 1_000_000 then Err(Expired)
                                      else if t.issuedAt > now / 1_000_000 + v.futureSkew then Err(IssuedInFuture)
                                      else if !(0 < t.expiresAt - t.issuedAt <= v.maxTtl) then Err(LifetimeExceedsLimit)
                                      else Ok(t)
  {
  }

  /** A token verifies to one ticket only, whenever it verifies. */
  lemma VerifyIsStable(v: Verifier, token: Token, now: nat, later: nat)
    requires v.Verify(token, now).Ok? && v.Verify(token, later).Ok?
    ensures v.Verify(token, now).value == v.Verify(token, later).value
  {
  }

  /** An issued ticket verifies at its own node from its issue on, exactly until its lifetime has run out. */
  lemma IssuedTicketVerifies(i: Issuer, v: Verifier, store: string, host: string, port: int, ttl: Option<int>,
                             jti: string, issued: nat, now: nat)
    requires i.Valid() && i.secret == v.secret && i.node == v.node && v.maxTtl >= i.maxTtl && v.futureSkew >= 0
    requires i.node != "" && store != "" && host != "" && jti != "" && port in {80, 443}
    requires i.Issue(store, host, port, ttl, jti, issued).Ok? && issued <= now
    ensures var lifetime := if ttl.Some? && ttl.value < i.maxTtl then ttl.value else i.maxTtl;
            var verdict := v.Verify(i.Issue(store, host, port, ttl, jti, issued).value, now);
            && (verdict.Ok? <==> WholeSecond(now) < WholeSecond(issued) + lifetime)
            && (verdict.Err? ==> verdict.error == Expired)
            && (verdict.Ok? ==>
                  verdict.value == Ticket(i.node, store, host, port, WholeSecond(issued),
                                          WholeSecond(issued) + lifetime, jti))
  {
    assert WholeSecond(issued) <= WholeSecond(now);
  }

  // ---- Accepting once ----

  type Cache = map<string, int>

  function Prune(cache: Cache, now: int): Cache { map j | j in cache && cache[j] > now :: cache[j] }

  function CacheAfter(cache: Cache, t: Ticket, now: int): Cache {
    if t.jti in Prune(cache, now) then Prune(cache, now) else Prune(cache, now)[t.jti := t.expiresAt]
  }

  class ReplayCache {
    var expires: Cache

    constructor ()
      ensures expires == map[]
    {
      expires := map[];
    }

    method Claim(ticket: Ticket, now: nat) returns (unused: bool)
      modifies this
      ensures expires == CacheAfter(old(expires), ticket, WholeSecond(now))
      ensures unused <==> ticket.jti !in old(expires) || old(expires)[ticket.jti] <= WholeSecond(now)
      ensures forall j :: j != ticket.jti ==>
                && (j in expires <==> j in old(expires) && old(expires)[j] > WholeSecond(now))
                && (j in expires ==> expires[j] == old(expires)[j])
      ensures ticket.jti in expires
      ensures expires[ticket.jti] == if unused then ticket.expiresAt else old(expires)[ticket.jti]
    {
      var second := WholeSecond(now);
      expires := map j | j in expires && expires[j] > second :: expires[j];
      if ticket.jti in expires {
        return false;
      }
      expires := expires[ticket.jti := ticket.expiresAt];
      return true;
    }
  }

  /** One tunnel request at an Edge: verify, then claim, both in the same second. */
  datatype Presentation = Presentation(token: Token, at: nat)

  /** An Edge's replay cache and the requests it let through, oldest first. */
  datatype Edge = Edge(now: nat, cache: Cache, accepted: seq<Presentation>)

  const NEW_EDGE := Edge(0, map[], [])

  predicate Remembers(edge: Edge, t: Ticket) { t.jti in edge.cache && edge.cache[t.jti] == t.expiresAt }

  predicate Admits(v: Verifier, edge: Edge, p: Presentation) {
    && edge.now <= p.at
    && v.Verify(p.token, p.at).Ok?
    && v.Verify(p.token, p.at).value.jti !in Prune(edge.cache, WholeSecond(p.at))
  }

  function Present(v: Verifier, edge: Edge, p: Presentation): Edge {
    if p.at < edge.now then edge
    else if v.Verify(p.token, p.at).Err? then edge.(now := p.at)
    else Edge(p.at, CacheAfter(edge.cache, v.Verify(p.token, p.at).value, WholeSecond(p.at)),
              if Admits(v, edge, p) then edge.accepted + [p] else edge.accepted)
  }

  function PresentAll(v: Verifier, edge: Edge, ps: seq<Presentation>): Edge
    decreases |ps|
  {
    if ps == [] then edge else PresentAll(v, Present(v, edge, ps[0]), ps[1..])
  }

  /** Whatever was accepted is still remembered while it could verify again, and no cache entry outlives the limit. */
  ghost predicate EdgeInv(v: Verifier, edge: Edge) {
    && (forall i :: 0 <= i < |edge.accepted| ==>
          && edge.accepted[i].at <= edge.now
          && v.Verify(edge.accepted[i].token, edge.accepted[i].at).Ok?
          && var t := v.Verify(edge.accepted[i].token, edge.accepted[i].at).value;
          (t.expiresAt > WholeSecond(edge.now) ==> t.jti in edge.cache && edge.cache[t.jti] >= t.expiresAt))
    && (forall i, j :: 0 <= i < j < |edge.accepted| ==> edge.accepted[i].token != edge.accepted[j].token)
    && (forall jti :: jti in edge.cache ==> edge.cache[jti] <= WholeSecond(edge.now) + v.maxTtl + v.futureSkew)
  }

  lemma PresentKeepsInv(v: Verifier, edge: Edge, p: Presentation)
    requires EdgeInv(v, edge)
    ensures EdgeInv(v, Present(v, edge, p))
  {
    var edge' := Present(v, edge, p);
    if edge.now <= p.at {
      assert WholeSecond(edge.now) <= WholeSecond(p.at);
      if v.Verify(p.token, p.at).Ok? {
        VerifyBounds(v, p.token, p.at);
        forall i | 0 <= i < |edge.accepted| ensures Admits(v, edge, p) ==> edge.accepted[i].token != p.token {
          if edge.accepted[i].token == p.token { VerifyIsStable(v, p.token, edge.accepted[i].at, p.at); }
        }
      }
    }
  }

  /**
    With a clock that never goes back, no ticket is accepted twice although expired entries are
    pruned, and every cached entry expires within `maxTtl + futureSkew` seconds of now.
  */
  lemma {:induction false} AcceptedAtMostOnce(v: Verifier, edge: Edge, ps: seq<Presentation>)
    requires EdgeInv(v, edge)
    ensures EdgeInv(v, PresentAll(v, edge, ps))
    ensures var e := PresentAll(v, edge, ps);
            && (forall i, j :: 0 <= i < j < |e.accepted| ==> e.accepted[i].token != e.accepted[j].token)
            && (forall jti :: jti in e.cache ==> e.cache[jti] <= WholeSecond(e.now) + v.maxTtl + v.futureSkew)
    decreases |ps|
  {
    if ps != [] {
      PresentKeepsInv(v, edge, ps[0]);
      AcceptedAtMostOnce(v, Present(v, edge, ps[0]), ps[1..]);
    }
  }
}
