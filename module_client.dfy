/** The module-level twins of the client's operations: one session is opened
    when the module is loaded and every portal request goes out on it. */
module ModuleClient {
  import opened Wrappers
  import opened Soup
  import opened Models
  import opened Portal
  import opened Operations
  import Clock
  import Scrape
  import Client

  /** What a ledger operation puts on the wire on the shared session s: the
      token lookup, then the ledger request if there is one. */
  function SharedSessionTrace(s: nat, card: string, next: Option<Request>): seq<Event> {
    [Send(s, SessionRequest(card))] + (if next.Some? then [Send(s, next.value)] else [])
  }

  /** The module tarjeta_metrobus: its global session and what went out on it. */
  class TarjetaMetrobus {
    /** The portal's answers. */
    const serve: Serve
    /** slugify(_, separator='_'). */
    const slug: Slugify
    /** The global session, opened once. */
    const session: nat
    /** The priming GET and every request, in order. */
    var log: seq<Event>

    /** The session was primed once, first, and every later event is a
        request on that same session. */
    ghost predicate Valid()
      reads this
    {
      && |log| >= 1 && log[0] == Prime(session)
      && forall i :: 1 <= i < |log| ==> log[i].Send? && log[i].session == session
    }

    /** Loading the module: get_session opens and primes the global session. */
    constructor (serve: Serve, slug: Slugify)
      ensures Valid()
      ensures this.serve == serve && this.slug == slug
      ensures session == 0 && log == [Prime(0)]
    {
      this.serve := serve;
      this.slug := slug;
      session := 0;
      log := [Prime(0)];
    }

    /** The request sent on the global session and the page it answers. */
    method Fetch(request: Request) returns (page: Page)
      requires Valid()
      modifies this`log
      ensures Valid()
      ensures log == old(log) + [Send(session, request)]
      ensures page == serve(request)
    {
      page := serve(request);
      log := log + [Send(session, request)];
    }

    /** get_card_info: the session lookup on the global session, then the
      token (and, unless only_ksi, the balance table). */
    method GetCardInfo(card: string, onlyKsi: bool) returns (r: Result<Option<Scrape.CardInfoReply>>)
      requires Valid()
      modifies this`log
      ensures Valid()
      ensures log == old(log) + [Send(session, SessionRequest(card))]
      ensures r == InfoOutcome(serve, card, onlyKsi, slug)
    {
      var page := Fetch(SessionRequest(card));
      r := Client.ReadCardInfo(page, onlyKsi, slug);
    }

    /** get_comerciales_params: the token from a session lookup, then the
      ledger parameter set for (itemms, item, accion) at time now. */
    method GetComercialesParams(card: string, itemms: int, item: int, accion: int, now: Clock.Instant)
      returns (r: Result<Option<ComercialesParams>>)
      requires Valid() && Clock.Valid(now)
      modifies this`log
      ensures Valid()
      ensures log == old(log) + [Send(session, SessionRequest(card))]
      ensures r == ParamsOutcome(serve, card, Ledger(itemms, item, accion), now, slug)
    {
      var reply :- GetCardInfo(card, true);
      r := Ok(Scrape.ParamsOfReply(reply, Ledger(itemms, item, accion), now));
    }

    /** get_card_resume: token lookup, then the ledger page on the same
      session, read under the one-space balance label. */
    method GetCardResume(card: string, now: Clock.Instant) returns (r: Result<Option<CardInfoResume>>)
      requires Valid() && Clock.Valid(now)
      modifies this`log
      ensures Valid()
      ensures log == old(log) + SharedSessionTrace(session, card, LedgerRequest(serve, card, ResumeLedger, now, slug))
      ensures r == ResumeOutcome(serve, card, now, slug)
    {
      var p :- GetComercialesParams(card, 2000, 1, 6, now);
      if p.Some? {
        var page := Fetch(CommerceRequest(p.value));
        r := Client.ReadResume(page, slug);
      } else {
        r := Ok(None);
      }
    }

    /** get_movements: token lookup, then the history page on the same
      session, read under 'Saldos y movimientos'. */
    method GetMovements(card: string, now: Clock.Instant) returns (r: Result<Option<seq<CardMovement>>>)
      requires Valid() && Clock.Valid(now)
      modifies this`log
      ensures Valid()
      ensures log == old(log) + SharedSessionTrace(session, card, LedgerRequest(serve, card, MovementsLedger, now, slug))
      ensures r == MovementsOutcome(serve, card, now, slug)
    {
      var p :- GetComercialesParams(card, 3000, 2, 1, now);
      if p.Some? {
        var page := Fetch(CommerceRequest(p.value));
        r := Scrape.MovementsFromPage(page, slug);
      } else {
        r := Ok(None);
      }
    }

    /** get_card_resume_uses_charges: token lookup, then the ledger page on
      the same session, read under the two statistics labels. */
    method GetCardResumeUsesCharges(card: string, now: Clock.Instant) returns (r: Result<Option<CardStats>>)
      requires Valid() && Clock.Valid(now)
      modifies this`log
      ensures Valid()
      ensures log == old(log) + SharedSessionTrace(session, card, LedgerRequest(serve, card, ResumeLedger, now, slug))
      ensures r == StatsOutcome(serve, card, now, slug)
    {
      var p :- GetComercialesParams(card, 2000, 1, 6, now);
      if p.Some? {
        var page := Fetch(CommerceRequest(p.value));
        var stats := Scrape.StatsFromPage(page);
        r := if stats.Raise? then Raise(stats.fault) else Ok(Some(stats.value));
      } else {
        r := Ok(None);
      }
    }
  }
}
