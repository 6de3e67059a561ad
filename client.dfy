/** The TarjetaMetrobusPanama class: every portal request goes out on a
    session opened for it, which replaces the object's current session. */
module Client {
  import opened Wrappers
  import opened Soup
  import opened Models
  import opened Portal
  import opened Operations
  import Clock
  import Utils
  import Scrape

  /** What a ledger operation puts on the wire when every request opens its
      own session, the first one numbered s: the token lookup, then the
      ledger request if there is one. */
  function FreshSessionTrace(s: nat, card: string, next: Option<Request>): seq<Event> {
    [Prime(s), Send(s, SessionRequest(card))] + (if next.Some? then [Prime(s + 1), Send(s + 1, next.value)] else [])
  }

  /** No session carries two requests: the sessions of the requests in a
      log strictly increase. */
  ghost predicate OneRequestPerSession(log: seq<Event>) {
    forall i, j :: 0 <= i < j < |log| && log[i].Send? && log[j].Send? ==> log[i].session < log[j].session
  }

  /** Appending events whose sessions are all newer than every session in
      the log keeps one request per session. */
  lemma AppendNewer(log: seq<Event>, sessionCount: nat, more: seq<Event>)
    requires OneRequestPerSession(log) && OneRequestPerSession(more)
    requires forall i :: 0 <= i < |log| ==> log[i].session < sessionCount
    requires forall i :: 0 <= i < |more| ==> sessionCount <= more[i].session
    ensures OneRequestPerSession(log + more)
  {
    var all := log + more;
    forall i, j | 0 <= i < j < |all| && all[i].Send? && all[j].Send?
      ensures all[i].session < all[j].session
    {
      if j < |log| {
        assert all[i] == log[i] && all[j] == log[j];
      } else if i < |log| {
        assert all[i] == log[i] && all[j] == more[j - |log|];
      } else {
        assert all[i] == more[i - |log|] && all[j] == more[j - |log|];
      }
    }
  }

  /** get_card_info once the session-lookup page has arrived: the token
      (whose absence raises), then, unless only_ksi, the card record from the
      table under the two-space balance label. This is the executable form
      of Scrape.CardInfoFromPage: it runs the pair-by-pair loop of
      Utils.BsTableToDict where the function uses Utils.TableToDict. */
  method ReadCardInfo(page: Page, onlyKsi: bool, slug: Slugify) returns (r: Result<Option<Scrape.CardInfoReply>>)
    ensures r == Scrape.CardInfoFromPage(page, onlyKsi, slug)
  {
    var ksi :- Scrape.ReadKsi(page);
    if onlyKsi {
      return Ok(Some(Scrape.KsiReply(KSI(ksi))));
    }
    var table := page.Find(Scrape.InfoAnchor);
    if table.None? {
      return Ok(None);
    }
    var d :- Utils.BsTableToDict(table.value, slug);
    var info :- CardInfoOf(d);
    return Ok(Some(Scrape.InfoReply(info)));
  }

  /** The resume record under the one-space balance label of a ledger page:
      the executable form of Scrape.ResumeFromPage, running the loop of
      Utils.BsTableToDict. */
  method ReadResume(page: Page, slug: Slugify) returns (r: Result<Option<CardInfoResume>>)
    ensures r == Scrape.ResumeFromPage(page, slug)
  {
    var table := page.Find(Scrape.ResumeAnchor);
    if table.None? {
      return Ok(None);
    }
    var d :- Utils.BsTableToDict(table.value, slug);
    var resume :- CardInfoResumeOf(d);
    return Ok(Some(resume));
  }

  class TarjetaMetrobusPanama {
    /** The portal's answers. */
    const serve: Serve
    /** slugify(_, separator='_'). */
    const slug: Slugify
    /** self.session: the session the next request would go out on. */
    var session: nat
    /** How many sessions have been opened, each numbered by its rank. */
    var sessionCount: nat
    /** Every priming GET and request, in order. */
    var log: seq<Event>

    ghost predicate Valid()
      reads this
    {
      && session < sessionCount
      && (forall i :: 0 <= i < |log| ==> log[i].session < sessionCount)
      && OneRequestPerSession(log)
    }

    /** __init__: opens the first session. */
    constructor (serve: Serve, slug: Slugify)
      ensures Valid()
      ensures this.serve == serve && this.slug == slug
      ensures session == 0 && sessionCount == 1 && log == [Prime(0)]
    {
      this.serve := serve;
      this.slug := slug;
      session := 0;
      sessionCount := 0;
      log := [];
      new;
      var s := GetSession();
      session := s;
    }

    /** get_session: a new session, primed with a GET to the portal root. */
    method GetSession() returns (s: nat)
      modifies this`sessionCount, this`log
      ensures s == old(sessionCount) && sessionCount == old(sessionCount) + 1
      ensures log == old(log) + [Prime(s)]
      ensures old(Valid()) ==> Valid()
    {
      s := sessionCount;
      sessionCount := sessionCount + 1;
      log := log + [Prime(s)];
    }

    /** get_card_info: replaces the session, sends the session lookup on the
      new one, and reads the token (and, unless only_ksi, the balance table). */
    method GetCardInfo(card: string, onlyKsi: bool) returns (r: Result<Option<Scrape.CardInfoReply>>)
      requires Valid()
      modifies this`session, this`sessionCount, this`log
      ensures Valid()
      ensures session == old(sessionCount) && sessionCount == old(sessionCount) + 1
      ensures log == old(log) + [Prime(session), Send(session, SessionRequest(card))]
      ensures r == InfoOutcome(serve, card, onlyKsi, slug)
    {
      var s := GetSession();
      session := s;
      var request := SessionRequest(card);
      var page := serve(request);
      log := log + [Send(session, request)];
      AppendNewer(old(log), old(sessionCount), [Prime(session), Send(session, request)]);
      r := ReadCardInfo(page, onlyKsi, slug);
    }

    /** get_comerciales_params: the token from a fresh session lookup, then
      the ledger parameter set for (itemms, item, accion) at time now. */
    method GetComercialesParams(card: string, itemms: int, item: int, accion: int, now: Clock.Instant)
      returns (r: Result<Option<ComercialesParams>>)
      requires Valid() && Clock.Valid(now)
      modifies this`session, this`sessionCount, this`log
      ensures Valid()
      ensures session == old(sessionCount) && sessionCount == old(sessionCount) + 1
      ensures log == old(log) + [Prime(session), Send(session, SessionRequest(card))]
      ensures r == ParamsOutcome(serve, card, Ledger(itemms, item, accion), now, slug)
    {
      var reply :- GetCardInfo(card, true);
      r := Ok(Scrape.ParamsOfReply(reply, Ledger(itemms, item, accion), now));
    }

    /** The ledger half of a ledger operation: a fresh session, the ledger
      request on it, and the page the portal answers. */
    method SendLedger(params: ComercialesParams) returns (page: Page)
      requires Valid()
      modifies this`session, this`sessionCount, this`log
      ensures Valid()
      ensures session == old(sessionCount) && sessionCount == old(sessionCount) + 1
      ensures log == old(log) + [Prime(session), Send(session, CommerceRequest(params))]
      ensures page == serve(CommerceRequest(params))
    {
      var s := GetSession();
      session := s;
      var request := CommerceRequest(params);
      page := serve(request);
      log := log + [Send(session, request)];
      AppendNewer(old(log), old(sessionCount), [Prime(session), Send(session, request)]);
    }

    /** get_card_resume: token lookup, then the ledger page on a second
      fresh session, read under the one-space balance label. */
    method GetCardResume(card: string, now: Clock.Instant) returns (r: Result<Option<CardInfoResume>>)
      requires Valid() && Clock.Valid(now)
      modifies this`session, this`sessionCount, this`log
      ensures Valid()
      ensures session + 1 == sessionCount
      ensures var next := LedgerRequest(serve, card, ResumeLedger, now, slug);
        && log == old(log) + FreshSessionTrace(old(sessionCount), card, next)
        && sessionCount == old(sessionCount) + (if next.Some? then 2 else 1)
      ensures r == ResumeOutcome(serve, card, now, slug)
    {
      ghost var s0, log0 := sessionCount, log;
      var p :- GetComercialesParams(card, 2000, 1, 6, now);
      if p.Some? {
        var page := SendLedger(p.value);
        assert log == log0 + FreshSessionTrace(s0, card, Some(CommerceRequest(p.value)));
        r := ReadResume(page, slug);
      } else {
        r := Ok(None);
      }
    }

    /** get_movements: token lookup, then the history page on a second fresh
      session, read under 'Saldos y movimientos'. */
    method GetMovements(card: string, now: Clock.Instant) returns (r: Result<Option<seq<CardMovement>>>)
      requires Valid() && Clock.Valid(now)
      modifies this`session, this`sessionCount, this`log
      ensures Valid()
      ensures session + 1 == sessionCount
      ensures var next := LedgerRequest(serve, card, MovementsLedger, now, slug);
        && log == old(log) + FreshSessionTrace(old(sessionCount), card, next)
        && sessionCount == old(sessionCount) + (if next.Some? then 2 else 1)
      ensures r == MovementsOutcome(serve, card, now, slug)
    {
      ghost var s0, log0 := sessionCount, log;
      var p :- GetComercialesParams(card, 3000, 2, 1, now);
      if p.Some? {
        var page := SendLedger(p.value);
        assert log == log0 + FreshSessionTrace(s0, card, Some(CommerceRequest(p.value)));
        r := Scrape.MovementsFromPage(page, slug);
      } else {
        r := Ok(None);
      }
    }

    /** get_card_resume_uses_charges: token lookup, then the ledger page on a
      second fresh session, read under the two statistics labels. */
    method GetCardResumeUsesCharges(card: string, now: Clock.Instant) returns (r: Result<Option<CardStats>>)
      requires Valid() && Clock.Valid(now)
      modifies this`session, this`sessionCount, this`log
      ensures Valid()
      ensures session + 1 == sessionCount
      ensures var next := LedgerRequest(serve, card, ResumeLedger, now, slug);
        && log == old(log) + FreshSessionTrace(old(sessionCount), card, next)
        && sessionCount == old(sessionCount) + (if next.Some? then 2 else 1)
      ensures r == StatsOutcome(serve, card, now, slug)
    {
      ghost var s0, log0 := sessionCount, log;
      var p :- GetComercialesParams(card, 2000, 1, 6, now);
      if p.Some? {
        var page := SendLedger(p.value);
        assert log == log0 + FreshSessionTrace(s0, card, Some(CommerceRequest(p.value)));
        var stats := Scrape.StatsFromPage(page);
        r := if stats.Raise? then Raise(stats.fault) else Ok(Some(stats.value));
      } else {
        r := Ok(None);
      }
    }
  }
}
