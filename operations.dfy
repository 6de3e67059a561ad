/** The five operations of the card client from end to end, given what the
    portal answers: a session-lookup request, then (for the ledger
    operations) a ledger request built from the token the first page holds. */
module Operations {
  import opened Wrappers
  import opened Soup
  import opened Models
  import opened Portal
  import Clock
  import Scrape
  import Utils
  import Movements

  /** The page the portal answers to a request. */
  type Serve = Request -> Page

  /** get_card_info: the session lookup and what its page holds. */
  function InfoOutcome(serve: Serve, card: string, onlyKsi: bool, slug: Slugify): Result<Option<Scrape.CardInfoReply>> {
    Scrape.CardInfoFromPage(serve(SessionRequest(card)), onlyKsi, slug)
  }

  /** get_comerciales_params: the token looked up, then the parameter set. */
  function ParamsOutcome(serve: Serve, card: string, ledger: Ledger, now: Clock.Instant, slug: Slugify): Result<Option<ComercialesParams>>
    requires Clock.Valid(now)
  {
    Scrape.ParamsFromPage(serve(SessionRequest(card)), slug, ledger, now)
  }

  /** The ledger request a ledger operation sends after its token lookup, if any. */
  function LedgerRequest(serve: Serve, card: string, ledger: Ledger, now: Clock.Instant, slug: Slugify): Option<Request>
    requires Clock.Valid(now)
  {
    match ParamsOutcome(serve, card, ledger, now, slug)
    case Ok(Some(q)) => Some(CommerceRequest(q))
    case _ => None
  }

  /** get_card_resume: token lookup, then the ledger query. */
  function ResumeOutcome(serve: Serve, card: string, now: Clock.Instant, slug: Slugify): Result<Option<CardInfoResume>>
    requires Clock.Valid(now)
  {
    var p :- ParamsOutcome(serve, card, ResumeLedger, now, slug);
    match p
    case None => Ok(None)
    case Some(q) => Scrape.ResumeFromPage(serve(CommerceRequest(q)), slug)
  }

  /** get_movements: token lookup, then the history query. */
  function MovementsOutcome(serve: Serve, card: string, now: Clock.Instant, slug: Slugify): Result<Option<seq<CardMovement>>>
    requires Clock.Valid(now)
  {
    var p :- ParamsOutcome(serve, card, MovementsLedger, now, slug);
    match p
    case None => Ok(None)
    case Some(q) => Scrape.MovementsFromPage(serve(CommerceRequest(q)), slug)
  }

  /** get_card_resume_uses_charges: token lookup, then the ledger query. */
  function StatsOutcome(serve: Serve, card: string, now: Clock.Instant, slug: Slugify): Result<Option<CardStats>>
    requires Clock.Valid(now)
  {
    var p :- ParamsOutcome(serve, card, ResumeLedger, now, slug);
    match p
    case None => Ok(None)
    case Some(q) =>
      var stats :- Scrape.StatsFromPage(serve(CommerceRequest(q)));
      Ok(Some(stats))
  }

  // ---------------------------------------------------------------------
  // Properties

  /** A ledger request is sent exactly when the lookup page holds a token,
      and it carries that token, the operation's triple and the clock. */
  lemma LedgerFollowsToken(serve: Serve, card: string, ledger: Ledger, now: Clock.Instant, slug: Slugify)
    requires Clock.Valid(now)
    ensures var page := serve(SessionRequest(card));
      && (LedgerRequest(serve, card, ledger, now, slug).Some? <==> Scrape.ReadKsi(page).Ok?)
      && (Scrape.ReadKsi(page).Ok? ==>
            LedgerRequest(serve, card, ledger, now, slug) == Some(CommerceRequest(LedgerParams(Scrape.ReadKsi(page).value, ledger, now))))
  {
    Scrape.ParamsNeverNone(serve(SessionRequest(card)), slug, ledger, now);
  }

  /** When the lookup page has no token, every operation raises the lookup's
      error and no ledger request is sent. */
  lemma MissingTokenRaises(serve: Serve, card: string, now: Clock.Instant, slug: Slugify)
    requires Clock.Valid(now)
    requires Scrape.ReadKsi(serve(SessionRequest(card))).Raise?
    ensures var e := Scrape.ReadKsi(serve(SessionRequest(card))).fault;
      && InfoOutcome(serve, card, true, slug) == Raise(e) && InfoOutcome(serve, card, false, slug) == Raise(e)
      && ResumeOutcome(serve, card, now, slug) == Raise(e)
      && MovementsOutcome(serve, card, now, slug) == Raise(e)
      && StatsOutcome(serve, card, now, slug) == Raise(e)
    ensures LedgerRequest(serve, card, ResumeLedger, now, slug).None?
    ensures LedgerRequest(serve, card, MovementsLedger, now, slug).None?
  {
    var page := serve(SessionRequest(card));
    Scrape.MissingKsiRaises(page, true, slug);
    Scrape.MissingKsiRaises(page, false, slug);
    Scrape.ParamsNeverNone(page, slug, ResumeLedger, now);
    Scrape.ParamsNeverNone(page, slug, MovementsLedger, now);
  }

  /** get_card_resume from end to end: without a token it raises the
      lookup's fault; with one it is what the one-space balance table of the
      ledger page answered for that token gives. So a resume record comes
      back exactly when the token is there, the label is on that ledger page
      and its table decodes to a CardInfoResume. */
  lemma ResumeReadsLedgerPage(serve: Serve, card: string, now: Clock.Instant, slug: Slugify)
    requires Clock.Valid(now)
    ensures var ksi := Scrape.ReadKsi(serve(SessionRequest(card)));
      && (ksi.Raise? ==> ResumeOutcome(serve, card, now, slug) == Raise(ksi.fault))
      && (ksi.Ok? ==>
            ResumeOutcome(serve, card, now, slug) ==
            Scrape.ResumeFromPage(serve(CommerceRequest(LedgerParams(ksi.value, ResumeLedger, now))), slug))
    ensures var ksi := Scrape.ReadKsi(serve(SessionRequest(card)));
      var r := ResumeOutcome(serve, card, now, slug);
      (r.Ok? && r.value.Some?) <==>
        && ksi.Ok?
        && var ledgerPage := serve(CommerceRequest(LedgerParams(ksi.value, ResumeLedger, now)));
        && Scrape.ResumeAnchor in ledgerPage.tables
        && Utils.TableToDict(ledgerPage.tables[Scrape.ResumeAnchor], slug).Ok?
        && CardInfoResumeOf(Utils.TableToDict(ledgerPage.tables[Scrape.ResumeAnchor], slug).value).Ok?
  {
    var ksi := Scrape.ReadKsi(serve(SessionRequest(card)));
    Scrape.ParamsNeverNone(serve(SessionRequest(card)), slug, ResumeLedger, now);
    if ksi.Ok? {
      Scrape.ResumeOutcome(serve(CommerceRequest(LedgerParams(ksi.value, ResumeLedger, now))), slug);
    }
  }

  /** get_movements from end to end: without a token it raises the lookup's
      fault; with one, a list of movements comes back exactly when the
      history label is on the ledger page answered for that token and the
      movements extractor accepts its table, and it is that extractor's list. */
  lemma MovementsReadHistoryPage(serve: Serve, card: string, now: Clock.Instant, slug: Slugify)
    requires Clock.Valid(now)
    ensures var ksi := Scrape.ReadKsi(serve(SessionRequest(card)));
      ksi.Raise? ==> MovementsOutcome(serve, card, now, slug) == Raise(ksi.fault)
    ensures var ksi := Scrape.ReadKsi(serve(SessionRequest(card)));
      var r := MovementsOutcome(serve, card, now, slug);
      (r.Ok? && r.value.Some?) <==>
        && ksi.Ok?
        && var historyPage := serve(CommerceRequest(LedgerParams(ksi.value, MovementsLedger, now)));
        && Scrape.MovementsAnchor in historyPage.tables
        && Movements.MovementsFromTable(historyPage.tables[Scrape.MovementsAnchor], slug).Ok?
    ensures var ksi := Scrape.ReadKsi(serve(SessionRequest(card)));
      var r := MovementsOutcome(serve, card, now, slug);
      r.Ok? && r.value.Some? ==>
        var historyPage := serve(CommerceRequest(LedgerParams(ksi.value, MovementsLedger, now)));
        r.value.value == Movements.MovementsFromTable(historyPage.tables[Scrape.MovementsAnchor], slug).value
  {
    var ksi := Scrape.ReadKsi(serve(SessionRequest(card)));
    Scrape.ParamsNeverNone(serve(SessionRequest(card)), slug, MovementsLedger, now);
    if ksi.Ok? {
      Scrape.MovementsOutcome(serve(CommerceRequest(LedgerParams(ksi.value, MovementsLedger, now))), slug);
    }
  }

  /** get_card_resume_uses_charges from end to end: it raises only for a
      missing token or a short statistics table, and otherwise answers the
      two table_to_data readings of the ledger page answered for the token. */
  lemma StatsReadLedgerPage(serve: Serve, card: string, now: Clock.Instant, slug: Slugify)
    requires Clock.Valid(now)
    ensures var ksi := Scrape.ReadKsi(serve(SessionRequest(card)));
      var r := StatsOutcome(serve, card, now, slug);
      && (ksi.Raise? ==> r == Raise(ksi.fault))
      && (r.Raise? && ksi.Ok? ==> r.fault == ShortTable)
    ensures var ksi := Scrape.ReadKsi(serve(SessionRequest(card)));
      var r := StatsOutcome(serve, card, now, slug);
      r.Ok? <==>
        && ksi.Ok?
        && var ledgerPage := serve(CommerceRequest(LedgerParams(ksi.value, ResumeLedger, now)));
        && Utils.TableToData(ledgerPage, Scrape.UsesAnchor).Ok?
        && Utils.TableToData(ledgerPage, Scrape.ChargesAnchor).Ok?
    ensures var ksi := Scrape.ReadKsi(serve(SessionRequest(card)));
      var r := StatsOutcome(serve, card, now, slug);
      r.Ok? ==>
        var ledgerPage := serve(CommerceRequest(LedgerParams(ksi.value, ResumeLedger, now)));
        r.value == Some(CardStats(Utils.TableToData(ledgerPage, Scrape.UsesAnchor).value,
                                  Utils.TableToData(ledgerPage, Scrape.ChargesAnchor).value))
  {
    var ksi := Scrape.ReadKsi(serve(SessionRequest(card)));
    Scrape.ParamsNeverNone(serve(SessionRequest(card)), slug, ResumeLedger, now);
    if ksi.Ok? {
      Scrape.StatsOutcome(serve(CommerceRequest(LedgerParams(ksi.value, ResumeLedger, now))));
    }
  }

  /** Where None comes from: never from parameter building nor from the
      statistics operation; from the others only when the token is there
      and the anchor label is not on the page that was read. */
  lemma NoneMeansNoAnchor(serve: Serve, card: string, now: Clock.Instant, slug: Slugify)
    requires Clock.Valid(now)
    ensures ParamsOutcome(serve, card, ResumeLedger, now, slug) != Ok(None)
    ensures ParamsOutcome(serve, card, MovementsLedger, now, slug) != Ok(None)
    ensures StatsOutcome(serve, card, now, slug) != Ok(None)
    ensures var page := serve(SessionRequest(card));
      InfoOutcome(serve, card, false, slug) == Ok(None) <==> Scrape.ReadKsi(page).Ok? && Scrape.InfoAnchor !in page.tables
    ensures var page := serve(SessionRequest(card));
      ResumeOutcome(serve, card, now, slug) == Ok(None) <==>
        Scrape.ReadKsi(page).Ok? &&
        Scrape.ResumeAnchor !in serve(CommerceRequest(LedgerParams(Scrape.ReadKsi(page).value, ResumeLedger, now))).tables
    ensures var page := serve(SessionRequest(card));
      MovementsOutcome(serve, card, now, slug) == Ok(None) <==>
        Scrape.ReadKsi(page).Ok? &&
        Scrape.MovementsAnchor !in serve(CommerceRequest(LedgerParams(Scrape.ReadKsi(page).value, MovementsLedger, now))).tables
  {
    var page := serve(SessionRequest(card));
    Scrape.ParamsNeverNone(page, slug, ResumeLedger, now);
    Scrape.ParamsNeverNone(page, slug, MovementsLedger, now);
    if Scrape.ReadKsi(page).Ok? {
      Scrape.CardInfoOutcome(page, slug);
      var ksi := Scrape.ReadKsi(page).value;
      Scrape.ResumeOutcome(serve(CommerceRequest(LedgerParams(ksi, ResumeLedger, now))), slug);
      Scrape.MovementsOutcome(serve(CommerceRequest(LedgerParams(ksi, MovementsLedger, now))), slug);
    } else {
      Scrape.MissingKsiRaises(page, false, slug);
    }
  }
}
