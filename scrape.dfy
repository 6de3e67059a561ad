/** What each operation of the card client reads from the one page the
    portal sent back: the session token, or a record taken from the table
    under the operation's anchor text. */
module Scrape {
  import opened Wrappers
  import opened Soup
  import opened Models
  import Portal
  import Clock
  import Utils
  import Movements
  import opened Text

  /** The balance label of the session-lookup page (two spaces). */
  const InfoAnchor := "Saldo  tarjeta:"
  /** The balance label of the ledger page (one space). The two labels
      differ in their seventh character, so neither page's label is ever
      found on the other page by mistake. */
  const ResumeAnchor := "Saldo tarjeta:"
  const MovementsAnchor := "Saldos y movimientos"
  const UsesAnchor := "Monto utilizado"
  const ChargesAnchor := "Monto cargado"

  /** ksi_input['value']: subscripting a missing element (None) or an
      element without a value attribute raises before any None test. */
  function ReadKsi(page: Page): (r: Result<string>)
    ensures r.Ok? <==> page.ksiInput.KsiInput? && page.ksiInput.value.Some?
    ensures r.Ok? ==> r.value == page.ksiInput.value.value
  {
    match page.ksiInput
    case NoKsiInput => Raise(NoKsiElement)
    case KsiInput(None) => Raise(NoKsiValue)
    case KsiInput(Some(v)) => Ok(v)
  }

  /** get_card_info answers either the token alone or the card record. */
  datatype CardInfoReply = KsiReply(ksi: KSI) | InfoReply(info: CardInfo)

  /** get_card_info after the session-lookup page arrived. */
  function CardInfoFromPage(page: Page, onlyKsi: bool, slug: Slugify): Result<Option<CardInfoReply>> {
    var ksi :- ReadKsi(page);
    if onlyKsi then Ok(Some(KsiReply(KSI(ksi))))
    else match page.Find(InfoAnchor)
      case None => Ok(None)
      case Some(table) =>
        var d :- Utils.TableToDict(table, slug);
        var info :- CardInfoOf(d);
        Ok(Some(InfoReply(info)))
  }

  /** get_comerciales_params after the session-lookup page arrived: the
      token, the ledger triple, 45 days and the clock. */
  function ParamsFromPage(page: Page, slug: Slugify, ledger: Portal.Ledger, now: Clock.Instant): Result<Option<ComercialesParams>>
    requires Clock.Valid(now)
  {
    var reply :- CardInfoFromPage(page, true, slug);
    Ok(ParamsOfReply(reply, ledger, now))
  }

  /** The parameter set made from a token reply; None for any other reply
      (which a token lookup never gives). */
  function ParamsOfReply(reply: Option<CardInfoReply>, ledger: Portal.Ledger, now: Clock.Instant): Option<ComercialesParams>
    requires Clock.Valid(now)
  {
    match reply
    case Some(KsiReply(k)) => Some(Portal.LedgerParams(k.ksi, ledger, now))
    case _ => None
  }

  /** get_card_resume after the ledger page arrived. */
  function ResumeFromPage(page: Page, slug: Slugify): Result<Option<CardInfoResume>> {
    match page.Find(ResumeAnchor)
    case None => Ok(None)
    case Some(table) =>
      var d :- Utils.TableToDict(table, slug);
      var resume :- CardInfoResumeOf(d);
      Ok(Some(resume))
  }

  /** get_movements after the history page arrived. */
  function MovementsFromPage(page: Page, slug: Slugify): Result<Option<seq<CardMovement>>> {
    match page.Find(MovementsAnchor)
    case None => Ok(None)
    case Some(table) =>
      var movements :- Movements.MovementsFromTable(table, slug);
      Ok(Some(movements))
  }

  /** get_card_resume_uses_charges after the ledger page arrived: uses first,
      then charges, each from its own anchor. */
  function StatsFromPage(page: Page): Result<CardStats> {
    var uses :- Utils.TableToData(page, UsesAnchor);
    var charges :- Utils.TableToData(page, ChargesAnchor);
    Ok(CardStats(uses, charges))
  }

  // ---------------------------------------------------------------------
  // Properties

  /** With only_ksi the reply is the token, read from the page's KSI
      element whatever tables the page holds; a missing element or value
      raises, so the reply is never None. */
  lemma TokenLookup(page: Page, slug: Slugify, tables: map<string, Table>, other: Slugify)
    ensures CardInfoFromPage(page, true, slug) == CardInfoFromPage(Page(page.ksiInput, tables), true, other)
    ensures page.ksiInput.NoKsiInput? ==> CardInfoFromPage(page, true, slug) == Raise(NoKsiElement)
    ensures page.ksiInput == KsiInput(None) ==> CardInfoFromPage(page, true, slug) == Raise(NoKsiValue)
    ensures page.ksiInput.KsiInput? && page.ksiInput.value.Some? ==>
      CardInfoFromPage(page, true, slug) == Ok(Some(KsiReply(KSI(page.ksiInput.value.value))))
  {
  }

  /** A missing KSI raises in the full lookup too, before any table is read. */
  lemma MissingKsiRaises(page: Page, onlyKsi: bool, slug: Slugify)
    ensures page.ksiInput.NoKsiInput? ==> CardInfoFromPage(page, onlyKsi, slug) == Raise(NoKsiElement)
    ensures page.ksiInput == KsiInput(None) ==> CardInfoFromPage(page, onlyKsi, slug) == Raise(NoKsiValue)
  {
  }

  /** The full lookup: None exactly when the token is there and the
      two-space balance label is not; otherwise the card record is the
      from_dict of the label/value pairs of the table under that label. */
  lemma CardInfoOutcome(page: Page, slug: Slugify)
    requires ReadKsi(page).Ok?
    ensures CardInfoFromPage(page, false, slug) == Ok(None) <==> InfoAnchor !in page.tables
    ensures InfoAnchor in page.tables ==>
      var d := Utils.TableToDict(page.tables[InfoAnchor], slug);
      CardInfoFromPage(page, false, slug) ==
        if d.Raise? then Raise(d.fault)
        else if CardInfoOf(d.value).Raise? then Raise(RecordShape)
        else Ok(Some(InfoReply(CardInfoOf(d.value).value)))
  {
  }

  /** A card record read off the usual two-row balance table: each field is
      the stripped cell right of the label that slugs to the field's name. */
  lemma {:induction false} CardInfoUsualLayout(page: Page, slug: Slugify, r0: seq<string>, r1: seq<string>)
    requires ReadKsi(page).Ok? && InfoAnchor in page.tables
    requires |page.tables[InfoAnchor]| >= 2
    requires page.tables[InfoAnchor][0] == r0 && page.tables[InfoAnchor][1] == r1
    requires |r0| == 4 && |r1| == 4
    requires slug(r0[0]) == "no_tarjeta" && slug(r0[2]) == "estado_de_contrato"
    requires slug(r1[0]) == "saldo_tarjeta" && slug(r1[2]) == "fecha_saldo"
    ensures CardInfoFromPage(page, false, slug) ==
      Ok(Some(InfoReply(CardInfo(Strip(r0[1]), Strip(r0[3]), Strip(r1[1]), Strip(r1[3])))))
  {
    var cells := r0 + r1;
    Utils.Parity(4);
    assert Utils.TableToDict(page.tables[InfoAnchor], slug) == Ok(Utils.PairDict(cells, slug, 4));
    assert Utils.Label(cells, 0) == r0[0] && Utils.Label(cells, 1) == r0[2];
    assert Utils.Label(cells, 2) == r1[0] && Utils.Label(cells, 3) == r1[2];
    assert Utils.Value(cells, 0) == r0[1] && Utils.Value(cells, 1) == r0[3];
    assert Utils.Value(cells, 2) == r1[1] && Utils.Value(cells, 3) == r1[3];
    Utils.PairDictLastWins(cells, slug, 4, 0);
    Utils.PairDictLastWins(cells, slug, 4, 1);
    Utils.PairDictLastWins(cells, slug, 4, 2);
    Utils.PairDictLastWins(cells, slug, 4, 3);
  }

  /** get_comerciales_params: the token is looked up with only_ksi, so the
      result is never None; it raises exactly when the token is missing and
      otherwise carries the token, the triple, 45 days and the clock. */
  lemma ParamsNeverNone(page: Page, slug: Slugify, ledger: Portal.Ledger, now: Clock.Instant)
    requires Clock.Valid(now)
    ensures ParamsFromPage(page, slug, ledger, now).Ok? <==> ReadKsi(page).Ok?
    ensures ParamsFromPage(page, slug, ledger, now).Raise? ==>
      ParamsFromPage(page, slug, ledger, now).fault == ReadKsi(page).fault
    ensures ParamsFromPage(page, slug, ledger, now).Ok? ==>
      ParamsFromPage(page, slug, ledger, now) == Ok(Some(Portal.LedgerParams(ReadKsi(page).value, ledger, now)))
  {
    TokenLookup(page, slug, page.tables, slug);
  }

  /** get_card_resume: None exactly when the one-space balance label is
      absent; otherwise the resume record of the table's label/value pairs. */
  lemma ResumeOutcome(page: Page, slug: Slugify)
    ensures ResumeFromPage(page, slug) == Ok(None) <==> ResumeAnchor !in page.tables
    ensures ResumeAnchor in page.tables ==>
      var d := Utils.TableToDict(page.tables[ResumeAnchor], slug);
      ResumeFromPage(page, slug) ==
        if d.Raise? then Raise(d.fault)
        else if CardInfoResumeOf(d.value).Raise? then Raise(RecordShape)
        else Ok(Some(CardInfoResumeOf(d.value).value))
  {
  }

  /** get_movements: None exactly when the history label is absent;
      otherwise what the movements extractor makes of the table under it
      (see Movements.MovementsKeyedByHeader for what a record holds). */
  lemma MovementsOutcome(page: Page, slug: Slugify)
    ensures MovementsFromPage(page, slug) == Ok(None) <==> MovementsAnchor !in page.tables
    ensures MovementsAnchor in page.tables ==>
      var r := Movements.MovementsFromTable(page.tables[MovementsAnchor], slug);
      MovementsFromPage(page, slug) == if r.Ok? then Ok(Some(r.value)) else Raise(r.fault)
  {
  }

  /** get_card_resume_uses_charges never answers None: uses come from the
      'Monto utilizado' table and charges from the 'Monto cargado' table,
      each None when its label is absent, and a short table raises. */
  lemma StatsOutcome(page: Page)
    ensures StatsFromPage(page).Ok? <==> Utils.TableToData(page, UsesAnchor).Ok? && Utils.TableToData(page, ChargesAnchor).Ok?
    ensures StatsFromPage(page).Ok? ==>
      && StatsFromPage(page).value.uses == Utils.TableToData(page, UsesAnchor).value
      && StatsFromPage(page).value.charges == Utils.TableToData(page, ChargesAnchor).value
    ensures StatsFromPage(page).Raise? ==>
      StatsFromPage(page).fault == ShortTable
  {
    Utils.TableToDataSpec(page, UsesAnchor);
    Utils.TableToDataSpec(page, ChargesAnchor);
  }
}
