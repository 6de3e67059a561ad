/** The requests the card client sends to the portal, and the log of them. */
module Portal {
  import opened Models
  import Clock

  /** A GET to one of the portal's servlets, described by what it carries:
      the session lookup of a card number, or a ledger query with its
      parameter set. Service and Query give the servlet and the query string. */
  datatype Request = SessionRequest(cardNumber: string) | CommerceRequest(ledgerParams: ComercialesParams)
  {
    function Service(): Service {
      if SessionRequest? then SessionService else CommerceService
    }

    function Query(): map<string, Param> {
      if SessionRequest? then SessionLookupParams(cardNumber) else ledgerParams.ToDict()
    }
  }

  /** What a client does on the wire: opening a session (with its priming
      GET to the portal root) or sending a request on an open session. */
  datatype Event = Prime(session: nat) | Send(session: nat, request: Request)

  /** The (itemms, item, accion) triple a ledger query selects its page by. */
  datatype Ledger = Ledger(itemms: int, item: int, accion: int)

  /** Card resume and usage statistics read the same ledger page. */
  const ResumeLedger := Ledger(2000, 1, 6)

  /** Movements read the transaction history page. */
  const MovementsLedger := Ledger(3000, 2, 1)

  /** The session-lookup query string: fixed constants plus the card number. */
  function SessionLookupParams(cardNumber: string): (p: map<string, Param>)
    ensures p.Keys == {"accion", "NumDistribuidor", "NomUsuario", "NomHost", "NonDominio",
                       "RutUsuario", "NumTarjeta", "bloqueable"}
    ensures p["NumTarjeta"] == Str(cardNumber)
    ensures p["accion"] == Num(6) && p["NumDistribuidor"] == Num(99)
    ensures p["NomUsuario"] == Str("usuInternet") && p["NomHost"] == Str("AFT")
    ensures p["NonDominio"] == Str("aft.cl") && p["RutUsuario"] == Str("0")
    ensures p["bloqueable"] == Str("")
  {
    map["accion" := Num(6), "NumDistribuidor" := Num(99), "NomUsuario" := Str("usuInternet"),
        "NomHost" := Str("AFT"), "NonDominio" := Str("aft.cl"), "RutUsuario" := Str("0"),
        "NumTarjeta" := Str(cardNumber), "bloqueable" := Str("")]
  }

  /** Two session lookups go to the session servlet and differ in the card
      number only, so two lookups send the same query string exactly when
      they are for the same card. */
  lemma SessionLookupVariesInCardOnly(a: string, b: string)
    ensures SessionRequest(a).Service().Path() == "SesionPortalServlet"
    ensures SessionRequest(a).Query() - {"NumTarjeta"} == SessionRequest(b).Query() - {"NumTarjeta"}
    ensures SessionRequest(a).Query() == SessionRequest(b).Query() <==> a == b
    ensures SessionRequest(a).Query()["accion"] == Num(6) && SessionRequest(a).Query()["NumDistribuidor"] == Num(99)
  {
    if SessionRequest(a).Query() == SessionRequest(b).Query() {
      assert SessionLookupParams(a)["NumTarjeta"] == SessionLookupParams(b)["NumTarjeta"];
    }
  }

  /** get_comerciales_params once the token is known: the token, the ledger
      triple, a 45-day window, an empty start date and the current time. */
  function LedgerParams(ksi: string, ledger: Ledger, now: Clock.Instant): ComercialesParams
    requires Clock.Valid(now)
  {
    ComercialesParams(ksi, ledger.accion, ledger.itemms, ledger.item, 45, Clock.Timestamp(now), "")
  }

  /** What a ledger query carries, whatever the token, triple and clock:
      KSI is the token, accion/itemms/item the triple, DiasMov is 45,
      FechaInicioMovimientos is empty and fechalogeo is the clock in
      fourteen digits, which give the clock back. */
  lemma LedgerQueryCarries(ksi: string, ledger: Ledger, now: Clock.Instant)
    requires Clock.Valid(now)
    ensures var q := CommerceRequest(LedgerParams(ksi, ledger, now));
      && q.Service().Path() == "ComercialesPortalServlet"
      && q.Query().Keys == {"KSI", "accion", "itemms", "item", "DiasMov", "fechalogeo", "FechaInicioMovimientos"}
      && q.Query()["KSI"] == Str(ksi)
      && q.Query()["accion"] == Num(ledger.accion)
      && q.Query()["itemms"] == Num(ledger.itemms)
      && q.Query()["item"] == Num(ledger.item)
      && q.Query()["DiasMov"] == Num(45)
      && q.Query()["FechaInicioMovimientos"] == Str("")
      && q.Query()["fechalogeo"].Str?
      && |q.Query()["fechalogeo"].s| == 14 && Clock.AllDigits(q.Query()["fechalogeo"].s)
      && Clock.ParseTimestamp(q.Query()["fechalogeo"].s) == now
  {
    Clock.TimestampRoundTrip(now);
  }
}
