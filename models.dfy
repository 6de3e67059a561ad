/** The record shapes of the card client and the two portal services. */
module Models {
  import opened Wrappers

  /** The two servlets of the portal. */
  datatype Service = SessionService | CommerceService {
    function Path(): string {
      match this
      case SessionService => "SesionPortalServlet"
      case CommerceService => "ComercialesPortalServlet"
    }
  }

  /** A query-string value as the code writes it: a number or a string. */
  datatype Param = Num(n: int) | Str(s: string)

  /** The parameters of a ledger ("comerciales") query. */
  datatype ComercialesParams = ComercialesParams(
    ksi: string, accion: int, itemms: int, item: int,
    diasMov: int, fechalogeo: string, fechaInicioMovimientos: string)
  {
    /** to_dict(): the query string, under the portal's own parameter names. */
    function ToDict(): (d: map<string, Param>)
      ensures d.Keys == {"KSI", "accion", "itemms", "item", "DiasMov", "fechalogeo", "FechaInicioMovimientos"}
      ensures d["KSI"] == Str(ksi) && d["fechalogeo"] == Str(fechalogeo)
      ensures d["accion"] == Num(accion) && d["itemms"] == Num(itemms) && d["item"] == Num(item)
      ensures d["DiasMov"] == Num(diasMov) && d["FechaInicioMovimientos"] == Str(fechaInicioMovimientos)
    {
      map["KSI" := Str(ksi), "accion" := Num(accion), "itemms" := Num(itemms), "item" := Num(item),
          "DiasMov" := Num(diasMov), "fechalogeo" := Str(fechalogeo),
          "FechaInicioMovimientos" := Str(fechaInicioMovimientos)]
    }
  }

  /** The session token the session-lookup page carries. */
  datatype KSI = KSI(ksi: string)

  datatype CardInfo = CardInfo(noTarjeta: string, estadoDeContrato: string, saldoTarjeta: string, fechaSaldo: string)

  datatype CardInfoResume = CardInfoResume(noTarjeta: string, estadoTarjeta: string, tipoDeTarjeta: string, saldoTarjeta: string)

  datatype CardMovement = CardMovement(
    noTransaccion: string, movimiento: string, fechaYHora: string,
    lugar: string, monto: string, saldoTarjeta: string)

  datatype CardStat = CardStat(month: string, amount: string, count: string)

  /** The statistics bundle. Each side holds what the table extractor
      returned for its anchor: the records, or None when the anchor is absent. */
  datatype CardStats = CardStats(uses: Option<seq<CardStat>>, charges: Option<seq<CardStat>>)

  /** CardInfo.from_dict: every field is read from the key of the same name;
      keys the record does not declare are ignored. */
  function CardInfoOf(d: map<string, string>): (r: Result<CardInfo>)
    ensures r.Ok? <==> {"no_tarjeta", "estado_de_contrato", "saldo_tarjeta", "fecha_saldo"} <= d.Keys
    ensures r.Ok? ==> r.value == CardInfo(d["no_tarjeta"], d["estado_de_contrato"], d["saldo_tarjeta"], d["fecha_saldo"])
  {
    if "no_tarjeta" in d && "estado_de_contrato" in d && "saldo_tarjeta" in d && "fecha_saldo" in d
    then Ok(CardInfo(d["no_tarjeta"], d["estado_de_contrato"], d["saldo_tarjeta"], d["fecha_saldo"]))
    else Raise(RecordShape)
  }

  /** CardInfoResume.from_dict, read the same way. */
  function CardInfoResumeOf(d: map<string, string>): (r: Result<CardInfoResume>)
    ensures r.Ok? <==> {"no_tarjeta", "estado_tarjeta", "tipo_de_tarjeta", "saldo_tarjeta"} <= d.Keys
    ensures r.Ok? ==> r.value == CardInfoResume(d["no_tarjeta"], d["estado_tarjeta"], d["tipo_de_tarjeta"], d["saldo_tarjeta"])
  {
    if "no_tarjeta" in d && "estado_tarjeta" in d && "tipo_de_tarjeta" in d && "saldo_tarjeta" in d
    then Ok(CardInfoResume(d["no_tarjeta"], d["estado_tarjeta"], d["tipo_de_tarjeta"], d["saldo_tarjeta"]))
    else Raise(RecordShape)
  }

  /** The keyword names CardMovement's constructor accepts, in declaration order. */
  const MovementFields: seq<string> :=
    ["no_transaccion", "movimiento", "fecha_y_hora", "lugar", "monto", "saldo_tarjeta"]
}
