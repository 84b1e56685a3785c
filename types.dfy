/** The records the app works with (types.ts) and its reference date (constants.ts). */
module Types {

  import opened Wrappers
  import Dates

  /** `PaymentStatus`: 'PAGO' or 'PENDENTE'. */
  datatype PaymentStatus = Pago | Pendente

  /** A bill ("boleto") as the store returns it and the list holds it.
      `valor` is in cents; the dates are "YYYY-MM-DD" text. */
  datatype Boleto = Boleto(
    id: string,
    userId: Option<string>,
    titulo: string,
    categoria: string,
    subcategoria: Option<string>,
    valor: int,
    dataVencimento: string,
    dataPagamento: Option<string>,
    status: PaymentStatus,
    observacoes: string,
    createdAt: Option<string>)

  /** What the edit form submits (`Omit<Boleto, 'id'>` as the form builds it):
      no id, owner or creation time, and a subcategory that is always present. */
  datatype BoletoDraft = BoletoDraft(
    titulo: string,
    categoria: string,
    subcategoria: string,
    valor: int,
    dataVencimento: string,
    dataPagamento: Option<string>,
    status: PaymentStatus,
    observacoes: string)

  /** The submitted fields stored under an existing id. The fields
      the draft lacks (owner, creation time) are absent from the result. */
  function WithId(d: BoletoDraft, id: string): Boleto
  {
    Boleto(id, None, d.titulo, d.categoria, Some(d.subcategoria), d.valor,
           d.dataVencimento, d.dataPagamento, d.status, d.observacoes, None)
  }

  /** The app's data rule for one bill: it is paid exactly when a payment
      date is recorded. */
  predicate StatusAgreesWithPayment(b: Boleto)
  {
    b.status == Pago <==> b.dataPagamento.Some?
  }

  /** One line of the per-category view of the report. */
  datatype CategoryTotal = CategoryTotal(categoria: string, total: int)

  /** `MacroReport`. */
  datatype MacroReport = MacroReport(
    visaoPorCategorias: seq<CategoryTotal>,
    totalProjetado: int,
    totalPago: int,
    percentualLiquidado: real)

  /** `REFERENCE_DATE`: the fixed "today" of the app. */
  const ReferenceDate: string := "2026-01-15"

  lemma ReferenceDateIsIsoDate()
    ensures Dates.IsIsoDate(ReferenceDate)
    ensures Dates.DayNumber(ReferenceDate) == 20260115
  {
    assert ReferenceDate[0..4] == "2026";
    assert ReferenceDate[5..7] == "01";
    assert ReferenceDate[8..10] == "15";
  }
}
