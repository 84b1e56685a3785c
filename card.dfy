/** The view model of one bill's card (components/BoletoCard.tsx). */
module BoletoCard {

  import opened Wrappers
  import opened Types
  import Dates
  import Text
  import AppState
  import BoletoModal

  /** The cut-off date the card compares with, written into the component;
      it is the same day as `REFERENCE_DATE`. */
  const OverdueCutoff: string := "2026-01-15"

  predicate IsPaid(b: Boleto)
  {
    b.status == Pago
  }

  /** Pending and due strictly before the cut-off. A due date that is not a
      well-formed date is never overdue (the comparison with NaN is false). */
  predicate IsOverdue(b: Boleto)
  {
    !IsPaid(b) && Dates.Before(b.dataVencimento, OverdueCutoff)
  }

  /** The buttons of the card, left to right. */
  datatype CardAction = Quitar | Editar | Excluir

  /** QUITAR (mark paid) for unpaid bills only; edit and delete always. */
  function Actions(b: Boleto): (r: seq<CardAction>)
    ensures Quitar in r <==> !IsPaid(b)
    ensures Editar in r && Excluir in r
    ensures r[|r| - 2..] == [Editar, Excluir]
  {
    (if !IsPaid(b) then [Quitar] else []) + [Editar, Excluir]
  }

  /** The subcategory badge shows only for a present, non-empty subcategory. */
  predicate ShowsSubcategoryBadge(b: Boleto)
  {
    b.subcategoria.Some? && b.subcategoria.value != ""
  }

  lemma OverdueIsNeverPaid(b: Boleto)
    ensures IsOverdue(b) ==> !IsPaid(b) && b.status == Pendente
  {
  }

  /** For a well-formed due date, overdue means pending and due before
      "2026-01-15" as strings. */
  lemma OverdueAsStringComparison(b: Boleto)
    requires Dates.IsIsoDate(b.dataVencimento)
    ensures IsOverdue(b) <==> b.status == Pendente && Text.LexLess(b.dataVencimento, OverdueCutoff)
  {
    ReferenceDateIsIsoDate();
    Dates.DateComparisonsAreStringComparisons(b.dataVencimento, OverdueCutoff);
  }

  /** A bill the app has just marked paid is no longer offered QUITAR, and
      is not overdue. */
  lemma MarkedPaidHidesQuitar(b: Boleto)
    ensures Quitar !in Actions(AppState.Paid(b))
    ensures !IsOverdue(AppState.Paid(b))
  {
  }

  /** A record submitted with "Nenhuma" shows no badge; one submitted with a
      subcategory shows it. */
  lemma BadgeFollowsSubmittedSubcategory(d: BoletoDraft, id: string)
    ensures ShowsSubcategoryBadge(WithId(d, id)) <==> d.subcategoria != ""
  {
  }

  /** Saving an edit form untouched keeps the badge as it was: an absent
      subcategory comes back empty, and both hide the badge. */
  lemma EditKeepsBadge(b: Boleto, categories: seq<string>)
    requires b.categoria == "" ==> |categories| > 0
    requires b.dataPagamento != Some("")
    requires b.titulo != "" && b.dataVencimento != ""
    ensures var r := BoletoModal.Submit(BoletoModal.InitialForm(Some(b), categories), categories);
            r.Some? && (ShowsSubcategoryBadge(WithId(r.value, b.id)) <==> ShowsSubcategoryBadge(b))
  {
    BoletoModal.EditFormRoundTrip(b, categories);
  }
}
