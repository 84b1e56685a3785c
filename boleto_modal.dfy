/** The bill form (components/BoletoModal.tsx): its text fields, how they are
    filled when the form opens, and the record a submit hands to `onSave`. */
module BoletoModal {

  import opened Wrappers
  import opened Types
  import Money

  /** `formData`: every field is the text of an input. */
  datatype FormData = FormData(
    titulo: string,
    categoria: string,
    subcategoria: string,
    valor: string,
    dataVencimento: string,
    dataPagamento: string,
    observacoes: string)

  /** The fields with a plain `onChange` handler (the category has its own). */
  datatype FormField = Titulo | Subcategoria | Valor | DataVencimento | DataPagamento | Observacoes

  /** What a submit does towards the parent: `onSave(record)`, then `onClose()`. */
  datatype ModalEvent = Save(draft: BoletoDraft) | Close

  /** The form of a bill being edited: its fields as text, an absent
      subcategory or payment date as the empty string. */
  function FormFromBoleto(b: Boleto): FormData
  {
    FormData(b.titulo, b.categoria, b.subcategoria.GetOr(""), Money.FormatCents(b.valor),
             b.dataVencimento, b.dataPagamento.GetOr(""), b.observacoes)
  }

  /** The form of a new bill: the first category, or the empty string when
      there is none, and everything else empty. */
  function BlankForm(categories: seq<string>): FormData
  {
    FormData("", if |categories| > 0 then categories[0] else "", "", "", "", "", "")
  }

  /** The effect that runs when the form opens or its inputs change. */
  function InitialForm(initialData: Option<Boleto>, categories: seq<string>): FormData
  {
    match initialData
    case Some(b) => FormFromBoleto(b)
    case None => BlankForm(categories)
  }

  /** The form with one field replaced by the typed text. */
  function SetField(form: FormData, field: FormField, value: string): FormData
  {
    match field
    case Titulo => form.(titulo := value)
    case Subcategoria => form.(subcategoria := value)
    case Valor => form.(valor := value)
    case DataVencimento => form.(dataVencimento := value)
    case DataPagamento => form.(dataPagamento := value)
    case Observacoes => form.(observacoes := value)
  }

  /** `currentSubcats`: the subcategories of the chosen category, none when
      the category has no entry. */
  function SubcategoryOptions(subcategories: map<string, seq<string>>, categoria: string): seq<string>
  {
    if categoria in subcategories then subcategories[categoria] else []
  }

  /** The values of the subcategory selector: "Nenhuma" (the empty value),
      then the options. */
  function SubcategoryChoices(subcategories: map<string, seq<string>>, categoria: string): (r: seq<string>)
    ensures "" in r
    ensures forall s :: s in r <==> s == "" || s in SubcategoryOptions(subcategories, categoria)
  {
    [""] + SubcategoryOptions(subcategories, categoria)
  }

  /** The browser lets the form submit only when the required inputs are
      filled: a title, an amount, a due date. The amount must also be one
      `Money.ParseCents` represents, which is this model's restriction. */
  predicate CanSubmit(form: FormData)
  {
    form.titulo != "" && Money.ParseCents(form.valor).Some? && form.dataVencimento != ""
  }

  /** The record `handleSubmit` passes to `onSave`, or `None` when the browser
      blocks the submit. An empty category field falls back to the first
      category, so one must exist then. */
  function Submit(form: FormData, categories: seq<string>): (r: Option<BoletoDraft>)
    requires form.categoria == "" ==> |categories| > 0
    ensures r.Some? <==> CanSubmit(form)
    ensures r.Some? ==> (r.value.status == Pago <==> form.dataPagamento != "")
    ensures r.Some? ==> (r.value.dataPagamento.None? <==> form.dataPagamento == "")
    ensures r.Some? ==> (r.value.dataPagamento.Some? ==> r.value.dataPagamento.value == form.dataPagamento)
    ensures r.Some? ==> r.value.categoria == if form.categoria != "" then form.categoria else categories[0]
    ensures r.Some? ==> Money.ParseCents(form.valor) == Some(r.value.valor)
  {
    if !CanSubmit(form) then None
    else
      var paid := form.dataPagamento != "";
      Some(BoletoDraft(
        form.titulo,
        if form.categoria != "" then form.categoria else categories[0],
        form.subcategoria,
        Money.ParseCents(form.valor).value,
        form.dataVencimento,
        if paid then Some(form.dataPagamento) else None,
        if paid then Pago else Pendente,
        form.observacoes))
  }

  /** A submitted record keeps the app's data rule: paid exactly when a
      payment date is given. */
  lemma SubmittedRecordIsConsistent(form: FormData, categories: seq<string>, id: string)
    requires form.categoria == "" ==> |categories| > 0
    requires CanSubmit(form)
    ensures StatusAgreesWithPayment(WithId(Submit(form, categories).value, id))
  {
  }

  /** A new form cannot be submitted untouched (its title and amount are
      empty); it starts on the first category. */
  lemma BlankFormIsNotSubmittable(categories: seq<string>)
    requires |categories| > 0
    ensures InitialForm(None, categories).categoria == categories[0]
    ensures Submit(InitialForm(None, categories), categories) == None
  {
    Money.ParseCentsEmpty();
  }

  /** Opening a bill for edit and submitting the form untouched gives back
      the same title, category, amount, dates and notes; the status is
      recomputed from the payment date; an absent subcategory comes back as
      the empty one. For a bill whose status agrees with its payment date, the
      list entry that results differs from the original only in that. */
  lemma EditFormRoundTrip(b: Boleto, categories: seq<string>)
    requires b.categoria == "" ==> |categories| > 0
    requires b.dataPagamento != Some("")
    ensures var r := Submit(InitialForm(Some(b), categories), categories);
            && (r.Some? <==> b.titulo != "" && b.dataVencimento != "")
            && (r.Some? ==>
                  && r.value.titulo == b.titulo
                  && r.value.categoria == (if b.categoria != "" then b.categoria else categories[0])
                  && r.value.subcategoria == b.subcategoria.GetOr("")
                  && r.value.valor == b.valor
                  && r.value.dataVencimento == b.dataVencimento
                  && r.value.dataPagamento == b.dataPagamento
                  && r.value.status == (if b.dataPagamento.Some? then Pago else Pendente)
                  && r.value.observacoes == b.observacoes)
    ensures var r := Submit(InitialForm(Some(b), categories), categories);
            r.Some? && b.categoria != "" && StatusAgreesWithPayment(b) ==>
              WithId(r.value, b.id) == b.(userId := None, subcategoria := Some(b.subcategoria.GetOr("")), createdAt := None)
  {
    Money.ParseFormatRoundTrip(b.valor);
  }

  /** The form's state. */
  class BoletoForm {
    var formData: FormData

    /** The `useState` initial value: every field empty. */
    constructor ()
      ensures formData == FormData("", "", "", "", "", "", "")
    {
      formData := FormData("", "", "", "", "", "", "");
    }

    /** The effect on `[initialData, isOpen, categories]`. */
    method Reset(initialData: Option<Boleto>, categories: seq<string>)
      modifies this
      ensures formData == InitialForm(initialData, categories)
    {
      match initialData {
        case Some(b) =>
          formData := FormFromBoleto(b);
        case None =>
          var firstCat := if |categories| > 0 then categories[0] else "";
          formData := FormData("", firstCat, "", "", "", "", "");
      }
    }

    /** Choosing a category clears the subcategory, which is always one of
        the selector's values for the new category. */
    method ChangeCategory(categoria: string, subcategories: map<string, seq<string>>)
      modifies this
      ensures formData == old(formData).(categoria := categoria, subcategoria := "")
      ensures formData.subcategoria in SubcategoryChoices(subcategories, formData.categoria)
    {
      formData := formData.(categoria := categoria, subcategoria := "");
    }

    /** Typing into any other field replaces that field only. */
    method ChangeField(field: FormField, value: string)
      modifies this
      ensures formData == SetField(old(formData), field, value)
    {
      formData := SetField(formData, field, value);
    }

    /** `handleSubmit`: when the browser lets the submit through, `onSave` is
        called once with the record and then `onClose`; otherwise nothing. */
    method HandleSubmit(categories: seq<string>) returns (events: seq<ModalEvent>)
      requires formData.categoria == "" ==> |categories| > 0
      ensures events == match Submit(formData, categories)
                        case Some(d) => [Save(d), Close]
                        case None => []
      ensures events != [] <==> CanSubmit(formData)
    {
      var r := Submit(formData, categories);
      if r.Some? {
        events := [Save(r.value), Close];
      } else {
        events := [];
      }
    }
  }
}
