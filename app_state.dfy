/** The list state of the app screen (App.tsx) and the patches applied to it
    once the remote store has answered. The store's answers are inputs: whether
    the call succeeded, and the rows it returned. */
module AppState {

  import opened Wrappers
  import opened Types
  import opened Sequences
  import Report
  import BoletoModal

  /** `DEFAULT_CATEGORIES`. */
  const DefaultCategories: seq<string> :=
    ["Habitação", "Lazer", "Saúde", "Educação", "Transporte", "Tecnologia", "Outros"]

  /** The connection indicator (`dbStatus`). */
  datatype DbStatus = Online | Offline | Checking

  /** The patch `markAsPaid` applies to one bill. */
  function Paid(b: Boleto): Boleto
  {
    b.(status := Pago, dataPagamento := Some(ReferenceDate))
  }

  /** Every bill with the id gets the mark-paid patch; the others stay as they are. */
  function MarkPaidById(boletos: seq<Boleto>, id: string): seq<Boleto>
  {
    if boletos == [] then []
    else [if boletos[0].id == id then Paid(boletos[0]) else boletos[0]] + MarkPaidById(boletos[1..], id)
  }

  /** The bills whose id differs from `id`, in list order. */
  function RemoveById(boletos: seq<Boleto>, id: string): seq<Boleto>
  {
    if boletos == [] then []
    else (if boletos[0].id != id then [boletos[0]] else []) + RemoveById(boletos[1..], id)
  }

  /** Every bill with the id is replaced by the submitted fields under that id;
      the others stay as they are. */
  function ReplaceById(boletos: seq<Boleto>, id: string, data: BoletoDraft): seq<Boleto>
  {
    if boletos == [] then []
    else [if boletos[0].id == id then WithId(data, boletos[0].id) else boletos[0]] + ReplaceById(boletos[1..], id, data)
  }

  /** `addCategory` on success: the name is appended unless it is already there. */
  function WithCategory(categories: seq<string>, name: string): seq<string>
  {
    if name in categories then categories else categories + [name]
  }

  /** The categories after a reload: the built-ins followed by the user's own
      names when there are any, the current list otherwise. */
  function ReloadedCategories(current: seq<string>, customNames: seq<string>): seq<string>
  {
    if |customNames| > 0 then DefaultCategories + customNames else current
  }

  /** Mark-paid patches exactly the bills with the id and nothing else. */
  lemma {:induction false} MarkPaidByIdAt(boletos: seq<Boleto>, id: string, i: nat)
    requires i < |boletos|
    ensures |MarkPaidById(boletos, id)| == |boletos|
    ensures MarkPaidById(boletos, id)[i] == if boletos[i].id == id then Paid(boletos[i]) else boletos[i]
  {
    if i > 0 {
      MarkPaidByIdAt(boletos[1..], id, i - 1);
    } else {
      MarkPaidByIdLength(boletos, id);
    }
  }

  lemma {:induction false} MarkPaidByIdLength(boletos: seq<Boleto>, id: string)
    ensures |MarkPaidById(boletos, id)| == |boletos|
  {
    if boletos != [] {
      MarkPaidByIdLength(boletos[1..], id);
    }
  }

  /** A bill marked paid is paid on the reference date, so the app's data
      invariant (paid exactly when a payment date is set) is kept. */
  lemma MarkPaidKeepsStatusInvariant(boletos: seq<Boleto>, id: string)
    requires forall i :: 0 <= i < |boletos| ==> StatusAgreesWithPayment(boletos[i])
    ensures forall i :: 0 <= i < |MarkPaidById(boletos, id)| ==> StatusAgreesWithPayment(MarkPaidById(boletos, id)[i])
  {
    MarkPaidByIdLength(boletos, id);
    forall i | 0 <= i < |boletos| ensures StatusAgreesWithPayment(MarkPaidById(boletos, id)[i]) {
      MarkPaidByIdAt(boletos, id, i);
    }
  }

  /** Delete keeps exactly the bills with another id, each as often as it
      occurs, in their order. */
  lemma {:induction false} RemoveByIdSpec(boletos: seq<Boleto>, id: string)
    ensures forall b :: b in RemoveById(boletos, id) <==> b in boletos && b.id != id
    ensures forall b :: multiset(RemoveById(boletos, id))[b] == if b.id != id then multiset(boletos)[b] else 0
    ensures IsSubsequence(RemoveById(boletos, id), boletos)
  {
    if boletos != [] {
      var rest := RemoveById(boletos[1..], id);
      RemoveByIdSpec(boletos[1..], id);
      assert boletos == [boletos[0]] + boletos[1..];
      if boletos[0].id != id {
        assert ([boletos[0]] + rest)[1..] == rest;
      } else {
        assert RemoveById(boletos, id) == rest;
        SubsequenceOfTail(rest, boletos);
      }
    }
  }

  /** The ids are the store's keys: no two bills share one. */
  predicate UniqueIds(boletos: seq<Boleto>)
  {
    forall i, j :: 0 <= i < j < |boletos| ==> boletos[i].id != boletos[j].id
  }

  /** With unique ids, deleting the bill at position `k` removes that one bill. */
  lemma {:induction false} RemoveUniqueId(boletos: seq<Boleto>, k: nat)
    requires k < |boletos| && UniqueIds(boletos)
    ensures RemoveById(boletos, boletos[k].id) == boletos[..k] + boletos[k + 1..]
  {
    var id := boletos[k].id;
    if k == 0 {
      RemoveAbsentId(boletos[1..], id);
    } else {
      RemoveUniqueId(boletos[1..], k - 1);
      assert boletos[1..][..k - 1] + boletos[1..][k..] == boletos[1..k] + boletos[k + 1..];
      assert boletos[..k] == [boletos[0]] + boletos[1..k];
    }
  }

  /** Deleting an id no bill has changes nothing. */
  lemma {:induction false} RemoveAbsentId(boletos: seq<Boleto>, id: string)
    requires forall i :: 0 <= i < |boletos| ==> boletos[i].id != id
    ensures RemoveById(boletos, id) == boletos
  {
    if boletos != [] {
      RemoveAbsentId(boletos[1..], id);
      assert boletos == [boletos[0]] + boletos[1..];
    }
  }

  /** Edit replaces the bills with the id by the submitted data under that id
      and leaves the length and every other bill alone. */
  lemma {:induction false} ReplaceByIdAt(boletos: seq<Boleto>, id: string, data: BoletoDraft, i: nat)
    requires i < |boletos|
    ensures |ReplaceById(boletos, id, data)| == |boletos|
    ensures ReplaceById(boletos, id, data)[i] == if boletos[i].id == id then WithId(data, id) else boletos[i]
    ensures ReplaceById(boletos, id, data)[i].id == boletos[i].id
  {
    if i > 0 {
      ReplaceByIdAt(boletos[1..], id, data, i - 1);
    } else {
      ReplaceByIdLength(boletos, id, data);
    }
  }

  lemma {:induction false} ReplaceByIdLength(boletos: seq<Boleto>, id: string, data: BoletoDraft)
    ensures |ReplaceById(boletos, id, data)| == |boletos|
  {
    if boletos != [] {
      ReplaceByIdLength(boletos[1..], id, data);
    }
  }

  /** Marking a bill paid leaves the projected total of the report as it was. */
  lemma {:induction false} MarkPaidKeepsTotal(boletos: seq<Boleto>, id: string)
    ensures Report.Total(MarkPaidById(boletos, id)) == Report.Total(boletos)
  {
    if boletos != [] {
      var h, t := boletos[0], boletos[1..];
      var h' := if h.id == id then Paid(h) else h;
      MarkPaidKeepsTotal(t, id);
      Report.TotalAppend([h'], MarkPaidById(t, id));
      Report.TotalAppend([h], t);
      Report.TotalSingleton(h);
      Report.TotalSingleton(h');
      assert boletos == [h] + t;
    }
  }

  /** With unique ids, deleting a bill takes exactly its amount off the
      projected total. */
  lemma DeleteTakesOffItsAmount(boletos: seq<Boleto>, k: nat)
    requires k < |boletos| && UniqueIds(boletos)
    ensures Report.Total(RemoveById(boletos, boletos[k].id)) == Report.Total(boletos) - boletos[k].valor
  {
    RemoveUniqueId(boletos, k);
    Report.TotalWithout(boletos, k);
  }

  /** Adding a category: the name is then present, what was there stays in
      front, a second add is a no-op, and no name is listed twice. */
  lemma WithCategorySpec(categories: seq<string>, name: string)
    ensures name in WithCategory(categories, name)
    ensures categories <= WithCategory(categories, name)
    ensures |WithCategory(categories, name)| == |categories| + (if name in categories then 0 else 1)
    ensures WithCategory(WithCategory(categories, name), name) == WithCategory(categories, name)
    ensures Distinct(categories) ==> Distinct(WithCategory(categories, name))
  {
  }

  /** The app's screen state. */
  class App {
    var boletos: seq<Boleto>
    var categories: seq<string>
    var boletoToEdit: Option<Boleto>
    var isModalOpen: bool
    var dbStatus: DbStatus
    var loading: bool

    /** The category list always starts with the built-in categories, so it is
        never empty and the form always has a first category to offer. */
    ghost predicate Valid()
      reads this
    {
      DefaultCategories <= categories
    }

    /** The `useState` initial values. */
    constructor ()
      ensures Valid()
      ensures boletos == [] && categories == DefaultCategories && boletoToEdit == None
      ensures !isModalOpen && dbStatus == Checking && loading
    {
      boletos := [];
      categories := DefaultCategories;
      boletoToEdit := None;
      isModalOpen := false;
      dbStatus := Checking;
      loading := true;
    }

    /** `fetchUserData` with the outcome of its two queries: an error in the
        bills query stops everything; bills that come back replace the list;
        an error in the categories query leaves the categories alone; custom
        names, when there are any, follow the built-ins. */
    method FetchUserData(boletosOk: bool, boletosData: Option<seq<Boleto>>,
                         categoriesOk: bool, customNames: seq<string>)
      requires Valid()
      modifies this`boletos, this`categories, this`dbStatus, this`loading
      ensures Valid()
      ensures boletos == if boletosOk && boletosData.Some? then boletosData.value else old(boletos)
      ensures categories == if boletosOk && categoriesOk then ReloadedCategories(old(categories), customNames)
                            else old(categories)
      ensures dbStatus == if boletosOk && categoriesOk then Online else Offline
      ensures !loading
    {
      dbStatus := Checking;
      if !boletosOk {
        dbStatus := Offline;
      } else {
        if boletosData.Some? {
          boletos := boletosData.value;
        }
        if !categoriesOk {
          dbStatus := Offline;
        } else {
          if |customNames| > 0 {
            categories := DefaultCategories + customNames;
          }
          dbStatus := Online;
        }
      }
      loading := false;
    }

    /** `markAsPaid(id)`: on success every bill with the id becomes paid on
        the reference date; on error the list is untouched. */
    method MarkAsPaid(id: string, success: bool)
      modifies this`boletos
      ensures boletos == if success then MarkPaidById(old(boletos), id) else old(boletos)
    {
      if success {
        boletos := MarkPaidById(boletos, id);
      }
    }

    /** `deleteBoleto(id)`: if the user confirms and the store succeeds, the
        bills with the id go; otherwise nothing changes (when the user does
        not confirm, the store is not called at all). */
    method DeleteBoleto(id: string, confirmed: bool, success: bool)
      modifies this`boletos
      ensures boletos == if confirmed && success then RemoveById(old(boletos), id) else old(boletos)
    {
      if confirmed {
        if success {
          boletos := RemoveById(boletos, id);
        }
      }
    }

    /** `handleSaveBoleto(data)`: with a bill being edited, success replaces
        it by the submitted data under its id; otherwise success appends the
        row the store returned (when it returned one). Either way the edit
        target is cleared. */
    method HandleSaveBoleto(data: BoletoDraft, success: bool, saved: Option<Boleto>)
      modifies this`boletos, this`boletoToEdit
      ensures old(boletoToEdit).Some? ==>
                boletos == if success then ReplaceById(old(boletos), old(boletoToEdit).value.id, data) else old(boletos)
      ensures old(boletoToEdit).None? ==>
                boletos == if success && saved.Some? then old(boletos) + [saved.value] else old(boletos)
      ensures boletoToEdit == None
    {
      if boletoToEdit.Some? {
        if success {
          boletos := ReplaceById(boletos, boletoToEdit.value.id, data);
        }
      } else {
        if success && saved.Some? {
          boletos := boletos + [saved.value];
        }
      }
      boletoToEdit := None;
    }

    /** `addCategory(name)`: nothing happens for a name already listed (the
        store is not called); otherwise success appends it. */
    method AddCategory(name: string, success: bool)
      requires Valid()
      modifies this`categories
      ensures Valid()
      ensures categories == if success then WithCategory(old(categories), name) else old(categories)
    {
      if name in categories {
        return;
      }
      if success {
        categories := categories + [name];
      }
    }

    /** The card's edit action: the bill becomes the edit target and the form opens. */
    method StartEdit(b: Boleto)
      modifies this`boletoToEdit, this`isModalOpen
      ensures boletoToEdit == Some(b) && isModalOpen
    {
      boletoToEdit := Some(b);
      isModalOpen := true;
    }

    /** The "new entry" button: the form opens with no edit target set. */
    method OpenNew()
      modifies this`isModalOpen
      ensures isModalOpen
    {
      isModalOpen := true;
    }

    /** The bill form as the app shows it: its inputs are the edit target and
        the app's categories. */
    method OpenBoletoForm(form: BoletoModal.BoletoForm)
      modifies form
      ensures form.formData == BoletoModal.InitialForm(boletoToEdit, categories)
    {
      form.Reset(boletoToEdit, categories);
    }

    /** A submit of the bill form the app shows. The app's categories start
        with the defaults, so the form always has a first category to fall
        back on. */
    method SubmitBoletoForm(form: BoletoModal.BoletoForm) returns (events: seq<BoletoModal.ModalEvent>)
      requires Valid()
      ensures events == match BoletoModal.Submit(form.formData, categories)
                        case Some(d) => [BoletoModal.Save(d), BoletoModal.Close]
                        case None => []
    {
      assert categories[0] == DefaultCategories[0];
      events := form.HandleSubmit(categories);
    }

    /** The form's `onClose`: it closes and forgets the edit target. */
    method CloseBoletoModal()
      modifies this`boletoToEdit, this`isModalOpen
      ensures boletoToEdit == None && !isModalOpen
    {
      isModalOpen := false;
      boletoToEdit := None;
    }
  }
}
