/**
 * The fixed-bills screen (src/pages/ContasFixas.tsx), which works on the
 * backend-wired list: the total, the pending and paid sub-lists, and the form
 * submit that routes to an insert or an update.
 */
module ContasPage {
  import opened Wrappers
  import opened Units
  import opened Lists
  import opened Session
  import opened ContasHook

  /** The dialog's fields. */
  datatype ContaForm = ContaForm(nome: string, valor: Input<Cents>, vencimento: Input<int>, categoria: string)

  const EmptyForm := ContaForm("", Blank, Blank, "")

  function Valor(c: ContaFixa): int { c.valor }
  function IsPendente(c: ContaFixa): bool { c.status == "pendente" }
  function IsPago(c: ContaFixa): bool { c.status == "pago" }

  /** `totalContasFixas`: every bill counts, whatever its status. */
  function TotalContasFixas(cs: seq<ContaFixa>): (total: Cents)
    ensures cs == [] ==> total == 0
    ensures (forall i :: 0 <= i < |cs| ==> cs[i].valor >= 0) ==>
      0 <= total && forall i :: 0 <= i < |cs| ==> cs[i].valor <= total
  {
    SumBoundsEach(cs, Valor);
    SumOf(cs, Valor)
  }

  /** `contasPendentes`. */
  function Pendentes(cs: seq<ContaFixa>): (r: seq<ContaFixa>)
    ensures forall i :: 0 <= i < |r| ==> r[i].status == "pendente" && r[i] in cs
    ensures forall i :: 0 <= i < |cs| && cs[i].status == "pendente" ==> cs[i] in r
  {
    Filter(cs, IsPendente)
  }

  /** `contasPagas`. */
  function Pagas(cs: seq<ContaFixa>): (r: seq<ContaFixa>)
    ensures forall i :: 0 <= i < |r| ==> r[i].status == "pago" && r[i] in cs
    ensures forall i :: 0 <= i < |cs| && cs[i].status == "pago" ==> cs[i] in r
  {
    Filter(cs, IsPago)
  }

  /**
   * `filter` keeps the pending bills in list order, each as often as it occurs: the
   * selection of a concatenation is the concatenation of the selections.
   */
  lemma PendentesOrder(a: seq<ContaFixa>, b: seq<ContaFixa>, x: ContaFixa)
    ensures Pendentes([]) == []
    ensures Pendentes([x]) == if x.status == "pendente" then [x] else []
    ensures Pendentes(a + b) == Pendentes(a) + Pendentes(b)
  {
    assert [x] == [x] + [];
    FilterAppend(a, b, IsPendente);
  }

  /**
   * `filter` keeps the paid bills in list order, each as often as it occurs: the
   * selection of a concatenation is the concatenation of the selections.
   */
  lemma PagasOrder(a: seq<ContaFixa>, b: seq<ContaFixa>, x: ContaFixa)
    ensures Pagas([]) == []
    ensures Pagas([x]) == if x.status == "pago" then [x] else []
    ensures Pagas(a + b) == Pagas(a) + Pagas(b)
  {
    assert [x] == [x] + [];
    FilterAppend(a, b, IsPago);
  }

  /**
   * When every bill is either paid or pending, the two sub-lists split the
   * bills: their sizes add up to the whole and so do their amounts.
   */
  lemma PendentesPagasPartition(cs: seq<ContaFixa>)
    requires forall i :: 0 <= i < |cs| ==> cs[i].status in {"pago", "pendente"}
    ensures |Pendentes(cs)| + |Pagas(cs)| == |cs|
    ensures SumOf(Pendentes(cs), Valor) + SumOf(Pagas(cs), Valor) == TotalContasFixas(cs)
  {
    FilterSame(cs, Not(IsPendente), IsPago);
    FilterPartition(cs, IsPendente);
    SumSplit(cs, IsPendente, Valor);
  }

  /** The required fields: all four. */
  predicate FormValid(f: ContaForm) {
    f.nome != "" && f.valor.Entered? && f.vencimento.Entered? && f.categoria != ""
  }

  /** `contaData` handed to `addConta`: a new bill is always pending. */
  function NovaContaOf(f: ContaForm): (n: NovaConta)
    requires FormValid(f)
    ensures n.status == "pendente"
    ensures n.nome == f.nome && n.valor == f.valor.value && n.vencimento == f.vencimento.value && n.categoria == f.categoria
  {
    NovaConta(f.nome, f.valor.value, f.vencimento.value, f.categoria, "pendente")
  }

  /** `contaData` handed to `updateConta`: every key is present and the status goes back to pending. */
  function PatchOf(f: ContaForm): (p: ContaPatch)
    requires FormValid(f)
    ensures p.id.None? && p.status == Some("pendente")
    ensures p.nome == Some(f.nome) && p.valor == Some(f.valor.value) && p.vencimento == Some(f.vencimento.value)
    ensures p.categoria == Some(f.categoria)
  {
    ContaPatch(None, Some(f.nome), Some(f.valor.value), Some(f.vencimento.value), Some(f.categoria), Some("pendente"))
  }

  /** Saving an edit keeps the bill's id and resets its status to pending, paid or not. */
  lemma EditedBillIsPending(c: ContaFixa, f: ContaForm)
    requires FormValid(f)
    ensures Merge(c, PatchOf(f)).id == c.id
    ensures Merge(c, PatchOf(f)).status == "pendente"
    ensures Merge(c, PatchOf(f)) == ContaFixa(c.id, f.nome, f.valor.value, f.vencimento.value, f.categoria, "pendente")
  {
  }

  /** `handleEdit`: the dialog filled from an existing bill. */
  function FormOf(c: ContaFixa): ContaForm {
    ContaForm(c.nome, Entered(c.valor), Entered(c.vencimento), c.categoria)
  }

  /** The request a submit sends to the backend, if any. */
  datatype Request = NoRequest | InsertRequest(insert: ContaInsert) | UpdateRequest(id: string, update: ContaUpdate)

  /** The page's state: the hook's list, the dialog's fields, the bill being edited and the dialog flag. */
  class ContasScreen {
    const store: ContasStore
    var form: ContaForm
    var editing: Option<ContaFixa>
    var dialogOpen: bool

    constructor (store: ContasStore)
      ensures this.store == store && form == EmptyForm && editing == None && !dialogOpen
    {
      this.store := store;
      form := EmptyForm;
      editing := None;
      dialogOpen := false;
    }

    /**
     * `handleSubmit`: with a field empty nothing happens. Otherwise the edited
     * bill's id is passed to `updateConta`, or `addConta` is called, with the
     * outcome the backend reports; then the dialog is reset whatever the outcome.
     */
    method Submit(user: Option<User>, addReply: Result<ContaRow>, updateReply: Result<()>) returns (request: Request)
      modifies this, store
      ensures !FormValid(old(form)) ==> request == NoRequest && unchanged(this) && unchanged(store)
      ensures FormValid(old(form)) && old(editing).Some? && user.Some? ==>
        request == UpdateRequest(old(editing).value.id, UpdatePayload(PatchOf(old(form))))
      ensures FormValid(old(form)) && old(editing).None? && user.Some? ==>
        request == InsertRequest(InsertPayload(user.value, NovaContaOf(old(form))))
      ensures user.None? ==> request == NoRequest && store.contas == old(store.contas)
      ensures FormValid(old(form)) && old(editing).Some? && user.Some? && updateReply.Ok? ==>
        store.contas == UpdateById(old(store.contas), Id, old(editing).value.id, PatchOf(old(form)), Merge)
      ensures FormValid(old(form)) && old(editing).None? && user.Some? && addReply.Ok? ==>
        store.contas == [Format(addReply.value)] + old(store.contas)
      ensures FormValid(old(form)) && old(editing).Some? && updateReply.Err? ==> store.contas == old(store.contas)
      ensures FormValid(old(form)) && old(editing).None? && addReply.Err? ==> store.contas == old(store.contas)
      ensures FormValid(old(form)) ==> form == EmptyForm && editing == None && !dialogOpen
      ensures store.loading == old(store.loading)
    {
      if !FormValid(form) {
        return NoRequest;
      }
      request := NoRequest;
      if editing.Some? {
        var sent := store.Update(user, editing.value.id, PatchOf(form), updateReply);
        if sent.Some? {
          request := UpdateRequest(editing.value.id, sent.value);
        }
      } else {
        var sent := store.Add(user, NovaContaOf(form), addReply);
        if sent.Some? {
          request := InsertRequest(sent.value);
        }
      }
      form := EmptyForm;
      editing := None;
      dialogOpen := false;
    }

    /** `handleEdit`: opens the dialog on an existing bill. */
    method StartEdit(c: ContaFixa)
      modifies this
      ensures editing == Some(c) && form == FormOf(c) && dialogOpen
    {
      editing := Some(c);
      form := FormOf(c);
      dialogOpen := true;
    }

    /** `handleDelete`: passes the id to `deleteConta`. */
    method Delete(user: Option<User>, id: string, reply: Result<()>) returns (sent: bool)
      modifies store
      ensures sent <==> user.Some?
      ensures sent && reply.Ok? ==> store.contas == WithoutId(old(store.contas), Id, id)
      ensures !sent || reply.Err? ==> store.contas == old(store.contas)
    {
      sent := store.Delete(user, id, reply);
    }
  }
}
