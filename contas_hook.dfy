/**
 * The backend-wired list of fixed bills (src/hooks/useContasFixas.tsx). Rows
 * are reshaped on the way in; inserts and updates send only name, amount, due
 * day and status, so the category a caller passes is kept locally only; and a
 * bill's status can be flipped between paid and pending.
 */
module ContasHook {
  import opened Wrappers
  import opened Units
  import opened Lists
  import opened Session

  /** A bill as the hook keeps it. */
  datatype ContaFixa = ContaFixa(
    id: string,
    nome: string,
    valor: Cents,
    vencimento: int,
    categoria: string,
    status: string)

  /** A `contas_fixas` row as the backend returns it. */
  datatype ContaRow = ContaRow(
    id: string,
    nome: string,
    valor: Cents,
    vencimento: int,
    categoria_id: Option<string>,
    status: string)

  /** `Omit<ContaFixa, 'id'>`: what a caller hands to `addConta`. */
  datatype NovaConta = NovaConta(nome: string, valor: Cents, vencimento: int, categoria: string, status: string)

  /** The inserted object: the category is not part of it. */
  datatype ContaInsert = ContaInsert(user_id: string, nome: string, valor: Cents, vencimento: int, status: string)

  /** `Partial<ContaFixa>`; `None` is an absent key. */
  datatype ContaPatch = ContaPatch(
    id: Option<string>,
    nome: Option<string>,
    valor: Option<Cents>,
    vencimento: Option<int>,
    categoria: Option<string>,
    status: Option<string>)

  /** The object `updateConta` sends: four keys, each absent when the partial lacks it. */
  datatype ContaUpdate = ContaUpdate(nome: Option<string>, valor: Option<Cents>, vencimento: Option<int>, status: Option<string>)

  function Id(c: ContaFixa): string { c.id }

  /** The row reshaping of `fetchContas` and `addConta`: a missing or empty category id reads as 'outros'. */
  function Format(r: ContaRow): (c: ContaFixa)
    ensures c.id == r.id && c.nome == r.nome && c.valor == r.valor && c.vencimento == r.vencimento
    ensures c.status == r.status
    ensures c.categoria == (if r.categoria_id.Some? && r.categoria_id.value != "" then r.categoria_id.value else "outros")
  {
    ContaFixa(r.id, r.nome, r.valor, r.vencimento,
              if r.categoria_id.Some? && r.categoria_id.value != "" then r.categoria_id.value else "outros",
              r.status)
  }

  /** The object `addConta` inserts. */
  function InsertPayload(user: User, n: NovaConta): (p: ContaInsert)
    ensures p.user_id == user.id && p.nome == n.nome && p.valor == n.valor
    ensures p.vencimento == n.vencimento && p.status == n.status
  {
    ContaInsert(user.id, n.nome, n.valor, n.vencimento, n.status)
  }

  /** The object `updateConta` sends: the partial without its id and category. */
  function UpdatePayload(p: ContaPatch): (u: ContaUpdate)
    ensures u.nome == p.nome && u.valor == p.valor && u.vencimento == p.vencimento && u.status == p.status
  {
    ContaUpdate(p.nome, p.valor, p.vencimento, p.status)
  }

  /** `{ ...conta, ...contaAtualizada }`: the whole partial is merged locally, category and id included. */
  function Merge(c: ContaFixa, p: ContaPatch): (r: ContaFixa)
    ensures p.id.None? ==> r.id == c.id
    ensures p.id.Some? ==> r.id == p.id.value
    ensures p.nome.None? ==> r.nome == c.nome
    ensures p.nome.Some? ==> r.nome == p.nome.value
    ensures p.valor.None? ==> r.valor == c.valor
    ensures p.valor.Some? ==> r.valor == p.valor.value
    ensures p.vencimento.None? ==> r.vencimento == c.vencimento
    ensures p.vencimento.Some? ==> r.vencimento == p.vencimento.value
    ensures p.categoria.None? ==> r.categoria == c.categoria
    ensures p.categoria.Some? ==> r.categoria == p.categoria.value
    ensures p.status.None? ==> r.status == c.status
    ensures p.status.Some? ==> r.status == p.status.value
  {
    ContaFixa(
      p.id.GetOr(c.id),
      p.nome.GetOr(c.nome),
      p.valor.GetOr(c.valor),
      p.vencimento.GetOr(c.vencimento),
      p.categoria.GetOr(c.categoria),
      p.status.GetOr(c.status))
  }

  /** The partial `{ status }` that `toggleStatus` passes on. */
  function StatusPatch(status: string): (p: ContaPatch)
    ensures p.status == Some(status)
    ensures forall c :: Merge(c, p) == c.(status := status)
  {
    ContaPatch(None, None, None, None, None, Some(status))
  }

  /** The status after a toggle: a paid bill becomes pending, anything else becomes paid. */
  function NextStatus(status: string): (s: string)
    ensures s == "pendente" <==> status == "pago"
    ensures s == "pago" <==> status != "pago"
  {
    if status == "pago" then "pendente" else "pago"
  }

  /** Toggling twice gives back a paid or pending status. */
  lemma NextStatusTwice(status: string)
    requires status == "pago" || status == "pendente"
    ensures NextStatus(NextStatus(status)) == status
  {
  }

  /**
   * The list after a successful `toggleStatus`: the first bill with the id
   * decides the new status, which every bill with that id receives; without
   * such a bill the list is unchanged.
   */
  function Toggled(cs: seq<ContaFixa>, id: string): (r: seq<ContaFixa>)
    ensures (forall i :: 0 <= i < |cs| ==> cs[i].id != id) ==> r == cs
    ensures |r| == |cs|
  {
    match FindById(cs, Id, id)
    case None => cs
    case Some(c) => UpdateById(cs, Id, id, StatusPatch(NextStatus(c.status)), Merge)
  }

  /** Ids that no two bills share. */
  predicate DistinctIds(cs: seq<ContaFixa>) {
    forall i, j :: 0 <= i < j < |cs| ==> cs[i].id != cs[j].id
  }

  /** With distinct ids, toggling a paid or pending bill twice restores the list. */
  lemma ToggleTwiceRestores(cs: seq<ContaFixa>, id: string)
    requires DistinctIds(cs)
    requires forall i :: 0 <= i < |cs| && cs[i].id == id ==> cs[i].status in {"pago", "pendente"}
    ensures Toggled(Toggled(cs, id), id) == cs
  {
    var k := FindIndex(cs, Id, id);
    if k < |cs| {
      var once := Toggled(cs, id);
      assert once[k] == Merge(cs[k], StatusPatch(NextStatus(cs[k].status)));
      assert FindIndex(once, Id, id) == k by {
        assert forall j :: 0 <= j < k ==> once[j] == cs[j];
      }
      var twice := Toggled(once, id);
      assert |twice| == |cs|;
      forall i | 0 <= i < |cs| ensures twice[i] == cs[i] {
        if cs[i].id == id {
          assert i == k;
        }
      }
    }
  }

  /** The hook's state: the list and the loading flag. */
  class ContasStore {
    var contas: seq<ContaFixa>
    var loading: bool

    constructor ()
      ensures contas == [] && loading
    {
      contas := [];
      loading := true;
    }

    /** `fetchContas`: the reshaped rows replace the list on success; `loading` ends false either way. */
    method Fetch(user: Option<User>, reply: Result<Option<seq<ContaRow>>>)
      modifies this
      ensures user.Some? && reply.Ok? ==> contas == Map(reply.value.GetOr([]), Format)
      ensures user.None? || reply.Err? ==> contas == old(contas)
      ensures !loading
    {
      if user.Some? && reply.Ok? {
        contas := Map(reply.value.GetOr([]), Format);
      }
      loading := false;
    }

    /** `addConta`: inserts name, amount, due day and status; on success the reshaped row goes first. */
    method Add(user: Option<User>, nova: NovaConta, reply: Result<ContaRow>) returns (sent: Option<ContaInsert>)
      modifies this
      ensures user.None? ==> sent == None
      ensures user.Some? ==> sent == Some(InsertPayload(user.value, nova))
      ensures sent.Some? && reply.Ok? ==> contas == [Format(reply.value)] + old(contas)
      ensures sent.None? || reply.Err? ==> contas == old(contas)
      ensures loading == old(loading)
    {
      if user.None? {
        return None;
      }
      sent := Some(InsertPayload(user.value, nova));
      if reply.Ok? {
        contas := [Format(reply.value)] + contas;
      }
    }

    /** `updateConta`: sends four keys and, on success, merges the whole partial into every bill with the id. */
    method Update(user: Option<User>, id: string, patch: ContaPatch, reply: Result<()>) returns (sent: Option<ContaUpdate>)
      modifies this
      ensures user.None? ==> sent == None
      ensures user.Some? ==> sent == Some(UpdatePayload(patch))
      ensures sent.Some? && reply.Ok? ==> contas == UpdateById(old(contas), Id, id, patch, Merge)
      ensures sent.None? || reply.Err? ==> contas == old(contas)
      ensures loading == old(loading)
    {
      if user.None? {
        return None;
      }
      sent := Some(UpdatePayload(patch));
      if reply.Ok? {
        contas := UpdateById(contas, Id, id, patch, Merge);
      }
    }

    /** `deleteConta`: on success removes every bill with the id. */
    method Delete(user: Option<User>, id: string, reply: Result<()>) returns (sent: bool)
      modifies this
      ensures sent <==> user.Some?
      ensures sent && reply.Ok? ==> contas == WithoutId(old(contas), Id, id)
      ensures !sent || reply.Err? ==> contas == old(contas)
      ensures loading == old(loading)
    {
      if user.None? {
        return false;
      }
      sent := true;
      if reply.Ok? {
        contas := WithoutId(contas, Id, id);
      }
    }

    /**
     * `toggleStatus`: finds the first bill with the id in the current list; if
     * there is none nothing happens, otherwise its flipped status is sent
     * through `updateConta`.
     */
    method Toggle(user: Option<User>, id: string, reply: Result<()>) returns (sent: Option<ContaUpdate>)
      modifies this
      ensures FindById(old(contas), Id, id).None? ==> sent == None && contas == old(contas)
      ensures FindById(old(contas), Id, id).Some? && user.Some? ==>
        sent == Some(ContaUpdate(None, None, None, Some(NextStatus(FindById(old(contas), Id, id).value.status))))
      ensures user.None? ==> sent == None
      ensures sent.Some? && reply.Ok? ==> contas == Toggled(old(contas), id)
      ensures sent.None? || reply.Err? ==> contas == old(contas)
      ensures loading == old(loading)
    {
      var conta := FindById(contas, Id, id);
      if conta.None? {
        return None;
      }
      var novoStatus := if conta.value.status == "pago" then "pendente" else "pago";
      sent := Update(user, id, StatusPatch(novoStatus), reply);
    }
  }
}
