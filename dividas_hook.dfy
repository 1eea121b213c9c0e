/**
 * The backend-wired debt list (src/hooks/useDividas.tsx). The outstanding
 * balance `valor_restante` is kept by the backend: it is never sent, on insert
 * or on update.
 */
module DividasHook {
  import opened Wrappers
  import opened Units
  import opened Lists
  import opened Session
  import opened JsValues

  /** A `dividas` row as the hook keeps it. */
  datatype Divida = Divida(
    id: string,
    credor: string,
    valor_total: Cents,
    valor_pago: Cents,
    valor_restante: Cents,
    data_inicio: string,
    data_vencimento: Option<string>,
    taxa_juros: Option<BasisPoints>,
    status: string,
    observacoes: Option<string>)

  /** `Omit<Divida, 'id' | 'valor_restante'>`: what a caller hands to `addDivida`. */
  datatype NovaDivida = NovaDivida(
    credor: string,
    valor_total: Cents,
    valor_pago: Cents,
    data_inicio: string,
    data_vencimento: Option<string>,
    taxa_juros: Option<BasisPoints>,
    status: string,
    observacoes: Option<string>)

  /** The inserted object: every column but `id` and `valor_restante`. */
  datatype DividaInsert = DividaInsert(
    user_id: string,
    credor: string,
    valor_total: Cents,
    valor_pago: Cents,
    data_inicio: string,
    data_vencimento: Option<string>,
    taxa_juros: Option<BasisPoints>,
    status: string,
    observacoes: Option<string>)

  /** `Partial<Divida>` as a caller hands it to `updateDivida`; `None` is an absent key. */
  datatype DividaPatch = DividaPatch(
    id: Option<string>,
    credor: Option<string>,
    valor_total: Option<Cents>,
    valor_pago: Option<Cents>,
    valor_restante: Option<Cents>,
    data_inicio: Option<string>,
    data_vencimento: Option<string>,
    taxa_juros: Option<BasisPoints>,
    status: Option<string>,
    observacoes: Option<string>)

  /** The `updates` object sent to the backend; `Some(None)` is a key set to null. */
  datatype DividaUpdates = DividaUpdates(
    credor: Option<string>,
    valor_total: Option<Cents>,
    valor_pago: Option<Cents>,
    data_inicio: Option<string>,
    data_vencimento: Option<Option<string>>,
    taxa_juros: Option<Option<BasisPoints>>,
    status: Option<string>,
    observacoes: Option<Option<string>>)

  function Id(d: Divida): string { d.id }

  /**
   * The object `addDivida` inserts: an empty status becomes 'ativa', and an
   * empty due date, a missing or zero rate and empty notes become null.
   */
  function InsertPayload(user: User, d: NovaDivida): (p: DividaInsert)
    ensures p.user_id == user.id && p.credor == d.credor && p.data_inicio == d.data_inicio
    ensures p.valor_total == d.valor_total && p.valor_pago == d.valor_pago
    ensures p.status == (if d.status == "" then "ativa" else d.status)
    ensures p.taxa_juros.Some? <==> d.taxa_juros.Some? && d.taxa_juros.value != 0
    ensures p.taxa_juros.Some? ==> p.taxa_juros == d.taxa_juros
    ensures p.data_vencimento.Some? <==> d.data_vencimento.Some? && d.data_vencimento.value != ""
    ensures p.data_vencimento.Some? ==> p.data_vencimento == d.data_vencimento
    ensures p.observacoes.Some? <==> d.observacoes.Some? && d.observacoes.value != ""
    ensures p.observacoes.Some? ==> p.observacoes == d.observacoes
  {
    DividaInsert(user.id, d.credor, d.valor_total, d.valor_pago, d.data_inicio,
                 TextOrNull(d.data_vencimento), NumberOrNull(d.taxa_juros),
                 TextOr(d.status, "ativa"), TextOrNull(d.observacoes))
  }

  /**
   * The `updates` object: only the keys the caller gave, never `id` or
   * `valor_restante`; an empty due date, a zero rate or empty notes become null.
   */
  function Updates(p: DividaPatch): (u: DividaUpdates)
    ensures u.credor == p.credor && u.valor_total == p.valor_total && u.valor_pago == p.valor_pago
    ensures u.data_inicio == p.data_inicio && u.status == p.status
    ensures u.data_vencimento.Some? <==> p.data_vencimento.Some?
    ensures u.taxa_juros.Some? <==> p.taxa_juros.Some?
    ensures u.observacoes.Some? <==> p.observacoes.Some?
    ensures p.taxa_juros.Some? ==> (u.taxa_juros.value.None? <==> p.taxa_juros.value == 0)
    ensures p.data_vencimento.Some? ==> (u.data_vencimento.value.None? <==> p.data_vencimento.value == "")
    ensures p.observacoes.Some? ==> (u.observacoes.value.None? <==> p.observacoes.value == "")
    ensures p.taxa_juros.Some? && p.taxa_juros.value != 0 ==> u.taxa_juros == Some(p.taxa_juros)
    ensures p.data_vencimento.Some? && p.data_vencimento.value != "" ==> u.data_vencimento == Some(p.data_vencimento)
    ensures p.observacoes.Some? && p.observacoes.value != "" ==> u.observacoes == Some(p.observacoes)
  {
    DividaUpdates(
      p.credor,
      p.valor_total,
      p.valor_pago,
      p.data_inicio,
      if p.data_vencimento.Some? then Some(TextOrNull(p.data_vencimento)) else None,
      if p.taxa_juros.Some? then Some(NumberOrNull(p.taxa_juros)) else None,
      p.status,
      if p.observacoes.Some? then Some(TextOrNull(p.observacoes)) else None)
  }

  /** `{ ...divida, ...updates }`: the keys present in the updates win. */
  function Merge(d: Divida, u: DividaUpdates): (r: Divida)
    ensures r.id == d.id && r.valor_restante == d.valor_restante
    ensures u.credor.None? ==> r.credor == d.credor
    ensures u.credor.Some? ==> r.credor == u.credor.value
    ensures u.valor_total.None? ==> r.valor_total == d.valor_total
    ensures u.valor_total.Some? ==> r.valor_total == u.valor_total.value
    ensures u.valor_pago.None? ==> r.valor_pago == d.valor_pago
    ensures u.valor_pago.Some? ==> r.valor_pago == u.valor_pago.value
    ensures u.data_inicio.None? ==> r.data_inicio == d.data_inicio
    ensures u.data_inicio.Some? ==> r.data_inicio == u.data_inicio.value
    ensures u.data_vencimento.None? ==> r.data_vencimento == d.data_vencimento
    ensures u.data_vencimento.Some? ==> r.data_vencimento == u.data_vencimento.value
    ensures u.taxa_juros.None? ==> r.taxa_juros == d.taxa_juros
    ensures u.taxa_juros.Some? ==> r.taxa_juros == u.taxa_juros.value
    ensures u.status.None? ==> r.status == d.status
    ensures u.status.Some? ==> r.status == u.status.value
    ensures u.observacoes.None? ==> r.observacoes == d.observacoes
    ensures u.observacoes.Some? ==> r.observacoes == u.observacoes.value
  {
    Divida(
      d.id,
      u.credor.GetOr(d.credor),
      u.valor_total.GetOr(d.valor_total),
      u.valor_pago.GetOr(d.valor_pago),
      d.valor_restante,
      u.data_inicio.GetOr(d.data_inicio),
      u.data_vencimento.GetOr(d.data_vencimento),
      u.taxa_juros.GetOr(d.taxa_juros),
      u.status.GetOr(d.status),
      u.observacoes.GetOr(d.observacoes))
  }

  /**
   * Whatever partial a caller passes, a successful update keeps every entry's id
   * and outstanding balance, and leaves the list's length and ids as they were.
   */
  lemma UpdateKeepsIdsAndBalances(ds: seq<Divida>, id: string, p: DividaPatch)
    ensures var r := UpdateById(ds, Id, id, Updates(p), Merge);
      |r| == |ds| &&
      forall i :: 0 <= i < |ds| ==> r[i].id == ds[i].id && r[i].valor_restante == ds[i].valor_restante
  {
  }

  /** The hook's state: the list and the loading flag. */
  class DividasStore {
    var dividas: seq<Divida>
    var loading: bool

    constructor ()
      ensures dividas == [] && loading
    {
      dividas := [];
      loading := true;
    }

    /** `fetchDividas`: the rows replace the list on success; `loading` ends false either way. */
    method Fetch(user: Option<User>, reply: Result<Option<seq<Divida>>>)
      modifies this
      ensures user.Some? && reply.Ok? ==> dividas == reply.value.GetOr([])
      ensures user.None? || reply.Err? ==> dividas == old(dividas)
      ensures !loading
    {
      if user.Some? && reply.Ok? {
        dividas := reply.value.GetOr([]);
      }
      loading := false;
    }

    /** `addDivida`: inserts the defaulted payload and on success puts the stored row first. */
    method Add(user: Option<User>, nova: NovaDivida, reply: Result<Divida>) returns (sent: Option<DividaInsert>)
      modifies this
      ensures user.None? ==> sent == None
      ensures user.Some? ==> sent == Some(InsertPayload(user.value, nova))
      ensures sent.Some? && reply.Ok? ==> dividas == [reply.value] + old(dividas)
      ensures sent.None? || reply.Err? ==> dividas == old(dividas)
      ensures loading == old(loading)
    {
      if user.None? {
        return None;
      }
      sent := Some(InsertPayload(user.value, nova));
      if reply.Ok? {
        dividas := [reply.value] + dividas;
      }
    }

    /**
     * `updateDivida`: builds the `updates` object key by key, sends it and, on
     * success, merges it into every entry with the id.
     */
    method Update(user: Option<User>, id: string, patch: DividaPatch, reply: Result<()>) returns (sent: Option<DividaUpdates>)
      modifies this
      ensures user.None? ==> sent == None
      ensures user.Some? ==> sent == Some(Updates(patch))
      ensures sent.Some? && reply.Ok? ==> dividas == UpdateById(old(dividas), Id, id, Updates(patch), Merge)
      ensures sent.None? || reply.Err? ==> dividas == old(dividas)
      ensures loading == old(loading)
    {
      if user.None? {
        return None;
      }
      var updates := DividaUpdates(None, None, None, None, None, None, None, None);
      if patch.credor.Some? { updates := updates.(credor := patch.credor); }
      if patch.valor_total.Some? { updates := updates.(valor_total := patch.valor_total); }
      if patch.valor_pago.Some? { updates := updates.(valor_pago := patch.valor_pago); }
      if patch.data_inicio.Some? { updates := updates.(data_inicio := patch.data_inicio); }
      if patch.data_vencimento.Some? {
        updates := updates.(data_vencimento := Some(TextOrNull(patch.data_vencimento)));
      }
      if patch.taxa_juros.Some? {
        updates := updates.(taxa_juros := Some(NumberOrNull(patch.taxa_juros)));
      }
      if patch.status.Some? { updates := updates.(status := patch.status); }
      if patch.observacoes.Some? {
        updates := updates.(observacoes := Some(TextOrNull(patch.observacoes)));
      }
      sent := Some(updates);
      if reply.Ok? {
        dividas := UpdateById(dividas, Id, id, updates, Merge);
      }
    }

    /** `deleteDivida`: on success removes every entry with the id. */
    method Delete(user: Option<User>, id: string, reply: Result<()>) returns (sent: bool)
      modifies this
      ensures sent <==> user.Some?
      ensures sent && reply.Ok? ==> dividas == WithoutId(old(dividas), Id, id)
      ensures !sent || reply.Err? ==> dividas == old(dividas)
      ensures loading == old(loading)
    {
      if user.None? {
        return false;
      }
      sent := true;
      if reply.Ok? {
        dividas := WithoutId(dividas, Id, id);
      }
    }
  }
}
