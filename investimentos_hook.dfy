/**
 * The backend-wired investment list (src/hooks/useInvestimentos.tsx). Only the
 * four kinds the database accepts may be stored; optional columns that are
 * falsy are sent as null.
 */
module InvestimentosHook {
  import opened Wrappers
  import opened Units
  import opened Lists
  import opened Session
  import opened JsValues

  /** An `investimentos` row as the hook keeps it. */
  datatype Investimento = Investimento(
    id: string,
    nome: string,
    tipo: string,
    valor_investido: Cents,
    valor_atual: Option<Cents>,
    data_investimento: string,
    vencimento: Option<string>,
    rentabilidade_esperada: Option<BasisPoints>,
    observacoes: Option<string>)

  /** `Omit<Investimento, 'id'>`: what a caller hands to `addInvestimento`. */
  datatype NovoInvestimento = NovoInvestimento(
    nome: string,
    tipo: string,
    valor_investido: Cents,
    valor_atual: Option<Cents>,
    data_investimento: string,
    vencimento: Option<string>,
    rentabilidade_esperada: Option<BasisPoints>,
    observacoes: Option<string>)

  /** The inserted object. */
  datatype InvestimentoInsert = InvestimentoInsert(
    user_id: string,
    nome: string,
    tipo: string,
    valor_investido: Cents,
    data_investimento: string,
    rentabilidade_esperada: Option<BasisPoints>,
    valor_atual: Option<Cents>,
    vencimento: Option<string>,
    observacoes: Option<string>)

  /** `Partial<Investimento>`: `None` is an absent key, `Some(None)` an explicit null. */
  datatype InvestimentoPatch = InvestimentoPatch(
    id: Option<string>,
    nome: Option<string>,
    tipo: Option<string>,
    valor_investido: Option<Cents>,
    valor_atual: Option<Option<Cents>>,
    data_investimento: Option<string>,
    vencimento: Option<Option<string>>,
    rentabilidade_esperada: Option<Option<BasisPoints>>,
    observacoes: Option<Option<string>>)

  /** The `updates` object sent to the backend; it never carries an id. */
  datatype InvestimentoUpdates = InvestimentoUpdates(
    nome: Option<string>,
    tipo: Option<string>,
    valor_investido: Option<Cents>,
    data_investimento: Option<string>,
    rentabilidade_esperada: Option<Option<BasisPoints>>,
    valor_atual: Option<Option<Cents>>,
    vencimento: Option<Option<string>>,
    observacoes: Option<Option<string>>)

  function Id(i: Investimento): string { i.id }

  /** `TIPOS_INVESTIMENTO`: the kinds the database constraint allows. */
  const TiposInvestimento: seq<string> := ["Renda Fixa", "Ações", "Fundos", "Criptomoedas"]

  /** `TIPOS_INVESTIMENTO.includes(tipo)`. */
  predicate TipoPermitido(tipo: string) {
    tipo in TiposInvestimento
  }

  /** The add guard: the kind must be one of the allowed four. */
  predicate AddAccepts(n: NovoInvestimento) {
    TipoPermitido(n.tipo)
  }

  /** The update guard: it rejects only a kind that is given, non-empty and not allowed. */
  predicate UpdateAccepts(p: InvestimentoPatch) {
    !(p.tipo.Some? && p.tipo.value != "" && !TipoPermitido(p.tipo.value))
  }

  /** Both guards agree on a non-empty kind; an empty kind is refused on add but let through on update. */
  lemma GuardsAgree(n: NovoInvestimento, p: InvestimentoPatch)
    requires p.tipo == Some(n.tipo)
    ensures n.tipo != "" ==> (AddAccepts(n) <==> UpdateAccepts(p))
    ensures n.tipo == "" ==> !AddAccepts(n) && UpdateAccepts(p)
  {
  }

  /** The object `addInvestimento` inserts: a missing or zero return or current value, and empty texts, become null. */
  function InsertPayload(user: User, n: NovoInvestimento): (p: InvestimentoInsert)
    ensures p.user_id == user.id && p.nome == n.nome && p.tipo == n.tipo
    ensures p.valor_investido == n.valor_investido && p.data_investimento == n.data_investimento
    ensures p.rentabilidade_esperada.Some? <==> n.rentabilidade_esperada.Some? && n.rentabilidade_esperada.value != 0
    ensures p.valor_atual.Some? <==> n.valor_atual.Some? && n.valor_atual.value != 0
    ensures p.vencimento.Some? <==> n.vencimento.Some? && n.vencimento.value != ""
    ensures p.observacoes.Some? <==> n.observacoes.Some? && n.observacoes.value != ""
    ensures p.rentabilidade_esperada.Some? ==> p.rentabilidade_esperada == n.rentabilidade_esperada
    ensures p.valor_atual.Some? ==> p.valor_atual == n.valor_atual
    ensures p.vencimento.Some? ==> p.vencimento == n.vencimento
    ensures p.observacoes.Some? ==> p.observacoes == n.observacoes
  {
    InvestimentoInsert(user.id, n.nome, n.tipo, n.valor_investido, n.data_investimento,
                       NumberOrNull(n.rentabilidade_esperada), NumberOrNull(n.valor_atual),
                       TextOrNull(n.vencimento), TextOrNull(n.observacoes))
  }

  /** The `updates` object: only the keys the caller gave (never `id`); falsy optional values become null. */
  function Updates(p: InvestimentoPatch): (u: InvestimentoUpdates)
    ensures u.nome == p.nome && u.tipo == p.tipo && u.valor_investido == p.valor_investido
    ensures u.data_investimento == p.data_investimento
    ensures u.rentabilidade_esperada.Some? <==> p.rentabilidade_esperada.Some?
    ensures u.valor_atual.Some? <==> p.valor_atual.Some?
    ensures u.vencimento.Some? <==> p.vencimento.Some?
    ensures u.observacoes.Some? <==> p.observacoes.Some?
    ensures p.rentabilidade_esperada.Some? ==> u.rentabilidade_esperada.value == NumberOrNull(p.rentabilidade_esperada.value)
    ensures p.valor_atual.Some? ==> u.valor_atual.value == NumberOrNull(p.valor_atual.value)
    ensures p.vencimento.Some? ==> u.vencimento.value == TextOrNull(p.vencimento.value)
    ensures p.observacoes.Some? ==> u.observacoes.value == TextOrNull(p.observacoes.value)
  {
    InvestimentoUpdates(
      p.nome, p.tipo, p.valor_investido, p.data_investimento,
      if p.rentabilidade_esperada.Some? then Some(NumberOrNull(p.rentabilidade_esperada.value)) else None,
      if p.valor_atual.Some? then Some(NumberOrNull(p.valor_atual.value)) else None,
      if p.vencimento.Some? then Some(TextOrNull(p.vencimento.value)) else None,
      if p.observacoes.Some? then Some(TextOrNull(p.observacoes.value)) else None)
  }

  /** `{ ...investimento, ...updates }`: the keys present in the updates win; the id is kept. */
  function Merge(i: Investimento, u: InvestimentoUpdates): (r: Investimento)
    ensures r.id == i.id
    ensures u.nome.None? ==> r.nome == i.nome
    ensures u.nome.Some? ==> r.nome == u.nome.value
    ensures u.tipo.None? ==> r.tipo == i.tipo
    ensures u.tipo.Some? ==> r.tipo == u.tipo.value
    ensures u.valor_investido.None? ==> r.valor_investido == i.valor_investido
    ensures u.valor_investido.Some? ==> r.valor_investido == u.valor_investido.value
    ensures u.data_investimento.None? ==> r.data_investimento == i.data_investimento
    ensures u.data_investimento.Some? ==> r.data_investimento == u.data_investimento.value
    ensures u.rentabilidade_esperada.None? ==> r.rentabilidade_esperada == i.rentabilidade_esperada
    ensures u.rentabilidade_esperada.Some? ==> r.rentabilidade_esperada == u.rentabilidade_esperada.value
    ensures u.valor_atual.None? ==> r.valor_atual == i.valor_atual
    ensures u.valor_atual.Some? ==> r.valor_atual == u.valor_atual.value
    ensures u.vencimento.None? ==> r.vencimento == i.vencimento
    ensures u.vencimento.Some? ==> r.vencimento == u.vencimento.value
    ensures u.observacoes.None? ==> r.observacoes == i.observacoes
    ensures u.observacoes.Some? ==> r.observacoes == u.observacoes.value
  {
    Investimento(
      i.id,
      u.nome.GetOr(i.nome),
      u.tipo.GetOr(i.tipo),
      u.valor_investido.GetOr(i.valor_investido),
      u.valor_atual.GetOr(i.valor_atual),
      u.data_investimento.GetOr(i.data_investimento),
      u.vencimento.GetOr(i.vencimento),
      u.rentabilidade_esperada.GetOr(i.rentabilidade_esperada),
      u.observacoes.GetOr(i.observacoes))
  }

  /**
   * An accepted update never gives an entry a non-empty kind outside the
   * allowed four unless the entry already had it.
   */
  lemma AcceptedUpdateKeepsKindsAllowed(i: Investimento, p: InvestimentoPatch)
    requires UpdateAccepts(p)
    requires i.tipo == "" || TipoPermitido(i.tipo)
    ensures var t := Merge(i, Updates(p)).tipo; t == "" || TipoPermitido(t)
  {
  }

  /** The hook's state: the list and the loading flag. */
  class InvestimentosStore {
    var investimentos: seq<Investimento>
    var loading: bool

    constructor ()
      ensures investimentos == [] && loading
    {
      investimentos := [];
      loading := true;
    }

    /** `fetchInvestimentos`: the rows replace the list on success; `loading` ends false either way. */
    method Fetch(user: Option<User>, reply: Result<Option<seq<Investimento>>>)
      modifies this
      ensures user.Some? && reply.Ok? ==> investimentos == reply.value.GetOr([])
      ensures user.None? || reply.Err? ==> investimentos == old(investimentos)
      ensures !loading
    {
      if user.Some? && reply.Ok? {
        investimentos := reply.value.GetOr([]);
      }
      loading := false;
    }

    /**
     * `addInvestimento`: without a user, or with a kind outside the allowed
     * four, nothing is sent; otherwise the payload is inserted and on success
     * the stored row goes first.
     */
    method Add(user: Option<User>, novo: NovoInvestimento, reply: Result<Investimento>)
      returns (sent: Option<InvestimentoInsert>)
      modifies this
      ensures user.None? || !AddAccepts(novo) ==> sent == None
      ensures user.Some? && AddAccepts(novo) ==> sent == Some(InsertPayload(user.value, novo))
      ensures sent.Some? && reply.Ok? ==> investimentos == [reply.value] + old(investimentos)
      ensures sent.None? || reply.Err? ==> investimentos == old(investimentos)
      ensures loading == old(loading)
    {
      if user.None? {
        return None;
      }
      if !TipoPermitido(novo.tipo) {
        return None;
      }
      sent := Some(InsertPayload(user.value, novo));
      if reply.Ok? {
        investimentos := [reply.value] + investimentos;
      }
    }

    /**
     * `updateInvestimento`: a given, non-empty kind outside the allowed four is
     * refused; otherwise the `updates` object is built key by key, sent and, on
     * success, merged into every entry with the id.
     */
    method Update(user: Option<User>, id: string, patch: InvestimentoPatch, reply: Result<()>)
      returns (sent: Option<InvestimentoUpdates>)
      modifies this
      ensures user.None? || !UpdateAccepts(patch) ==> sent == None
      ensures user.Some? && UpdateAccepts(patch) ==> sent == Some(Updates(patch))
      ensures sent.Some? && reply.Ok? ==> investimentos == UpdateById(old(investimentos), Id, id, Updates(patch), Merge)
      ensures sent.None? || reply.Err? ==> investimentos == old(investimentos)
      ensures loading == old(loading)
    {
      if user.None? {
        return None;
      }
      if patch.tipo.Some? && patch.tipo.value != "" && !TipoPermitido(patch.tipo.value) {
        return None;
      }
      var updates := InvestimentoUpdates(None, None, None, None, None, None, None, None);
      if patch.nome.Some? { updates := updates.(nome := patch.nome); }
      if patch.tipo.Some? { updates := updates.(tipo := patch.tipo); }
      if patch.valor_investido.Some? { updates := updates.(valor_investido := patch.valor_investido); }
      if patch.data_investimento.Some? { updates := updates.(data_investimento := patch.data_investimento); }
      if patch.rentabilidade_esperada.Some? {
        updates := updates.(rentabilidade_esperada := Some(NumberOrNull(patch.rentabilidade_esperada.value)));
      }
      if patch.valor_atual.Some? {
        updates := updates.(valor_atual := Some(NumberOrNull(patch.valor_atual.value)));
      }
      if patch.vencimento.Some? { updates := updates.(vencimento := Some(TextOrNull(patch.vencimento.value))); }
      if patch.observacoes.Some? { updates := updates.(observacoes := Some(TextOrNull(patch.observacoes.value))); }
      sent := Some(updates);
      if reply.Ok? {
        investimentos := UpdateById(investimentos, Id, id, updates, Merge);
      }
    }

    /** `deleteInvestimento`: on success removes every entry with the id. */
    method Delete(user: Option<User>, id: string, reply: Result<()>) returns (sent: bool)
      modifies this
      ensures sent <==> user.Some?
      ensures sent && reply.Ok? ==> investimentos == WithoutId(old(investimentos), Id, id)
      ensures !sent || reply.Err? ==> investimentos == old(investimentos)
      ensures loading == old(loading)
    {
      if user.None? {
        return false;
      }
      sent := true;
      if reply.Ok? {
        investimentos := WithoutId(investimentos, Id, id);
      }
    }
  }
}
