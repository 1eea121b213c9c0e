/**
 * The backend-wired income list (src/hooks/useGanhos.tsx). Category keys that
 * the page uses as plain words are not category ids, so they are sent as null.
 */
module GanhosHook {
  import opened Wrappers
  import opened Units
  import opened Lists
  import opened Session

  /** A `ganhos` row as the hook keeps it. */
  datatype Ganho = Ganho(
    id: string,
    descricao: string,
    valor: Cents,
    data_recebimento: string,
    categoria_id: Option<string>,
    recorrente: bool,
    observacoes: Option<string>)

  /** `Omit<Ganho, 'id'>`: what a caller hands to `addGanho`. */
  datatype NovoGanho = NovoGanho(
    descricao: string,
    valor: Cents,
    data_recebimento: string,
    categoria_id: Option<string>,
    recorrente: bool,
    observacoes: Option<string>)

  /** The inserted object. */
  datatype GanhoInsert = GanhoInsert(
    user_id: string,
    descricao: string,
    valor: Cents,
    data_recebimento: string,
    categoria_id: Option<string>,
    recorrente: bool,
    observacoes: Option<string>)

  /** `Partial<Ganho>`: `None` is an absent key, `Some(None)` an explicit null. */
  datatype GanhoPatch = GanhoPatch(
    id: Option<string>,
    descricao: Option<string>,
    valor: Option<Cents>,
    data_recebimento: Option<string>,
    categoria_id: Option<Option<string>>,
    recorrente: Option<bool>,
    observacoes: Option<Option<string>>)

  function Id(g: Ganho): string { g.id }

  /** The category words the income page offers; none of them is a category id. */
  const CategoryWords: seq<string> := ["salario", "freelance", "investimento", "extra"]

  /** `c && [...].includes(c) ? null : c`: a category word becomes null, anything else is kept. */
  function NormalizeCategoria(c: Option<string>): (r: Option<string>)
    ensures c.Some? && c.value in CategoryWords ==> r == None
    ensures !(c.Some? && c.value in CategoryWords) ==> r == c
    ensures r.Some? ==> r.value !in CategoryWords
  {
    if c.Some? && c.value != "" && c.value in CategoryWords then None else c
  }

  /** Normalising an already normalised category changes nothing. */
  lemma NormalizeIdempotent(c: Option<string>)
    ensures NormalizeCategoria(NormalizeCategoria(c)) == NormalizeCategoria(c)
  {
  }

  /** The object `addGanho` inserts. */
  function InsertPayload(user: User, g: NovoGanho): (p: GanhoInsert)
    ensures p.user_id == user.id
    ensures p.categoria_id == NormalizeCategoria(g.categoria_id)
    ensures p.descricao == g.descricao && p.valor == g.valor && p.data_recebimento == g.data_recebimento
    ensures p.recorrente == g.recorrente && p.observacoes == g.observacoes
  {
    GanhoInsert(user.id, g.descricao, g.valor, g.data_recebimento, NormalizeCategoria(g.categoria_id),
                g.recorrente, g.observacoes)
  }

  /** `updates = { ...ganhoAtualizado }` with a category word in `categoria_id` replaced by null. */
  function Normalized(p: GanhoPatch): (u: GanhoPatch)
    ensures u.categoria_id.Some? <==> p.categoria_id.Some?
    ensures p.categoria_id.Some? ==> u.categoria_id.value == NormalizeCategoria(p.categoria_id.value)
    ensures u.(categoria_id := p.categoria_id) == p
  {
    if p.categoria_id.Some? then p.(categoria_id := Some(NormalizeCategoria(p.categoria_id.value))) else p
  }

  /** `{ ...ganho, ...updates }`: the keys present in the patch win. */
  function Merge(g: Ganho, p: GanhoPatch): (r: Ganho)
    ensures p.id.None? ==> r.id == g.id
    ensures p.id.Some? ==> r.id == p.id.value
    ensures p.descricao.None? ==> r.descricao == g.descricao
    ensures p.descricao.Some? ==> r.descricao == p.descricao.value
    ensures p.valor.None? ==> r.valor == g.valor
    ensures p.valor.Some? ==> r.valor == p.valor.value
    ensures p.data_recebimento.None? ==> r.data_recebimento == g.data_recebimento
    ensures p.data_recebimento.Some? ==> r.data_recebimento == p.data_recebimento.value
    ensures p.categoria_id.None? ==> r.categoria_id == g.categoria_id
    ensures p.categoria_id.Some? ==> r.categoria_id == p.categoria_id.value
    ensures p.recorrente.None? ==> r.recorrente == g.recorrente
    ensures p.recorrente.Some? ==> r.recorrente == p.recorrente.value
    ensures p.observacoes.None? ==> r.observacoes == g.observacoes
    ensures p.observacoes.Some? ==> r.observacoes == p.observacoes.value
  {
    Ganho(
      p.id.GetOr(g.id),
      p.descricao.GetOr(g.descricao),
      p.valor.GetOr(g.valor),
      p.data_recebimento.GetOr(g.data_recebimento),
      p.categoria_id.GetOr(g.categoria_id),
      p.recorrente.GetOr(g.recorrente),
      p.observacoes.GetOr(g.observacoes))
  }

  /**
   * After a successful update, an entry that was updated never holds a
   * category word it did not already hold: the new category is normalised.
   */
  lemma MergedCategoryNormalized(g: Ganho, p: GanhoPatch)
    requires p.categoria_id.Some?
    ensures var c := Merge(g, Normalized(p)).categoria_id; c.Some? ==> c.value !in CategoryWords
  {
  }

  /** The hook's state: the list and the loading flag. */
  class GanhosStore {
    var ganhos: seq<Ganho>
    var loading: bool

    constructor ()
      ensures ganhos == [] && loading
    {
      ganhos := [];
      loading := true;
    }

    /** `fetchGanhos`: the rows replace the list on success; `loading` ends false either way. */
    method Fetch(user: Option<User>, reply: Result<Option<seq<Ganho>>>)
      modifies this
      ensures user.Some? && reply.Ok? ==> ganhos == reply.value.GetOr([])
      ensures user.None? || reply.Err? ==> ganhos == old(ganhos)
      ensures !loading
    {
      if user.Some? && reply.Ok? {
        ganhos := reply.value.GetOr([]);
      }
      loading := false;
    }

    /** `addGanho`: inserts the normalised payload and on success puts the stored row first. */
    method Add(user: Option<User>, novo: NovoGanho, reply: Result<Ganho>) returns (sent: Option<GanhoInsert>)
      modifies this
      ensures user.None? ==> sent == None
      ensures user.Some? ==> sent == Some(InsertPayload(user.value, novo))
      ensures sent.Some? && reply.Ok? ==> ganhos == [reply.value] + old(ganhos)
      ensures sent.None? || reply.Err? ==> ganhos == old(ganhos)
      ensures loading == old(loading)
    {
      if user.None? {
        return None;
      }
      sent := Some(InsertPayload(user.value, novo));
      if reply.Ok? {
        ganhos := [reply.value] + ganhos;
      }
    }

    /**
     * `updateGanho`: sends the normalised copy of the partial and, on success,
     * merges that same copy into every entry with the id.
     */
    method Update(user: Option<User>, id: string, patch: GanhoPatch, reply: Result<()>) returns (sent: Option<GanhoPatch>)
      modifies this
      ensures user.None? ==> sent == None
      ensures user.Some? ==> sent == Some(Normalized(patch))
      ensures sent.Some? && reply.Ok? ==> ganhos == UpdateById(old(ganhos), Id, id, Normalized(patch), Merge)
      ensures sent.None? || reply.Err? ==> ganhos == old(ganhos)
      ensures loading == old(loading)
    {
      if user.None? {
        return None;
      }
      var updates := patch;
      if updates.categoria_id.Some? && updates.categoria_id.value.Some?
         && updates.categoria_id.value.value != "" && updates.categoria_id.value.value in CategoryWords {
        updates := updates.(categoria_id := Some(None));
      }
      sent := Some(updates);
      if reply.Ok? {
        ganhos := UpdateById(ganhos, Id, id, updates, Merge);
      }
    }

    /** `deleteGanho`: on success removes every entry with the id. */
    method Delete(user: Option<User>, id: string, reply: Result<()>) returns (sent: bool)
      modifies this
      ensures sent <==> user.Some?
      ensures sent && reply.Ok? ==> ganhos == WithoutId(old(ganhos), Id, id)
      ensures !sent || reply.Err? ==> ganhos == old(ganhos)
      ensures loading == old(loading)
    {
      if user.None? {
        return false;
      }
      sent := true;
      if reply.Ok? {
        ganhos := WithoutId(ganhos, Id, id);
      }
    }
  }
}
