/**
 * The backend-wired credit-card list (src/hooks/useCartoesCredito.tsx). Each
 * operation issues one backend request; the request's outcome is a parameter,
 * and the list changes only when it succeeds.
 */
module CartoesHook {
  import opened Wrappers
  import opened Units
  import opened Lists
  import opened Session

  /** A `cartoes_credito` row as the hook keeps it. */
  datatype CartaoCredito = CartaoCredito(
    id: string,
    nome: string,
    limite: Cents,
    limite_usado: Cents,
    vencimento_fatura: Option<int>,
    melhor_dia_compra: Option<int>,
    ativo: bool)

  /** `Omit<CartaoCredito, 'id'>`: what a caller hands to `addCartao`. */
  datatype NovoCartao = NovoCartao(
    nome: string,
    limite: Cents,
    limite_usado: Cents,
    vencimento_fatura: Option<int>,
    melhor_dia_compra: Option<int>,
    ativo: bool)

  /** The inserted object `{ user_id, ...novoCartao }`. */
  datatype CartaoInsert = CartaoInsert(user_id: string, cartao: NovoCartao)

  /** `Partial<CartaoCredito>`: `None` is an absent key, `Some(None)` an explicit null. */
  datatype CartaoPatch = CartaoPatch(
    id: Option<string>,
    nome: Option<string>,
    limite: Option<Cents>,
    limite_usado: Option<Cents>,
    vencimento_fatura: Option<Option<int>>,
    melhor_dia_compra: Option<Option<int>>,
    ativo: Option<bool>)

  const NoChanges := CartaoPatch(None, None, None, None, None, None, None)

  function Id(c: CartaoCredito): string { c.id }

  /** `{ ...cartao, ...cartaoAtualizado }`: the keys present in the patch win. */
  function Merge(c: CartaoCredito, p: CartaoPatch): (r: CartaoCredito)
    ensures p == NoChanges ==> r == c
    ensures p.id.None? ==> r.id == c.id
    ensures p.id.Some? ==> r.id == p.id.value
    ensures p.nome.None? ==> r.nome == c.nome
    ensures p.nome.Some? ==> r.nome == p.nome.value
    ensures p.limite.None? ==> r.limite == c.limite
    ensures p.limite.Some? ==> r.limite == p.limite.value
    ensures p.limite_usado.None? ==> r.limite_usado == c.limite_usado
    ensures p.limite_usado.Some? ==> r.limite_usado == p.limite_usado.value
    ensures p.vencimento_fatura.None? ==> r.vencimento_fatura == c.vencimento_fatura
    ensures p.vencimento_fatura.Some? ==> r.vencimento_fatura == p.vencimento_fatura.value
    ensures p.melhor_dia_compra.None? ==> r.melhor_dia_compra == c.melhor_dia_compra
    ensures p.melhor_dia_compra.Some? ==> r.melhor_dia_compra == p.melhor_dia_compra.value
    ensures p.ativo.None? ==> r.ativo == c.ativo
    ensures p.ativo.Some? ==> r.ativo == p.ativo.value
  {
    CartaoCredito(
      p.id.GetOr(c.id),
      p.nome.GetOr(c.nome),
      p.limite.GetOr(c.limite),
      p.limite_usado.GetOr(c.limite_usado),
      p.vencimento_fatura.GetOr(c.vencimento_fatura),
      p.melhor_dia_compra.GetOr(c.melhor_dia_compra),
      p.ativo.GetOr(c.ativo))
  }

  /** Merging the same patch a second time changes nothing more. */
  lemma MergeIdempotent(c: CartaoCredito, p: CartaoPatch)
    ensures Merge(Merge(c, p), p) == Merge(c, p)
  {
  }

  /** The hook's state: the list and the loading flag. */
  class CartoesStore {
    var cartoes: seq<CartaoCredito>
    var loading: bool

    constructor ()
      ensures cartoes == [] && loading
    {
      cartoes := [];
      loading := true;
    }

    /**
     * `fetchCartoes`: without a user only `loading` is cleared; otherwise the
     * rows replace the list (none means empty), an error keeps the list, and
     * `loading` ends false either way.
     */
    method Fetch(user: Option<User>, reply: Result<Option<seq<CartaoCredito>>>)
      modifies this
      ensures user.Some? && reply.Ok? ==> cartoes == reply.value.GetOr([])
      ensures user.None? || reply.Err? ==> cartoes == old(cartoes)
      ensures !loading
    {
      if user.Some? && reply.Ok? {
        cartoes := reply.value.GetOr([]);
      }
      loading := false;
    }

    /**
     * `addCartao`: with a user, inserts `{ user_id, ...novo }` and on success puts
     * the stored row first; without a user nothing is sent.
     */
    method Add(user: Option<User>, novo: NovoCartao, reply: Result<CartaoCredito>) returns (sent: Option<CartaoInsert>)
      modifies this
      ensures user.None? ==> sent == None
      ensures user.Some? ==> sent == Some(CartaoInsert(user.value.id, novo))
      ensures sent.Some? && reply.Ok? ==> cartoes == [reply.value] + old(cartoes)
      ensures sent.None? || reply.Err? ==> cartoes == old(cartoes)
      ensures loading == old(loading)
    {
      if user.None? {
        return None;
      }
      sent := Some(CartaoInsert(user.value.id, novo));
      if reply.Ok? {
        cartoes := [reply.value] + cartoes;
      }
    }

    /**
     * `updateCartao`: sends the partial as it is and, on success, merges it into
     * every entry with the id; the other entries are untouched.
     */
    method Update(user: Option<User>, id: string, patch: CartaoPatch, reply: Result<()>) returns (sent: Option<CartaoPatch>)
      modifies this
      ensures user.None? ==> sent == None
      ensures user.Some? ==> sent == Some(patch)
      ensures sent.Some? && reply.Ok? ==> cartoes == UpdateById(old(cartoes), Id, id, patch, Merge)
      ensures sent.None? || reply.Err? ==> cartoes == old(cartoes)
      ensures loading == old(loading)
    {
      if user.None? {
        return None;
      }
      sent := Some(patch);
      if reply.Ok? {
        cartoes := UpdateById(cartoes, Id, id, patch, Merge);
      }
    }

    /** `deleteCartao`: on success removes every entry with the id. */
    method Delete(user: Option<User>, id: string, reply: Result<()>) returns (sent: bool)
      modifies this
      ensures sent <==> user.Some?
      ensures sent && reply.Ok? ==> cartoes == WithoutId(old(cartoes), Id, id)
      ensures !sent || reply.Err? ==> cartoes == old(cartoes)
      ensures loading == old(loading)
    {
      if user.None? {
        return false;
      }
      sent := true;
      if reply.Ok? {
        cartoes := WithoutId(cartoes, Id, id);
      }
    }
  }
}
