/**
 * The backend-wired goals list (src/hooks/useMuralSonhos.tsx): add, update and
 * delete. Each operation issues one backend request whose outcome is a
 * parameter; the list changes only when it succeeds.
 */
module MuralHook {
  import opened Wrappers
  import opened Units
  import opened Lists
  import opened Session

  /** A `mural_sonhos` row as the hook keeps it. */
  datatype Sonho = Sonho(
    id: string,
    titulo: string,
    descricao: Option<string>,
    valor_meta: Cents,
    valor_atual: Cents,
    data_meta: Option<string>,
    prioridade: string,
    status: string,
    categoria: Option<string>,
    imagem_url: Option<string>)

  /** `Omit<Sonho, 'id'>`: what a caller hands to `addSonho`. */
  datatype NovoSonho = NovoSonho(
    titulo: string,
    descricao: Option<string>,
    valor_meta: Cents,
    valor_atual: Cents,
    data_meta: Option<string>,
    prioridade: string,
    status: string,
    categoria: Option<string>,
    imagem_url: Option<string>)

  /** The inserted object `{ user_id, ...novoSonho }`. */
  datatype SonhoInsert = SonhoInsert(user_id: string, sonho: NovoSonho)

  /** `Partial<Sonho>`: `None` is an absent key, `Some(None)` an explicit null. */
  datatype SonhoPatch = SonhoPatch(
    id: Option<string>,
    titulo: Option<string>,
    descricao: Option<Option<string>>,
    valor_meta: Option<Cents>,
    valor_atual: Option<Cents>,
    data_meta: Option<Option<string>>,
    prioridade: Option<string>,
    status: Option<string>,
    categoria: Option<Option<string>>,
    imagem_url: Option<Option<string>>)

  const NoChanges := SonhoPatch(None, None, None, None, None, None, None, None, None, None)

  function Id(s: Sonho): string { s.id }

  /** `{ ...sonho, ...sonhoAtualizado }`: the keys present in the patch win. */
  function Merge(s: Sonho, p: SonhoPatch): (r: Sonho)
    ensures p == NoChanges ==> r == s
    ensures p.id.None? ==> r.id == s.id
    ensures p.id.Some? ==> r.id == p.id.value
    ensures p.titulo.None? ==> r.titulo == s.titulo
    ensures p.titulo.Some? ==> r.titulo == p.titulo.value
    ensures p.descricao.None? ==> r.descricao == s.descricao
    ensures p.descricao.Some? ==> r.descricao == p.descricao.value
    ensures p.valor_meta.None? ==> r.valor_meta == s.valor_meta
    ensures p.valor_meta.Some? ==> r.valor_meta == p.valor_meta.value
    ensures p.valor_atual.None? ==> r.valor_atual == s.valor_atual
    ensures p.valor_atual.Some? ==> r.valor_atual == p.valor_atual.value
    ensures p.data_meta.None? ==> r.data_meta == s.data_meta
    ensures p.data_meta.Some? ==> r.data_meta == p.data_meta.value
    ensures p.prioridade.None? ==> r.prioridade == s.prioridade
    ensures p.prioridade.Some? ==> r.prioridade == p.prioridade.value
    ensures p.status.None? ==> r.status == s.status
    ensures p.status.Some? ==> r.status == p.status.value
    ensures p.categoria.None? ==> r.categoria == s.categoria
    ensures p.categoria.Some? ==> r.categoria == p.categoria.value
    ensures p.imagem_url.None? ==> r.imagem_url == s.imagem_url
    ensures p.imagem_url.Some? ==> r.imagem_url == p.imagem_url.value
  {
    Sonho(
      p.id.GetOr(s.id),
      p.titulo.GetOr(s.titulo),
      p.descricao.GetOr(s.descricao),
      p.valor_meta.GetOr(s.valor_meta),
      p.valor_atual.GetOr(s.valor_atual),
      p.data_meta.GetOr(s.data_meta),
      p.prioridade.GetOr(s.prioridade),
      p.status.GetOr(s.status),
      p.categoria.GetOr(s.categoria),
      p.imagem_url.GetOr(s.imagem_url))
  }

  /** Merging the same patch a second time changes nothing more. */
  lemma MergeIdempotent(s: Sonho, p: SonhoPatch)
    ensures Merge(Merge(s, p), p) == Merge(s, p)
  {
  }

  /** The hook's list of goals. */
  class SonhosStore {
    var sonhos: seq<Sonho>

    constructor ()
      ensures sonhos == []
    {
      sonhos := [];
    }

    /** `addSonho`: with a user, inserts `{ user_id, ...novo }` and on success puts the stored row first. */
    method Add(user: Option<User>, novo: NovoSonho, reply: Result<Sonho>) returns (sent: Option<SonhoInsert>)
      modifies this
      ensures user.None? ==> sent == None
      ensures user.Some? ==> sent == Some(SonhoInsert(user.value.id, novo))
      ensures sent.Some? && reply.Ok? ==> sonhos == [reply.value] + old(sonhos)
      ensures sent.None? || reply.Err? ==> sonhos == old(sonhos)
    {
      if user.None? {
        return None;
      }
      sent := Some(SonhoInsert(user.value.id, novo));
      if reply.Ok? {
        sonhos := [reply.value] + sonhos;
      }
    }

    /** `updateSonho`: sends the partial as it is and, on success, merges it into every entry with the id. */
    method Update(user: Option<User>, id: string, patch: SonhoPatch, reply: Result<()>) returns (sent: Option<SonhoPatch>)
      modifies this
      ensures user.None? ==> sent == None
      ensures user.Some? ==> sent == Some(patch)
      ensures sent.Some? && reply.Ok? ==> sonhos == UpdateById(old(sonhos), Id, id, patch, Merge)
      ensures sent.None? || reply.Err? ==> sonhos == old(sonhos)
    {
      if user.None? {
        return None;
      }
      sent := Some(patch);
      if reply.Ok? {
        sonhos := UpdateById(sonhos, Id, id, patch, Merge);
      }
    }

    /** `deleteSonho`: on success removes every entry with the id. */
    method Delete(user: Option<User>, id: string, reply: Result<()>) returns (sent: bool)
      modifies this
      ensures sent <==> user.Some?
      ensures sent && reply.Ok? ==> sonhos == WithoutId(old(sonhos), Id, id)
      ensures !sent || reply.Err? ==> sonhos == old(sonhos)
    {
      if user.None? {
        return false;
      }
      sent := true;
      if reply.Ok? {
        sonhos := WithoutId(sonhos, Id, id);
      }
    }
  }
}
