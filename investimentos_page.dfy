/**
 * The investments screen (src/pages/Investimentos.tsx), which works on the
 * backend-wired list: the total, the per-kind distribution shown in the pie
 * chart, and the form submit with its defaults.
 */
module InvestimentosPage {
  import opened Wrappers
  import opened Units
  import opened Lists
  import opened Session
  import opened JsValues
  import opened InvestimentosHook

  datatype Icon = Landmark | BarChart2 | PiggyBank | TrendingUp

  /** `categoriasIcones[tipo] || categoriasIcones['Renda Fixa']`. */
  function CategoriaInfo(tipo: string): (info: (Icon, string))
    ensures tipo !in {"Ações", "Fundos", "Criptomoedas"} ==> info == (Landmark, "#3b82f6")
    ensures tipo == "Ações" ==> info == (BarChart2, "#f59e0b")
    ensures tipo == "Fundos" ==> info == (PiggyBank, "#10b981")
    ensures tipo == "Criptomoedas" ==> info == (TrendingUp, "#8b5cf6")
  {
    match tipo
    case "Ações" => (BarChart2, "#f59e0b")
    case "Fundos" => (PiggyBank, "#10b981")
    case "Criptomoedas" => (TrendingUp, "#8b5cf6")
    case _ => (Landmark, "#3b82f6")
  }

  function Tipo(i: Investimento): string { i.tipo }
  function ValorInvestido(i: Investimento): int { i.valor_investido }
  function TipoIs(t: string): Investimento -> bool { (i: Investimento) => i.tipo == t }

  /** `totalInvestido`. */
  function TotalInvestido(s: seq<Investimento>): (total: Cents)
    ensures s == [] ==> total == 0
    ensures (forall i :: 0 <= i < |s| ==> s[i].valor_investido >= 0) ==>
      0 <= total && forall i :: 0 <= i < |s| ==> s[i].valor_investido <= total
  {
    SumBoundsEach(s, ValorInvestido);
    SumOf(s, ValorInvestido)
  }

  /** One slice of the distribution chart. */
  datatype Fatia = Fatia(nome: string, valor: Cents, cor: string)

  function Nome(f: Fatia): string { f.nome }
  function FatiaValor(f: Fatia): int { f.valor }

  /** One step of the `distribuicaoData` reduce: add to the kind's slice, or open a new slice at the end. */
  function Accumulate(acc: seq<Fatia>, inv: Investimento): (r: seq<Fatia>)
    ensures |acc| <= |r| <= |acc| + 1
  {
    var k := FindIndex(acc, Nome, inv.tipo);
    if k < |acc| then acc[k := acc[k].(valor := acc[k].valor + inv.valor_investido)]
    else acc + [Fatia(inv.tipo, inv.valor_investido, CategoriaInfo(inv.tipo).1)]
  }

  /** The distribution of a list, folded from the left as the reduce does. */
  function Distribuicao(s: seq<Investimento>): seq<Fatia> {
    if s == [] then [] else Accumulate(Distribuicao(s[..|s| - 1]), s[|s| - 1])
  }

  /** The distribution has no more slices than there are investments, and at least one for a non-empty list. */
  lemma {:induction false} DistribuicaoSize(s: seq<Investimento>)
    ensures |Distribuicao(s)| <= |s|
    ensures s != [] ==> Distribuicao(s) != []
  {
    if s != [] {
      DistribuicaoSize(s[..|s| - 1]);
    }
  }

  /**
   * `distribuicaoData`: for each investment, search the slices for its kind;
   * add the amount to the slice found in place, or push a new slice.
   */
  method DistribuicaoData(investimentos: seq<Investimento>) returns (acc: seq<Fatia>)
    ensures acc == Distribuicao(investimentos)
  {
    acc := [];
    var i := 0;
    while i < |investimentos|
      invariant 0 <= i <= |investimentos|
      invariant acc == Distribuicao(investimentos[..i])
    {
      var inv := investimentos[i];
      ghost var before := acc;
      var j := 0;
      while j < |acc| && acc[j].nome != inv.tipo
        invariant 0 <= j <= |acc|
        invariant forall m :: 0 <= m < j ==> acc[m].nome != inv.tipo
      {
        j := j + 1;
      }
      FindIndexIs(acc, Nome, inv.tipo, j);
      if j < |acc| {
        acc := acc[j := acc[j].(valor := acc[j].valor + inv.valor_investido)];
      } else {
        acc := acc + [Fatia(inv.tipo, inv.valor_investido, CategoriaInfo(inv.tipo).1)];
      }
      assert acc == Accumulate(before, inv);
      assert investimentos[..i + 1] == investimentos[..i] + [inv];
      DistribuicaoStep(investimentos[..i], inv);
      i := i + 1;
    }
    assert investimentos[..i] == investimentos;
  }

  /** Where the kind first occurs in the list (`|s|` when it does not). */
  function FirstOf(s: seq<Investimento>, tipo: string): nat {
    FindIndex(s, Tipo, tipo)
  }

  /** Where the kind's slice is (`|g|` when there is none). */
  function SliceOf(g: seq<Fatia>, tipo: string): nat {
    FindIndex(g, Nome, tipo)
  }

  /** The shape of a distribution: one slice per kind of `s`, in first-appearance order. */
  ghost predicate OneSlicePerKind(s: seq<Investimento>, g: seq<Fatia>) {
    && (forall k1, k2 :: 0 <= k1 < k2 < |g| ==> g[k1].nome != g[k2].nome)
    && (forall k :: 0 <= k < |g| ==> FirstOf(s, g[k].nome) < |s|)
    && (forall i :: 0 <= i < |s| ==> SliceOf(g, s[i].tipo) < |g|)
    && (forall k1, k2 :: 0 <= k1 < k2 < |g| ==> FirstOf(s, g[k1].nome) < FirstOf(s, g[k2].nome))
  }

  /** The fold one investment at a time. */
  lemma DistribuicaoStep(p: seq<Investimento>, x: Investimento)
    ensures Distribuicao(p + [x]) == Accumulate(Distribuicao(p), x)
  {
    assert (p + [x])[..|p|] == p;
  }

  /** Appending an investment does not move the first occurrence of a kind already present. */
  lemma FirstOfAppend(p: seq<Investimento>, x: Investimento)
    ensures forall t :: FirstOf(p, t) < |p| ==> FirstOf(p + [x], t) == FirstOf(p, t)
  {
    forall t | FirstOf(p, t) < |p| ensures FirstOf(p + [x], t) == FirstOf(p, t) {
      FindIndexAppend(p, x, Tipo, t);
    }
  }

  /** Slices with the same names in the same places are searched alike. */
  lemma SameNamesSameSlices(g: seq<Fatia>, h: seq<Fatia>, tipo: string)
    requires |g| == |h| && forall m :: 0 <= m < |g| ==> g[m].nome == h[m].nome
    ensures SliceOf(h, tipo) == SliceOf(g, tipo)
  {
    FindIndexIs(h, Nome, tipo, SliceOf(g, tipo));
  }

  /** The reduce step for a kind that already has a slice. */
  lemma AccumulateFound(p: seq<Investimento>, g: seq<Fatia>, x: Investimento)
    requires OneSlicePerKind(p, g)
    requires SliceOf(g, x.tipo) < |g|
    ensures OneSlicePerKind(p + [x], Accumulate(g, x))
  {
    var s, g' := p + [x], Accumulate(g, x);
    var k := SliceOf(g, x.tipo);
    assert g' == g[k := g[k].(valor := g[k].valor + x.valor_investido)];
    FirstOfAppend(p, x);
    assert forall m :: 0 <= m < |g| ==> g'[m].nome == g[m].nome;
    forall i | 0 <= i < |s| ensures SliceOf(g', s[i].tipo) < |g'| {
      SameNamesSameSlices(g, g', s[i].tipo);
      if i < |p| {
        assert s[i] == p[i];
      }
    }
    forall m | 0 <= m < |g'| ensures FirstOf(s, g'[m].nome) == FirstOf(p, g[m].nome) < |p| {
    }
    forall k1, k2 | 0 <= k1 < k2 < |g'|
      ensures g'[k1].nome != g'[k2].nome && FirstOf(s, g'[k1].nome) < FirstOf(s, g'[k2].nome)
    {
    }
  }

  /** The reduce step for a kind seen for the first time. */
  lemma AccumulatePushed(p: seq<Investimento>, g: seq<Fatia>, x: Investimento)
    requires OneSlicePerKind(p, g)
    requires SliceOf(g, x.tipo) == |g|
    ensures OneSlicePerKind(p + [x], Accumulate(g, x))
  {
    var s, g' := p + [x], Accumulate(g, x);
    var n := Fatia(x.tipo, x.valor_investido, CategoriaInfo(x.tipo).1);
    assert g' == g + [n];
    FirstOfAppend(p, x);
    forall i | 0 <= i < |p| ensures p[i].tipo != x.tipo {
    }
    FindIndexIs(p, Tipo, x.tipo, |p|);
    FindIndexAppend(p, x, Tipo, x.tipo);
    assert FirstOf(s, x.tipo) == |p|;
    forall i | 0 <= i < |s| ensures SliceOf(g', s[i].tipo) < |g'| {
      FindIndexAppend(g, n, Nome, s[i].tipo);
      if i < |p| {
        assert s[i] == p[i];
      }
    }
    forall m | 0 <= m < |g'| ensures FirstOf(s, g'[m].nome) < |s| {
    }
    forall k1, k2 | 0 <= k1 < k2 < |g'| ensures FirstOf(s, g'[k1].nome) < FirstOf(s, g'[k2].nome) {
      if k2 == |g| {
        assert g'[k1] == g[k1];
      }
    }
  }

  /**
   * The distribution has exactly one slice per distinct kind: slice names are
   * distinct, each names a kind of the list, each kind of the list has a
   * slice, and slices come in the order their kinds first appear.
   */
  lemma {:induction false} DistribuicaoSlices(s: seq<Investimento>)
    ensures OneSlicePerKind(s, Distribuicao(s))
  {
    if s != [] {
      var p, x := s[..|s| - 1], s[|s| - 1];
      assert s == p + [x];
      DistribuicaoSlices(p);
      DistribuicaoStep(p, x);
      if SliceOf(Distribuicao(p), x.tipo) < |Distribuicao(p)| {
        AccumulateFound(p, Distribuicao(p), x);
      } else {
        AccumulatePushed(p, Distribuicao(p), x);
      }
    }
  }

  /** The total of the investments of one kind. */
  function TotalDoTipo(s: seq<Investimento>, tipo: string): Cents {
    SumOf(Filter(s, TipoIs(tipo)), ValorInvestido)
  }

  /** Appending an investment adds its amount to its own kind's total only. */
  lemma TotalDoTipoAppend(p: seq<Investimento>, x: Investimento, t: string)
    ensures TotalDoTipo(p + [x], t) == TotalDoTipo(p, t) + (if x.tipo == t then x.valor_investido else 0)
  {
    FilterAppend(p, [x], TipoIs(t));
    SumAppend(Filter(p, TipoIs(t)), Filter([x], TipoIs(t)), ValorInvestido);
    assert Filter([x], TipoIs(t)) == (if x.tipo == t then [x] else []) + Filter([], TipoIs(t));
  }

  /** One reduce step keeps every slice's amount equal to its kind's total. */
  lemma AccumulateValores(p: seq<Investimento>, g: seq<Fatia>, x: Investimento)
    requires OneSlicePerKind(p, g)
    requires forall k :: 0 <= k < |g| ==> g[k].valor == TotalDoTipo(p, g[k].nome)
    ensures forall k :: 0 <= k < |Accumulate(g, x)| ==>
      Accumulate(g, x)[k].valor == TotalDoTipo(p + [x], Accumulate(g, x)[k].nome)
  {
    if SliceOf(g, x.tipo) < |g| {
      ValoresFound(p, g, x);
    } else {
      ValoresPushed(p, g, x);
    }
  }

  /** `AccumulateValores` when the kind already has a slice: only that slice grows. */
  lemma ValoresFound(p: seq<Investimento>, g: seq<Fatia>, x: Investimento)
    requires forall k1, k2 :: 0 <= k1 < k2 < |g| ==> g[k1].nome != g[k2].nome
    requires forall k :: 0 <= k < |g| ==> g[k].valor == TotalDoTipo(p, g[k].nome)
    requires SliceOf(g, x.tipo) < |g|
    ensures forall k :: 0 <= k < |Accumulate(g, x)| ==>
      Accumulate(g, x)[k].valor == TotalDoTipo(p + [x], Accumulate(g, x)[k].nome)
  {
    var k0 := SliceOf(g, x.tipo);
    var g' := Accumulate(g, x);
    assert g' == g[k0 := g[k0].(valor := g[k0].valor + x.valor_investido)];
    forall k | 0 <= k < |g'| ensures g'[k].valor == TotalDoTipo(p + [x], g'[k].nome) {
      TotalDoTipoAppend(p, x, g[k].nome);
      if k < k0 {
        assert g[k].nome != g[k0].nome;
      } else if k > k0 {
        assert g[k0].nome != g[k].nome;
      }
    }
  }

  /** `AccumulateValores` for a new kind: no earlier investment has it, so its new slice holds just this amount. */
  lemma ValoresPushed(p: seq<Investimento>, g: seq<Fatia>, x: Investimento)
    requires forall i :: 0 <= i < |p| ==> SliceOf(g, p[i].tipo) < |g|
    requires forall k :: 0 <= k < |g| ==> g[k].valor == TotalDoTipo(p, g[k].nome)
    requires SliceOf(g, x.tipo) == |g|
    ensures forall k :: 0 <= k < |Accumulate(g, x)| ==>
      Accumulate(g, x)[k].valor == TotalDoTipo(p + [x], Accumulate(g, x)[k].nome)
  {
    var g' := Accumulate(g, x);
    assert g' == g + [Fatia(x.tipo, x.valor_investido, CategoriaInfo(x.tipo).1)];
    forall i | 0 <= i < |p| ensures !TipoIs(x.tipo)(p[i]) {
      assert SliceOf(g, p[i].tipo) < |g|;
    }
    FilterNone(p, TipoIs(x.tipo));
    forall k | 0 <= k < |g'| ensures g'[k].valor == TotalDoTipo(p + [x], g'[k].nome) {
      TotalDoTipoAppend(p, x, g'[k].nome);
      if k < |g| {
        assert g'[k] == g[k] && Nome(g[k]) != x.tipo;
      }
    }
  }

  /** Each slice's amount is the total invested in its kind. */
  lemma {:induction false} DistribuicaoValores(s: seq<Investimento>)
    ensures forall k :: 0 <= k < |Distribuicao(s)| ==>
      Distribuicao(s)[k].valor == TotalDoTipo(s, Distribuicao(s)[k].nome)
  {
    if s != [] {
      var p, x := s[..|s| - 1], s[|s| - 1];
      assert s == p + [x];
      DistribuicaoValores(p);
      DistribuicaoSlices(p);
      DistribuicaoStep(p, x);
      AccumulateValores(p, Distribuicao(p), x);
    }
  }

  /** One reduce step adds the investment's amount to the slices' sum. */
  lemma AccumulateTotal(g: seq<Fatia>, x: Investimento)
    ensures SumOf(Accumulate(g, x), FatiaValor) == SumOf(g, FatiaValor) + x.valor_investido
  {
    var k := SliceOf(g, x.tipo);
    if k < |g| {
      SumUpdate(g, k, g[k].(valor := g[k].valor + x.valor_investido), FatiaValor);
    } else {
      var n := Fatia(x.tipo, x.valor_investido, CategoriaInfo(x.tipo).1);
      assert (g + [n])[..|g|] == g;
    }
  }

  /** The slices add up to the total invested. */
  lemma {:induction false} DistribuicaoTotal(s: seq<Investimento>)
    ensures SumOf(Distribuicao(s), FatiaValor) == TotalInvestido(s)
  {
    if s != [] {
      DistribuicaoTotal(s[..|s| - 1]);
      AccumulateTotal(Distribuicao(s[..|s| - 1]), s[|s| - 1]);
    }
  }

  /** Each slice takes its kind's colour, the 'Renda Fixa' colour for an unknown kind. */
  lemma {:induction false} DistribuicaoCores(s: seq<Investimento>)
    ensures forall k :: 0 <= k < |Distribuicao(s)| ==>
      Distribuicao(s)[k].cor == CategoriaInfo(Distribuicao(s)[k].nome).1
  {
    if s != [] {
      DistribuicaoCores(s[..|s| - 1]);
    }
  }

  /** The dialog's fields. */
  datatype InvestimentoForm = InvestimentoForm(
    nome: string,
    valor_investido: Input<Cents>,
    rentabilidade_esperada: Input<BasisPoints>,
    data_investimento: string,
    tipo: string)

  const EmptyForm := InvestimentoForm("", Blank, Blank, "", "")

  /** The required fields: name, amount and kind. */
  predicate FormValid(f: InvestimentoForm) {
    f.nome != "" && f.valor_investido.Entered? && f.tipo != ""
  }

  /** The expected return as submitted: null for a blank field. */
  function Rentabilidade(f: InvestimentoForm): (r: Option<BasisPoints>)
    ensures r.None? <==> f.rentabilidade_esperada.Blank?
    ensures r.Some? ==> r.value == f.rentabilidade_esperada.value
  {
    if f.rentabilidade_esperada.Entered? then Some(f.rentabilidade_esperada.value) else None
  }

  /** `investimentoData` handed to `addInvestimento`: the other optional keys are absent. */
  function NovoOf(f: InvestimentoForm, today: string): (n: NovoInvestimento)
    requires FormValid(f)
    ensures n.nome == f.nome && n.tipo == f.tipo && n.valor_investido == f.valor_investido.value
    ensures n.rentabilidade_esperada == Rentabilidade(f)
    ensures n.data_investimento == if f.data_investimento == "" then today else f.data_investimento
    ensures n.valor_atual.None? && n.vencimento.None? && n.observacoes.None?
  {
    NovoInvestimento(f.nome, f.tipo, f.valor_investido.value, None,
                     TextOr(f.data_investimento, today), None, Rentabilidade(f), None)
  }

  /** `investimentoData` handed to `updateInvestimento`: five keys, the return possibly an explicit null. */
  function PatchOf(f: InvestimentoForm, today: string): (p: InvestimentoPatch)
    requires FormValid(f)
    ensures p.id.None? && p.nome == Some(f.nome) && p.tipo == Some(f.tipo)
    ensures p.valor_investido == Some(f.valor_investido.value)
    ensures p.rentabilidade_esperada == Some(Rentabilidade(f))
    ensures p.data_investimento == Some(if f.data_investimento == "" then today else f.data_investimento)
    ensures p.valor_atual.None? && p.vencimento.None? && p.observacoes.None?
  {
    InvestimentoPatch(None, Some(f.nome), Some(f.tipo), Some(f.valor_investido.value), None,
                      Some(TextOr(f.data_investimento, today)), None, Some(Rentabilidade(f)), None)
  }

  /** `handleEdit`: the dialog filled from an investment; a missing return shows as blank. */
  function FormOf(i: Investimento): InvestimentoForm {
    InvestimentoForm(
      i.nome, Entered(i.valor_investido),
      if i.rentabilidade_esperada.Some? then Entered(i.rentabilidade_esperada.value) else Blank,
      i.data_investimento, i.tipo)
  }

  /**
   * Opening an investment and saving it unchanged gives it back, provided its
   * date is set and its return is not 0 (a 0 return is sent as null).
   */
  lemma EditRoundTrip(i: Investimento, today: string)
    requires i.nome != "" && i.tipo != "" && i.data_investimento != ""
    requires i.rentabilidade_esperada != Some(0)
    ensures FormValid(FormOf(i))
    ensures Merge(i, Updates(PatchOf(FormOf(i), today))) == i
  {
  }

  /** A zero return does not survive an edit: it is stored as null. */
  lemma EditDropsZeroReturn(i: Investimento, today: string)
    requires i.nome != "" && i.tipo != ""
    requires i.rentabilidade_esperada == Some(0)
    ensures Merge(i, Updates(PatchOf(FormOf(i), today))).rentabilidade_esperada == None
  {
  }

  /** The request a submit sends to the backend, if any. */
  datatype Request = NoRequest | InsertRequest(insert: InvestimentoInsert) | UpdateRequest(id: string, update: InvestimentoUpdates)

  /** The page's state: the hook's list, the dialog's fields, the investment being edited and the dialog flag. */
  class InvestimentosScreen {
    const store: InvestimentosStore
    var form: InvestimentoForm
    var editing: Option<Investimento>
    var dialogOpen: bool

    constructor (store: InvestimentosStore)
      ensures this.store == store && form == EmptyForm && editing == None && !dialogOpen
    {
      this.store := store;
      form := EmptyForm;
      editing := None;
      dialogOpen := false;
    }

    /**
     * `handleSubmit`: with a required field empty nothing happens; otherwise the
     * edited investment's id goes to `updateInvestimento`, or `addInvestimento`
     * is called, with `today` standing in for an empty date; then the dialog is
     * reset whatever the outcome.
     */
    method Submit(user: Option<User>, today: string, addReply: Result<Investimento>, updateReply: Result<()>)
      returns (request: Request)
      modifies this, store
      ensures !FormValid(old(form)) ==> request == NoRequest && unchanged(this) && unchanged(store)
      ensures FormValid(old(form)) && old(editing).Some? && user.Some? && UpdateAccepts(PatchOf(old(form), today)) ==>
        request == UpdateRequest(old(editing).value.id, Updates(PatchOf(old(form), today)))
      ensures FormValid(old(form)) && old(editing).None? && user.Some? && AddAccepts(NovoOf(old(form), today)) ==>
        request == InsertRequest(InsertPayload(user.value, NovoOf(old(form), today)))
      ensures request.UpdateRequest? && updateReply.Ok? ==>
        store.investimentos == UpdateById(old(store.investimentos), Id, request.id, request.update, Merge)
      ensures request.InsertRequest? && addReply.Ok? ==> store.investimentos == [addReply.value] + old(store.investimentos)
      ensures request.NoRequest? ==> store.investimentos == old(store.investimentos)
      ensures FormValid(old(form)) && (user.None? || (old(editing).Some? && !UpdateAccepts(PatchOf(old(form), today)))
                                  || (old(editing).None? && !AddAccepts(NovoOf(old(form), today)))) ==>
        request == NoRequest && store.investimentos == old(store.investimentos)
      ensures FormValid(old(form)) && old(editing).Some? && updateReply.Err? ==> store.investimentos == old(store.investimentos)
      ensures FormValid(old(form)) && old(editing).None? && addReply.Err? ==> store.investimentos == old(store.investimentos)
      ensures FormValid(old(form)) ==> form == EmptyForm && editing == None && !dialogOpen
      ensures store.loading == old(store.loading)
    {
      if !FormValid(form) {
        return NoRequest;
      }
      request := NoRequest;
      if editing.Some? {
        var sent := store.Update(user, editing.value.id, PatchOf(form, today), updateReply);
        if sent.Some? {
          request := UpdateRequest(editing.value.id, sent.value);
        }
      } else {
        var sent := store.Add(user, NovoOf(form, today), addReply);
        if sent.Some? {
          request := InsertRequest(sent.value);
        }
      }
      form := EmptyForm;
      editing := None;
      dialogOpen := false;
    }

    /** `handleEdit`: opens the dialog on an existing investment. */
    method StartEdit(i: Investimento)
      modifies this
      ensures editing == Some(i) && form == FormOf(i) && dialogOpen
    {
      editing := Some(i);
      form := FormOf(i);
      dialogOpen := true;
    }

    /** `handleDelete`: passes the id to `deleteInvestimento`. */
    method Delete(user: Option<User>, id: string, reply: Result<()>) returns (sent: bool)
      modifies store
      ensures sent <==> user.Some?
      ensures sent && reply.Ok? ==> store.investimentos == WithoutId(old(store.investimentos), Id, id)
      ensures !sent || reply.Err? ==> store.investimentos == old(store.investimentos)
    {
      sent := store.Delete(user, id, reply);
    }
  }
}
