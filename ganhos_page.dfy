/**
 * The income screen (src/pages/Ganhos.tsx), the variant that keeps its entries
 * in page state: the monthly and yearly figures, the frequency filters and the
 * form handlers.
 */
module GanhosPage {
  import opened Wrappers
  import opened Units
  import opened Lists

  datatype Icon = Briefcase | Gift | PiggyBank | DollarSign

  /**
   * One income entry. `frequencia` is meant to be 'mensal', 'semanal' or
   * 'unica'; the page casts the select's text without checking it.
   */
  datatype Ganho = Ganho(
    id: string,
    fonte: string,
    valor: Cents,
    frequencia: string,
    categoria: string,
    dataRecebimento: string,
    icone: Icon)

  /** The dialog's fields. */
  datatype GanhoForm = GanhoForm(
    fonte: string,
    valor: Input<Cents>,
    frequencia: string,
    categoria: string,
    dataRecebimento: string)

  const EmptyForm := GanhoForm("", Blank, "", "", "")

  function Id(g: Ganho): string { g.id }
  function Valor(g: Ganho): int { g.valor }
  function IsMensal(g: Ganho): bool { g.frequencia == "mensal" }
  function IsSemanal(g: Ganho): bool { g.frequencia == "semanal" }
  function IsUnica(g: Ganho): bool { g.frequencia == "unica" }

  /** `categoriasIcones[categoria] || DollarSign`. */
  function CategoriaIcone(categoria: string): (icon: Icon)
    ensures categoria !in {"salario", "freelance", "investimento"} ==> icon == DollarSign
    ensures categoria == "salario" ==> icon == Briefcase
    ensures categoria == "freelance" ==> icon == Gift
    ensures categoria == "investimento" ==> icon == PiggyBank
  {
    match categoria
    case "salario" => Briefcase
    case "freelance" => Gift
    case "investimento" => PiggyBank
    case _ => DollarSign
  }

  /** What one entry adds to `totalMensal`: its amount if monthly, four times it if weekly, nothing otherwise. */
  function Mensal(g: Ganho): (m: int)
    ensures g.frequencia !in {"mensal", "semanal"} ==> m == 0
    ensures g.frequencia == "mensal" ==> m == g.valor
    ensures g.frequencia == "semanal" ==> m == 4 * g.valor
  {
    if g.frequencia == "mensal" then g.valor
    else if g.frequencia == "semanal" then g.valor * 4
    else 0
  }

  /** `totalMensal`. */
  function TotalMensal(gs: seq<Ganho>): (total: Cents)
    ensures (forall i :: 0 <= i < |gs| ==> gs[i].frequencia == "unica") ==> total == 0
    ensures (forall i :: 0 <= i < |gs| ==> gs[i].valor >= 0) ==> total >= 0
  {
    if forall i :: 0 <= i < |gs| ==> gs[i].frequencia == "unica" then
      SumZero(gs, Mensal);
      SumOf(gs, Mensal)
    else SumOf(gs, Mensal)
  }

  /** `totalAnual`: twelve months of the monthly figure. */
  function TotalAnual(gs: seq<Ganho>): (total: Cents)
    ensures total == 12 * (SumOf(Filter(gs, IsMensal), Valor) + 4 * SumOf(Filter(gs, IsSemanal), Valor))
  {
    TotalMensalByFrequency(gs);
    TotalMensal(gs) * 12
  }

  /** `ganhosMensais`: the monthly entries in list order. */
  function GanhosMensais(gs: seq<Ganho>): (r: seq<Ganho>)
    ensures forall i :: 0 <= i < |r| ==> r[i].frequencia == "mensal" && r[i] in gs
    ensures forall i :: 0 <= i < |gs| && gs[i].frequencia == "mensal" ==> gs[i] in r
  {
    Filter(gs, IsMensal)
  }

  /** `ganhosExtras`: the one-off entries in list order. */
  function GanhosExtras(gs: seq<Ganho>): (r: seq<Ganho>)
    ensures forall i :: 0 <= i < |r| ==> r[i].frequencia == "unica" && r[i] in gs
    ensures forall i :: 0 <= i < |gs| && gs[i].frequencia == "unica" ==> gs[i] in r
  {
    Filter(gs, IsUnica)
  }

  /**
   * `filter` keeps the monthly entries in list order, each as often as it occurs: the
   * selection of a concatenation is the concatenation of the selections.
   */
  lemma MensaisOrder(a: seq<Ganho>, b: seq<Ganho>, x: Ganho)
    ensures GanhosMensais([]) == []
    ensures GanhosMensais([x]) == if x.frequencia == "mensal" then [x] else []
    ensures GanhosMensais(a + b) == GanhosMensais(a) + GanhosMensais(b)
  {
    assert [x] == [x] + [];
    FilterAppend(a, b, IsMensal);
  }

  /**
   * `filter` keeps the one-off entries in list order, each as often as it occurs: the
   * selection of a concatenation is the concatenation of the selections.
   */
  lemma ExtrasOrder(a: seq<Ganho>, b: seq<Ganho>, x: Ganho)
    ensures GanhosExtras([]) == []
    ensures GanhosExtras([x]) == if x.frequencia == "unica" then [x] else []
    ensures GanhosExtras(a + b) == GanhosExtras(a) + GanhosExtras(b)
  {
    assert [x] == [x] + [];
    FilterAppend(a, b, IsUnica);
  }

  /**
   * The monthly figure is the sum of the monthly entries plus four times the
   * sum of the weekly ones; one-off entries (and any other frequency) count for
   * nothing.
   */
  lemma {:induction false} TotalMensalByFrequency(gs: seq<Ganho>)
    ensures TotalMensal(gs) == SumOf(Filter(gs, IsMensal), Valor) + 4 * SumOf(Filter(gs, IsSemanal), Valor)
  {
    if gs != [] {
      var g, rest := gs[0], gs[1..];
      assert gs == [g] + rest;
      TotalMensalByFrequency(rest);
      SumCons(g, rest, Mensal);
      var m, w := Filter(rest, IsMensal), Filter(rest, IsSemanal);
      if IsMensal(g) {
        assert Filter(gs, IsMensal) == [g] + m;
        assert Filter(gs, IsSemanal) == w;
        SumCons(g, m, Valor);
      } else if IsSemanal(g) {
        assert Filter(gs, IsMensal) == m;
        assert Filter(gs, IsSemanal) == [g] + w;
        SumCons(g, w, Valor);
      } else {
        assert Filter(gs, IsMensal) == m;
        assert Filter(gs, IsSemanal) == w;
      }
    }
  }

  /** Adding a one-off entry never changes the monthly (or yearly) figure. */
  lemma UnicaLeavesTotals(gs: seq<Ganho>, g: Ganho)
    requires g.frequencia == "unica"
    ensures TotalMensal(gs + [g]) == TotalMensal(gs)
    ensures TotalAnual(gs + [g]) == TotalAnual(gs)
  {
    SumAppend(gs, [g], Mensal);
    assert [g][..0] == [];
  }

  /** The monthly and one-off lists never share an entry, so together they are at most the whole list. */
  lemma {:induction false} MensaisExtrasDisjoint(gs: seq<Ganho>)
    ensures |GanhosMensais(gs)| + |GanhosExtras(gs)| <= |gs|
    ensures forall i :: 0 <= i < |GanhosMensais(gs)| ==> GanhosMensais(gs)[i] !in GanhosExtras(gs)
  {
    if gs != [] {
      MensaisExtrasDisjoint(gs[1..]);
    }
  }

  /** The required fields: all five. */
  predicate FormValid(f: GanhoForm) {
    f.fonte != "" && f.valor.Entered? && f.frequencia != "" && f.categoria != "" && f.dataRecebimento != ""
  }

  /** `novoGanho`: the entry the dialog produces; an unknown category gets the dollar icon. */
  function NovoGanho(f: GanhoForm, id: string): (g: Ganho)
    requires FormValid(f)
    ensures g.id == id && g.fonte == f.fonte && g.valor == f.valor.value
    ensures g.frequencia == f.frequencia && g.categoria == f.categoria && g.dataRecebimento == f.dataRecebimento
    ensures g.icone == CategoriaIcone(f.categoria)
  {
    Ganho(id, f.fonte, f.valor.value, f.frequencia, f.categoria, f.dataRecebimento, CategoriaIcone(f.categoria))
  }

  /** `handleEdit`: the dialog filled from an existing entry. */
  function FormOf(g: Ganho): GanhoForm {
    GanhoForm(g.fonte, Entered(g.valor), g.frequencia, g.categoria, g.dataRecebimento)
  }

  /** Opening an entry for editing and saving it unchanged gives back the same entry. */
  lemma EditRoundTrip(g: Ganho)
    requires g.fonte != "" && g.frequencia != "" && g.categoria != "" && g.dataRecebimento != ""
    requires g.icone == CategoriaIcone(g.categoria)
    ensures FormValid(FormOf(g))
    ensures NovoGanho(FormOf(g), g.id) == g
  {
  }

  /** The page's state: the entries, the dialog's fields, the entry being edited and the dialog flag. */
  class GanhosScreen {
    var ganhos: seq<Ganho>
    var form: GanhoForm
    var editing: Option<Ganho>
    var dialogOpen: bool

    constructor (initial: seq<Ganho>)
      ensures ganhos == initial && form == EmptyForm && editing == None && !dialogOpen
    {
      ganhos := initial;
      form := EmptyForm;
      editing := None;
      dialogOpen := false;
    }

    /**
     * `handleSubmit`: with a field empty nothing changes; otherwise the edited
     * entry is replaced (keeping its id) or a new one is appended with the id
     * `freshId`, and the dialog is reset.
     */
    method Submit(freshId: string)
      modifies this
      ensures !FormValid(old(form)) ==> unchanged(this)
      ensures FormValid(old(form)) && old(editing).Some? ==>
        ganhos == ReplaceById(old(ganhos), Id, old(editing).value.id, NovoGanho(old(form), old(editing).value.id))
      ensures FormValid(old(form)) && old(editing).None? ==>
        ganhos == old(ganhos) + [NovoGanho(old(form), freshId)]
      ensures FormValid(old(form)) ==> form == EmptyForm && editing == None && !dialogOpen
    {
      if !FormValid(form) {
        return;
      }
      var id := if editing.Some? then editing.value.id else freshId;
      var novo := NovoGanho(form, id);
      if editing.Some? {
        ganhos := ReplaceById(ganhos, Id, editing.value.id, novo);
      } else {
        ganhos := ganhos + [novo];
      }
      form := EmptyForm;
      editing := None;
      dialogOpen := false;
    }

    /** `handleEdit`: opens the dialog on an existing entry. */
    method StartEdit(g: Ganho)
      modifies this
      ensures editing == Some(g) && form == FormOf(g) && dialogOpen
      ensures ganhos == old(ganhos)
    {
      editing := Some(g);
      form := FormOf(g);
      dialogOpen := true;
    }

    /** `handleDelete`: removes every entry with the id, keeping the order of the others. */
    method Delete(id: string)
      modifies this
      ensures ganhos == WithoutId(old(ganhos), Id, id)
      ensures form == old(form) && editing == old(editing) && dialogOpen == old(dialogOpen)
    {
      ganhos := WithoutId(ganhos, Id, id);
    }
  }
}
