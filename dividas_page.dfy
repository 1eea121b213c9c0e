/**
 * The debts screen (src/pages/Dividas.tsx), the variant that keeps its list in
 * page state: totals, the two payoff orderings, the payoff simulation and the
 * form handlers that append, replace and remove debts.
 */
module DividasPage {
  import opened Wrappers
  import opened Units
  import opened Lists
  import opened Ordering
  import opened JsNumbers

  datatype Icon = Building | CreditCard | FileText | AlertTriangle

  /** One debt as the page keeps it. */
  datatype Divida = Divida(
    id: string,
    credor: string,
    valorOriginal: Cents,
    saldoDevedor: Cents,
    taxaJuros: BasisPoints,
    vencimento: string,
    tipo: string,
    icone: Icon,
    cor: string)

  /** The dialog's fields; the numeric ones are number inputs. */
  datatype DividaForm = DividaForm(
    credor: string,
    valorOriginal: Input<Cents>,
    saldoDevedor: Input<Cents>,
    taxaJuros: Input<BasisPoints>,
    vencimento: string,
    tipo: string)

  const EmptyForm := DividaForm("", Blank, Blank, Blank, "", "")

  /** A rate above 5% marks a high-risk debt. */
  const HighRiskRate: BasisPoints := 500

  function Id(d: Divida): string { d.id }
  function Saldo(d: Divida): int { d.saldoDevedor }
  function Taxa(d: Divida): int { d.taxaJuros }
  function NegTaxa(d: Divida): int { -d.taxaJuros }
  function HighRisk(d: Divida): bool { d.taxaJuros > HighRiskRate }

  /** `tiposIcones[tipo] || tiposIcones.emprestimo`. */
  function TipoInfo(tipo: string): (info: (Icon, string))
    ensures tipo !in {"cartao", "financiamento", "spc"} ==> info == (Building, "#ef4444")
    ensures tipo == "cartao" ==> info == (CreditCard, "#f97316")
    ensures tipo == "financiamento" ==> info == (FileText, "#eab308")
    ensures tipo == "spc" ==> info == (AlertTriangle, "#dc2626")
  {
    match tipo
    case "cartao" => (CreditCard, "#f97316")
    case "financiamento" => (FileText, "#eab308")
    case "spc" => (AlertTriangle, "#dc2626")
    case _ => (Building, "#ef4444")
  }

  /** `totalDividas`: the sum of the outstanding balances. */
  function TotalDividas(ds: seq<Divida>): (total: Cents)
    ensures ds == [] ==> total == 0
    ensures (forall i :: 0 <= i < |ds| ==> ds[i].saldoDevedor >= 0) ==>
      0 <= total && forall i :: 0 <= i < |ds| ==> ds[i].saldoDevedor <= total
  {
    SumBoundsEach(ds, Saldo);
    SumOf(ds, Saldo)
  }

  /** `mediaJuros`: the mean rate, 0 for no debts. */
  function MediaJuros(ds: seq<Divida>): (m: real)
    ensures |ds| == 0 ==> m == 0.0
    ensures |ds| > 0 ==> m * (|ds| as real) == SumOf(ds, Taxa) as real
  {
    if |ds| > 0 then (SumOf(ds, Taxa) as real) / (|ds| as real) else 0.0
  }

  /** `dividaAltoRisco`: how many debts carry a rate above 5%. */
  function AltoRisco(ds: seq<Divida>): (n: nat)
    ensures n <= |ds|
    ensures n == 0 <==> forall i :: 0 <= i < |ds| ==> ds[i].taxaJuros <= HighRiskRate
  {
    var r := Filter(ds, HighRisk);
    assert r != [] ==> r[0] in r;
    |r|
  }

  /** Each debt adds one to the high-risk count exactly when its rate exceeds 5%. */
  lemma {:induction false} AltoRiscoCounts(ds: seq<Divida>, d: Divida)
    ensures AltoRisco(ds + [d]) == AltoRisco(ds) + (if d.taxaJuros > 500 then 1 else 0)
    ensures AltoRisco(ds) <= |ds|
  {
    FilterAppend(ds, [d], HighRisk);
    assert Filter([d], HighRisk) == (if HighRisk(d) then [d] else []) + Filter([], HighRisk);
  }

  /** `calcularBolaDeNeve`: a sorted copy, smallest balance first. */
  function BolaDeNeve(ds: seq<Divida>): (r: seq<Divida>)
    ensures multiset(r) == multiset(ds)
    ensures forall i, j :: 0 <= i < j < |r| ==> r[i].saldoDevedor <= r[j].saldoDevedor
  {
    SortBy(ds, Saldo)
  }

  /** `calcularAvalanche`: a sorted copy, highest rate first. */
  function Avalanche(ds: seq<Divida>): (r: seq<Divida>)
    ensures multiset(r) == multiset(ds)
    ensures forall i, j :: 0 <= i < j < |r| ==> r[i].taxaJuros >= r[j].taxaJuros
  {
    var r := SortBy(ds, NegTaxa);
    assert SortedBy(r, NegTaxa);
    r
  }

  /** Debts with the same balance keep their list order in the snowball ordering. */
  lemma {:induction false} BolaDeNeveStable(ds: seq<Divida>, saldo: int)
    ensures Filter(BolaDeNeve(ds), KeyIs(Saldo, saldo)) == Filter(ds, KeyIs(Saldo, saldo))
  {
    SortStable(ds, Saldo, saldo);
  }

  /** Debts with the same rate keep their list order in the avalanche ordering. */
  lemma {:induction false} AvalancheStable(ds: seq<Divida>, negTaxa: int)
    ensures Filter(Avalanche(ds), KeyIs(NegTaxa, negTaxa)) == Filter(ds, KeyIs(NegTaxa, negTaxa))
  {
    SortStable(ds, NegTaxa, negTaxa);
  }

  /** Both payoff orderings show the same debts, so the total owed does not depend on the strategy. */
  lemma StrategiesKeepTotal(ds: seq<Divida>)
    ensures TotalDividas(BolaDeNeve(ds)) == TotalDividas(ds)
    ensures TotalDividas(Avalanche(ds)) == TotalDividas(ds)
  {
    SumPermutation(BolaDeNeve(ds), ds, Saldo);
    SumPermutation(Avalanche(ds), ds, Saldo);
  }

  /** The list shown under "Estratégia de Quitação": snowball for 'bola_neve', avalanche otherwise. */
  function OrdemEstrategia(estrategia: string, ds: seq<Divida>): (r: seq<Divida>)
    ensures multiset(r) == multiset(ds)
  {
    if estrategia == "bola_neve" then BolaDeNeve(ds) else Avalanche(ds)
  }

  /** `simularQuitacao(valor).mesesParaQuitar`: `Math.ceil(totalDividas / valor)`. */
  function MesesParaQuitar(ds: seq<Divida>, valor: Cents): (meses: Number)
    ensures valor > 0 ==> meses.Finite? && meses.value * valor >= TotalDividas(ds) > (meses.value - 1) * valor
    ensures valor == 0 ==> (meses == PositiveInfinity <==> TotalDividas(ds) > 0)
    ensures valor == 0 ==> (meses == NaN <==> TotalDividas(ds) == 0)
  {
    CeilQuotient(TotalDividas(ds), valor)
  }

  /** For a positive monthly payment the estimate is the least number of months that covers the total. */
  lemma MesesParaQuitarIsLeast(ds: seq<Divida>, valor: Cents)
    requires valor > 0
    ensures MesesParaQuitar(ds, valor).Finite?
    ensures MesesParaQuitar(ds, valor).value * valor >= TotalDividas(ds)
    ensures forall m: int :: m * valor >= TotalDividas(ds) ==> m >= MesesParaQuitar(ds, valor).value
  {
    var q := MesesParaQuitar(ds, valor).value;
    forall m: int | m * valor >= TotalDividas(ds) ensures m >= q {
    }
  }

  /** The required fields: creditor, original amount, balance and kind. */
  predicate FormValid(f: DividaForm) {
    f.credor != "" && f.valorOriginal.Entered? && f.saldoDevedor.Entered? && f.tipo != ""
  }

  /** `novaDivida`: the record the dialog produces; a blank rate becomes 0. */
  function NovaDivida(f: DividaForm, id: string): (d: Divida)
    requires FormValid(f)
    ensures d.id == id && d.credor == f.credor && d.tipo == f.tipo && d.vencimento == f.vencimento
    ensures d.valorOriginal == f.valorOriginal.value && d.saldoDevedor == f.saldoDevedor.value
    ensures d.taxaJuros == (if f.taxaJuros.Entered? then f.taxaJuros.value else 0)
    ensures (d.icone, d.cor) == TipoInfo(f.tipo)
  {
    var info := TipoInfo(f.tipo);
    Divida(id, f.credor, f.valorOriginal.value, f.saldoDevedor.value, f.taxaJuros.GetOr(0),
           f.vencimento, f.tipo, info.0, info.1)
  }

  /** `handleEdit`: the dialog filled from an existing debt. */
  function FormOf(d: Divida): DividaForm {
    DividaForm(d.credor, Entered(d.valorOriginal), Entered(d.saldoDevedor), Entered(d.taxaJuros), d.vencimento, d.tipo)
  }

  /** Opening a debt for editing and saving it unchanged gives back the same debt. */
  lemma EditRoundTrip(d: Divida)
    requires d.credor != "" && d.tipo != ""
    requires (d.icone, d.cor) == TipoInfo(d.tipo)
    ensures FormValid(FormOf(d))
    ensures NovaDivida(FormOf(d), d.id) == d
  {
  }

  /** The page's state: the list, the dialog's fields, the debt being edited and the dialog flag. */
  class DividasScreen {
    var dividas: seq<Divida>
    var form: DividaForm
    var editing: Option<Divida>
    var dialogOpen: bool

    constructor (initial: seq<Divida>)
      ensures dividas == initial && form == EmptyForm && editing == None && !dialogOpen
    {
      dividas := initial;
      form := EmptyForm;
      editing := None;
      dialogOpen := false;
    }

    /**
     * `handleSubmit`: with a required field empty nothing changes; otherwise the
     * edited debt is replaced (keeping its id) or a new one is appended with the
     * id `freshId` (the page uses the clock), and the dialog is reset.
     */
    method Submit(freshId: string)
      modifies this
      ensures !FormValid(old(form)) ==> unchanged(this)
      ensures FormValid(old(form)) && old(editing).Some? ==>
        dividas == ReplaceById(old(dividas), Id, old(editing).value.id, NovaDivida(old(form), old(editing).value.id))
      ensures FormValid(old(form)) && old(editing).None? ==>
        dividas == old(dividas) + [NovaDivida(old(form), freshId)]
      ensures FormValid(old(form)) ==> form == EmptyForm && editing == None && !dialogOpen
    {
      if !FormValid(form) {
        return;
      }
      var id := if editing.Some? then editing.value.id else freshId;
      var nova := NovaDivida(form, id);
      if editing.Some? {
        dividas := ReplaceById(dividas, Id, editing.value.id, nova);
      } else {
        dividas := dividas + [nova];
      }
      form := EmptyForm;
      editing := None;
      dialogOpen := false;
    }

    /** `handleEdit`: opens the dialog on an existing debt. */
    method StartEdit(d: Divida)
      modifies this
      ensures editing == Some(d) && form == FormOf(d) && dialogOpen
      ensures dividas == old(dividas)
    {
      editing := Some(d);
      form := FormOf(d);
      dialogOpen := true;
    }

    /** `handleDelete`: removes every debt with the id, keeping the order of the others. */
    method Delete(id: string)
      modifies this
      ensures dividas == WithoutId(old(dividas), Id, id)
      ensures form == old(form) && editing == old(editing) && dialogOpen == old(dialogOpen)
    {
      dividas := WithoutId(dividas, Id, id);
    }
  }
}
