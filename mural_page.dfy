/**
 * The goals board (src/pages/MuralSonhos.tsx), the variant that keeps its goals
 * in page state: totals, overall progress, the time-to-goal estimate and the
 * form handlers that append, replace and remove goals.
 */
module MuralPage {
  import opened Wrappers
  import opened Units
  import opened Lists
  import opened JsNumbers
  import opened Decimal

  datatype Icon = Car | Home | Plane | Target

  /** One goal as the page keeps it. */
  datatype Sonho = Sonho(
    id: string,
    nome: string,
    valorTotal: Cents,
    valorEconomizado: Cents,
    investimentoMensal: Cents,
    categoria: string,
    icone: Icon,
    cor: string)

  /** The dialog's fields; the amounts are number inputs. */
  datatype SonhoForm = SonhoForm(
    nome: string,
    valorTotal: Input<Cents>,
    valorEconomizado: Input<Cents>,
    investimentoMensal: Input<Cents>,
    categoria: string)

  const EmptyForm := SonhoForm("", Blank, Blank, Blank, "")

  function Id(s: Sonho): string { s.id }
  function ValorTotal(s: Sonho): int { s.valorTotal }
  function ValorEconomizado(s: Sonho): int { s.valorEconomizado }
  function InvestimentoMensal(s: Sonho): int { s.investimentoMensal }

  /** `categoriasIcones[categoria] || categoriasIcones.outros`. */
  function CategoriaInfo(categoria: string): (info: (Icon, string))
    ensures categoria !in {"veiculo", "imovel", "viagem"} ==> info == (Target, "#8b5cf6")
    ensures categoria == "veiculo" ==> info == (Car, "#3b82f6")
    ensures categoria == "imovel" ==> info == (Home, "#10b981")
    ensures categoria == "viagem" ==> info == (Plane, "#f59e0b")
  {
    match categoria
    case "veiculo" => (Car, "#3b82f6")
    case "imovel" => (Home, "#10b981")
    case "viagem" => (Plane, "#f59e0b")
    case _ => (Target, "#8b5cf6")
  }

  /** `totalSonhos`. */
  function TotalSonhos(ss: seq<Sonho>): (total: Cents)
    ensures ss == [] ==> total == 0
    ensures (forall i :: 0 <= i < |ss| ==> ss[i].valorTotal >= 0) ==>
      0 <= total && forall i :: 0 <= i < |ss| ==> ss[i].valorTotal <= total
  {
    SumBoundsEach(ss, ValorTotal);
    SumOf(ss, ValorTotal)
  }

  /** `totalEconomizado`. */
  function TotalEconomizado(ss: seq<Sonho>): (total: Cents)
    ensures ss == [] ==> total == 0
    ensures (forall i :: 0 <= i < |ss| ==> ss[i].valorEconomizado >= 0) ==>
      0 <= total && forall i :: 0 <= i < |ss| ==> ss[i].valorEconomizado <= total
  {
    SumBoundsEach(ss, ValorEconomizado);
    SumOf(ss, ValorEconomizado)
  }

  /** `totalInvestimentoMensal`. */
  function TotalInvestimentoMensal(ss: seq<Sonho>): (total: Cents)
    ensures ss == [] ==> total == 0
    ensures (forall i :: 0 <= i < |ss| ==> ss[i].investimentoMensal >= 0) ==>
      0 <= total && forall i :: 0 <= i < |ss| ==> ss[i].investimentoMensal <= total
  {
    SumBoundsEach(ss, InvestimentoMensal);
    SumOf(ss, InvestimentoMensal)
  }

  /** `progressoGeral`: saved over target, as a percentage; 0 unless the target total is positive. */
  function ProgressoGeral(ss: seq<Sonho>): (p: real)
    ensures TotalSonhos(ss) <= 0 ==> p == 0.0
    ensures TotalSonhos(ss) > 0 ==> p * (TotalSonhos(ss) as real) == 100.0 * (TotalEconomizado(ss) as real)
  {
    var total := TotalSonhos(ss);
    if total > 0 then (TotalEconomizado(ss) as real) / (total as real) * 100.0 else 0.0
  }

  /** While savings stay between 0 and the target, overall progress is a percentage between 0 and 100. */
  lemma ProgressoGeralBounded(ss: seq<Sonho>)
    requires TotalSonhos(ss) > 0
    requires 0 <= TotalEconomizado(ss) <= TotalSonhos(ss)
    ensures 0.0 <= ProgressoGeral(ss) <= 100.0
  {
    PercentOfWhole(ProgressoGeral(ss), TotalSonhos(ss) as real, TotalEconomizado(ss) as real);
  }

  /** A part between 0 and a positive whole is between 0% and 100% of it. */
  lemma PercentOfWhole(p: real, t: real, e: real)
    requires 0.0 < t && 0.0 <= e <= t
    requires p * t == 100.0 * e
    ensures 0.0 <= p <= 100.0
  {
  }

  /** What `calcularTempoRestante` works out before it renders: no estimate, or whole years and leftover months. */
  datatype TempoRestante = Infinito | Prazo(anos: int, meses: int)

  /**
   * `calcularTempoRestante` before rendering: with no monthly contribution there
   * is no estimate; otherwise the months needed are split with `Math.floor` and `%`.
   */
  function Tempo(s: Sonho): (t: TempoRestante)
    ensures t.Infinito? <==> s.investimentoMensal <= 0
  {
    if s.investimentoMensal <= 0 then Infinito
    else
      var meses := CeilDiv(s.valorTotal - s.valorEconomizado, s.investimentoMensal);
      Prazo(FloorDiv(meses, 12), TruncRem(meses, 12))
  }

  /**
   * For a goal not yet reached and a positive contribution, the estimate is the
   * least number of months whose contributions cover what is left, written as
   * whole years plus fewer than 12 months.
   */
  lemma TempoCoversRemaining(s: Sonho)
    requires s.investimentoMensal > 0
    requires s.valorEconomizado <= s.valorTotal
    ensures Tempo(s).Prazo?
    ensures Tempo(s).anos >= 0 && 0 <= Tempo(s).meses < 12
    ensures (Tempo(s).anos * 12 + Tempo(s).meses) * s.investimentoMensal >= s.valorTotal - s.valorEconomizado
    ensures forall m: int :: m * s.investimentoMensal >= s.valorTotal - s.valorEconomizado ==>
              m >= Tempo(s).anos * 12 + Tempo(s).meses
  {
    var meses := CeilDiv(s.valorTotal - s.valorEconomizado, s.investimentoMensal);
    YearsAndMonths(meses);
  }

  /**
   * Once the savings exceed the target the month count is not positive, the
   * year count is not positive either, and only a (non-positive) month figure
   * is shown.
   */
  lemma TempoWhenReached(s: Sonho)
    requires s.investimentoMensal > 0
    requires s.valorEconomizado >= s.valorTotal
    ensures Tempo(s).Prazo? && Tempo(s).anos <= 0 && Tempo(s).meses <= 0
    ensures Render(Tempo(s)) == IntToString(Tempo(s).meses) + "m"
  {
  }

  /** The text `calcularTempoRestante` returns. */
  function Render(t: TempoRestante): (text: string)
    ensures t.Infinito? <==> text == "∞"
    ensures t.Prazo? ==> |text| >= 2 && text[|text| - 1] == 'm'
    ensures t.Prazo? && t.anos > 0 ==> text == IntToString(t.anos) + "a " + IntToString(t.meses) + "m"
    ensures t.Prazo? && t.anos <= 0 ==> text == IntToString(t.meses) + "m"
  {
    match t
    case Infinito => "∞"
    case Prazo(anos, meses) =>
      if anos > 0 then IntToString(anos) + "a " + IntToString(meses) + "m" else IntToString(meses) + "m"
  }

  /** `calcularTempoRestante`. */
  function CalcularTempoRestante(s: Sonho): (text: string)
    ensures s.investimentoMensal <= 0 <==> text == "∞"
    ensures s.investimentoMensal > 0 ==> |text| >= 2 && text[|text| - 1] == 'm'
    ensures s.investimentoMensal > 0 && s.valorEconomizado == s.valorTotal ==> text == "0m"
  {
    if s.investimentoMensal > 0 && s.valorEconomizado == s.valorTotal then
      var inv := s.investimentoMensal;
      assert CeilDiv(0, inv) == 0 by {
        var q := CeilDiv(0, inv);
        assert q * inv >= 0 && (q - 1) * inv < 0;
      }
      assert NatToString(0) == "0";
      Render(Tempo(s))
    else Render(Tempo(s))
  }

  /**
   * A goal saved 1500 past its target at 100 a month: the estimate reads
   * "-3m", and the split years and months no longer add up to the month count
   * (-2 years and -3 months for -15 months), because `Math.floor` rounds down
   * while `%` keeps the dividend's sign.
   */
  lemma OverfundedGoalCounterexample()
    ensures var s := Sonho("1", "Carro", 1000, 2500, 100, "veiculo", Car, "#3b82f6");
      && CeilDiv(s.valorTotal - s.valorEconomizado, s.investimentoMensal) == -15
      && Tempo(s) == Prazo(-2, -3)
      && Tempo(s).anos * 12 + Tempo(s).meses != -15
      && CalcularTempoRestante(s) == "-3m"
  {
    var s := Sonho("1", "Carro", 1000, 2500, 100, "veiculo", Car, "#3b82f6");
    assert CeilDiv(-1500, 100) == -15;
    assert NatToString(3) == "3";
  }

  /** The estimate with what is left clamped at 0, so a reached goal needs no more months. */
  function TempoCorrigido(s: Sonho): (t: TempoRestante)
    ensures t.Infinito? <==> s.investimentoMensal <= 0
  {
    if s.investimentoMensal <= 0 then Infinito
    else
      var restante := if s.valorTotal > s.valorEconomizado then s.valorTotal - s.valorEconomizado else 0;
      var meses := CeilDiv(restante, s.investimentoMensal);
      Prazo(FloorDiv(meses, 12), TruncRem(meses, 12))
  }

  /**
   * With the clamp, every goal with a positive contribution gets the least
   * non-negative number of months that covers what is left, split into whole
   * years and fewer than 12 months; a reached goal shows "0m", and a goal not
   * yet reached gets the same estimate as before.
   */
  lemma TempoCorrigidoSound(s: Sonho)
    requires s.investimentoMensal > 0
    ensures TempoCorrigido(s).Prazo?
    ensures TempoCorrigido(s).anos >= 0 && 0 <= TempoCorrigido(s).meses < 12
    ensures (TempoCorrigido(s).anos * 12 + TempoCorrigido(s).meses) * s.investimentoMensal >= s.valorTotal - s.valorEconomizado
    ensures forall m: nat :: m * s.investimentoMensal >= s.valorTotal - s.valorEconomizado ==>
              m >= TempoCorrigido(s).anos * 12 + TempoCorrigido(s).meses
    ensures s.valorEconomizado >= s.valorTotal ==> Render(TempoCorrigido(s)) == "0m"
    ensures s.valorEconomizado <= s.valorTotal ==> TempoCorrigido(s) == Tempo(s)
  {
    if s.valorEconomizado <= s.valorTotal {
      TempoCoversRemaining(s);
    } else {
      var inv := s.investimentoMensal;
      assert CeilDiv(0, inv) == 0 by {
        var q := CeilDiv(0, inv);
        assert q * inv >= 0 && (q - 1) * inv < 0;
      }
      assert TempoCorrigido(s) == Prazo(0, 0);
      assert NatToString(0) == "0";
    }
  }


  /** The required fields: name, target amount and category. */
  predicate FormValid(f: SonhoForm) {
    f.nome != "" && f.valorTotal.Entered? && f.categoria != ""
  }

  /** `novoSonho`: blank savings and contribution become 0; an unknown category takes the `outros` look. */
  function NovoSonho(f: SonhoForm, id: string): (s: Sonho)
    requires FormValid(f)
    ensures s.id == id && s.nome == f.nome && s.categoria == f.categoria
    ensures s.valorTotal == f.valorTotal.value
    ensures s.valorEconomizado == (if f.valorEconomizado.Entered? then f.valorEconomizado.value else 0)
    ensures s.investimentoMensal == (if f.investimentoMensal.Entered? then f.investimentoMensal.value else 0)
    ensures (s.icone, s.cor) == CategoriaInfo(f.categoria)
  {
    var info := CategoriaInfo(f.categoria);
    Sonho(id, f.nome, f.valorTotal.value, f.valorEconomizado.GetOr(0), f.investimentoMensal.GetOr(0),
          f.categoria, info.0, info.1)
  }

  /** `handleEdit`: the dialog filled from an existing goal. */
  function FormOf(s: Sonho): SonhoForm {
    SonhoForm(s.nome, Entered(s.valorTotal), Entered(s.valorEconomizado), Entered(s.investimentoMensal), s.categoria)
  }

  /** Opening a goal for editing and saving it unchanged gives back the same goal. */
  lemma EditRoundTrip(s: Sonho)
    requires s.nome != "" && s.categoria != ""
    requires (s.icone, s.cor) == CategoriaInfo(s.categoria)
    ensures FormValid(FormOf(s))
    ensures NovoSonho(FormOf(s), s.id) == s
  {
  }

  /** The page's state: the goals, the dialog's fields, the goal being edited and the dialog flag. */
  class SonhosScreen {
    var sonhos: seq<Sonho>
    var form: SonhoForm
    var editing: Option<Sonho>
    var dialogOpen: bool

    constructor (initial: seq<Sonho>)
      ensures sonhos == initial && form == EmptyForm && editing == None && !dialogOpen
    {
      sonhos := initial;
      form := EmptyForm;
      editing := None;
      dialogOpen := false;
    }

    /**
     * `handleSubmit`: with a required field empty nothing changes; otherwise the
     * edited goal is replaced (keeping its id) or a new one is appended with the
     * id `freshId`, and the dialog is reset.
     */
    method Submit(freshId: string)
      modifies this
      ensures !FormValid(old(form)) ==> unchanged(this)
      ensures FormValid(old(form)) && old(editing).Some? ==>
        sonhos == ReplaceById(old(sonhos), Id, old(editing).value.id, NovoSonho(old(form), old(editing).value.id))
      ensures FormValid(old(form)) && old(editing).None? ==>
        sonhos == old(sonhos) + [NovoSonho(old(form), freshId)]
      ensures FormValid(old(form)) ==> form == EmptyForm && editing == None && !dialogOpen
    {
      if !FormValid(form) {
        return;
      }
      var id := if editing.Some? then editing.value.id else freshId;
      var novo := NovoSonho(form, id);
      if editing.Some? {
        sonhos := ReplaceById(sonhos, Id, editing.value.id, novo);
      } else {
        sonhos := sonhos + [novo];
      }
      form := EmptyForm;
      editing := None;
      dialogOpen := false;
    }

    /** `handleEdit`: opens the dialog on an existing goal. */
    method StartEdit(s: Sonho)
      modifies this
      ensures editing == Some(s) && form == FormOf(s) && dialogOpen
      ensures sonhos == old(sonhos)
    {
      editing := Some(s);
      form := FormOf(s);
      dialogOpen := true;
    }

    /** `handleDelete`: removes every goal with the id, keeping the order of the others. */
    method Delete(id: string)
      modifies this
      ensures sonhos == WithoutId(old(sonhos), Id, id)
      ensures form == old(form) && editing == old(editing) && dialogOpen == old(dialogOpen)
    {
      sonhos := WithoutId(sonhos, Id, id);
    }
  }
}
