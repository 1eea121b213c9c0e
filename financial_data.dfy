/**
 * The dashboard summary (src/hooks/useFinancialData.tsx): six queries over the
 * signed-in user's tables, reduced to sums and counts. Each query's filter is
 * applied here to the user's rows; a failed query yields no data, which counts
 * as 0.
 */
module FinancialData {
  import opened Wrappers
  import opened Units
  import opened Lists
  import opened Session
  import opened Decimal

  /** A calendar date, as the database compares `date` columns. */
  datatype Date = Date(year: int, month: int, day: int)

  /** Calendar order: year, then month, then day. */
  predicate OnOrAfter(a: Date, b: Date) {
    a.year > b.year || (a.year == b.year && (a.month > b.month || (a.month == b.month && a.day >= b.day)))
  }

  /**
   * The query's lower bound `${year}-${month.padStart(2, '0')}-01`, for the
   * zero-based month index a JavaScript date reports.
   */
  function MonthBound(year: int, monthIndex: int): (bound: string)
    requires 0 <= monthIndex < 12
    ensures |bound| >= 7 && bound[|bound| - 3..] == "-01"
  {
    IntToString(year) + "-" + PadStart2(NatToString(monthIndex + 1)) + "-01"
  }

  /** Reads a `YYYY-MM-DD` text as the database does; anything else is refused. */
  function ParseDate(s: string): (d: Option<Date>)
    ensures d.Some? ==> |s| == 10 && s[4] == '-' && s[7] == '-'
    ensures d.Some? ==> d.value.year >= 0 && d.value.month >= 0 && d.value.day >= 0
  {
    if |s| != 10 || s[4] != '-' || s[7] != '-' then None
    else
      match (ParseNat(s[..4]), ParseNat(s[5..7]), ParseNat(s[8..]))
      case (Some(y), Some(m), Some(d)) => Some(Date(y, m, d))
      case _ => None
  }

  /** A text made of a four-character, a two-character and a two-character part reads as their numbers. */
  lemma ParseDateParts(y: string, m: string, d: string)
    requires |y| == 4 && |m| == 2 && |d| == 2
    requires ParseNat(y).Some? && ParseNat(m).Some? && ParseNat(d).Some?
    ensures ParseDate(y + "-" + m + "-" + d) == Some(Date(ParseNat(y).value, ParseNat(m).value, ParseNat(d).value))
  {
    var s := y + "-" + m + "-" + d;
    assert |s| == 10 && s[4] == '-' && s[7] == '-';
    assert s[..4] == y;
    assert s[5..7] == m;
    assert s[8..] == d;
  }

  lemma ParseFirstDay()
    ensures ParseNat("01") == Some(1)
  {
    assert DigitValue('1') == Some(1);
    assert DigitValue('0') == Some(0);
    assert "01"[..1] == "0";
  }

  /** For a non-negative year the bound is the year's digits, the padded month and the day "01". */
  lemma MonthBoundShape(year: int, monthIndex: int)
    requires year >= 0 && 0 <= monthIndex < 12
    ensures MonthBound(year, monthIndex) == NatToString(year) + "-" + PadStart2(NatToString(monthIndex + 1)) + "-" + "01"
  {
    var prefix := NatToString(year) + "-" + PadStart2(NatToString(monthIndex + 1));
    assert IntToString(year) == NatToString(year);
    assert MonthBound(year, monthIndex) == prefix + "-01";
    assert "-01" == "-" + "01";
    assert prefix + ("-" + "01") == prefix + "-" + "01";
  }

  /** For a four-digit year the bound reads back as the first day of the current month, months counted from 1. */
  lemma MonthBoundParses(year: int, monthIndex: int)
    requires 1000 <= year <= 9999 && 0 <= monthIndex < 12
    ensures ParseDate(MonthBound(year, monthIndex)) == Some(Date(year, monthIndex + 1, 1))
  {
    var y := NatToString(year);
    var m := PadStart2(NatToString(monthIndex + 1));
    FourDigits(year);
    ParseNatToString(year);
    ParsePadded(monthIndex + 1);
    ParseFirstDay();
    MonthBoundShape(year, monthIndex);
    ParseDateParts(y, m, "01");
  }

  /** A date is on or after the first of a month exactly when it falls in that month or a later one: there is no upper bound. */
  lemma SinceFirstOfMonth(d: Date, year: int, month: int)
    requires d.day >= 1
    ensures OnOrAfter(d, Date(year, month, 1)) <==> d.year > year || (d.year == year && d.month >= month)
  {
  }

  /** The rows of each table the summary reads; the query selects the columns it needs. */
  datatype GanhoRow = GanhoRow(valor: Cents, data_recebimento: Date, recorrente: bool)
  datatype ContaRow = ContaRow(valor: Cents, status: string)
  datatype DividaRow = DividaRow(valor_restante: Option<Cents>, status: string)
  datatype InvestimentoRow = InvestimentoRow(valor_atual: Option<Cents>, valor_investido: Cents)
  datatype CartaoRow = CartaoRow(id: string, ativo: bool)
  datatype SonhoRow = SonhoRow(id: string, status: string)

  /** The signed-in user's rows of each table; `None` is a query that came back without data. */
  datatype Tables = Tables(
    ganhos: Option<seq<GanhoRow>>,
    contas: Option<seq<ContaRow>>,
    dividas: Option<seq<DividaRow>>,
    investimentos: Option<seq<InvestimentoRow>>,
    cartoes: Option<seq<CartaoRow>>,
    sonhos: Option<seq<SonhoRow>>)

  /** `FinancialSummary`. */
  datatype FinancialSummary = FinancialSummary(
    totalGanhos: Cents,
    totalContasFixas: Cents,
    totalDividas: Cents,
    totalInvestimentos: Cents,
    cartoesAtivos: nat,
    sonhosAtivos: nat)

  /** The summary before the first load. */
  const Zero := FinancialSummary(0, 0, 0, 0, 0, 0)

  function ValorGanho(g: GanhoRow): int { g.valor }
  function ValorConta(c: ContaRow): int { c.valor }

  /** `Number(valor_restante)`: a null balance counts as 0. */
  function Restante(d: DividaRow): (v: int)
    ensures d.valor_restante.None? ==> v == 0
    ensures d.valor_restante.Some? ==> v == d.valor_restante.value
  {
    d.valor_restante.GetOr(0)
  }

  /** `Number(valor_atual || valor_investido)`: a missing or zero current value falls back to the amount invested. */
  function Aplicado(i: InvestimentoRow): (v: int)
    ensures i.valor_atual.None? || i.valor_atual == Some(0) ==> v == i.valor_investido
    ensures i.valor_atual.Some? && i.valor_atual.value != 0 ==> v == i.valor_atual.value
  {
    if i.valor_atual.Some? && i.valor_atual.value != 0 then i.valor_atual.value else i.valor_investido
  }

  function IsPendente(c: ContaRow): bool { c.status == "pendente" }
  function IsAtiva(d: DividaRow): bool { d.status == "ativa" }
  function IsAtivo(c: CartaoRow): bool { c.ativo }
  function IsSonhoAtivo(s: SonhoRow): bool { s.status == "ativo" }
  function ReceivedSince(b: Date): GanhoRow -> bool { (g: GanhoRow) => OnOrAfter(g.data_recebimento, b) }

  /** The rows a query returns: its filter applied to the table, or no data. */
  function Select<T>(rows: Option<seq<T>>, keep: T -> bool): (r: Option<seq<T>>)
    ensures r.Some? <==> rows.Some?
    ensures r.Some? ==> r.value == Filter(rows.value, keep)
  {
    if rows.Some? then Some(Filter(rows.value, keep)) else None
  }

  /** The six query results of one load. The income query's bound must read as a date, or the query fails. */
  datatype Results = Results(
    ganhos: Option<seq<GanhoRow>>,
    contas: Option<seq<ContaRow>>,
    dividas: Option<seq<DividaRow>>,
    investimentos: Option<seq<InvestimentoRow>>,
    cartoes: Option<seq<CartaoRow>>,
    sonhos: Option<seq<SonhoRow>>)

  function Query(t: Tables, bound: string): (r: Results)
    ensures ParseDate(bound).None? ==> r.ganhos.None?
    ensures ParseDate(bound).Some? ==> (r.ganhos.Some? <==> t.ganhos.Some?)
    ensures r.ganhos.Some? ==> forall i :: 0 <= i < |r.ganhos.value| ==>
      r.ganhos.value[i] in t.ganhos.value && OnOrAfter(r.ganhos.value[i].data_recebimento, ParseDate(bound).value)
    ensures r.contas.Some? <==> t.contas.Some?
    ensures r.contas.Some? ==> forall i :: 0 <= i < |r.contas.value| ==>
      r.contas.value[i] in t.contas.value && r.contas.value[i].status == "pendente"
    ensures r.dividas.Some? <==> t.dividas.Some?
    ensures r.dividas.Some? ==> forall i :: 0 <= i < |r.dividas.value| ==>
      r.dividas.value[i] in t.dividas.value && r.dividas.value[i].status == "ativa"
    ensures r.investimentos == t.investimentos
    ensures r.cartoes.Some? <==> t.cartoes.Some?
    ensures r.cartoes.Some? ==> forall i :: 0 <= i < |r.cartoes.value| ==>
      r.cartoes.value[i] in t.cartoes.value && r.cartoes.value[i].ativo
    ensures r.sonhos.Some? <==> t.sonhos.Some?
    ensures r.sonhos.Some? ==> forall i :: 0 <= i < |r.sonhos.value| ==>
      r.sonhos.value[i] in t.sonhos.value && r.sonhos.value[i].status == "ativo"
  {
    Results(
      match ParseDate(bound) { case Some(b) => Select(t.ganhos, ReceivedSince(b)) case None => None },
      Select(t.contas, IsPendente),
      Select(t.dividas, IsAtiva),
      t.investimentos,
      Select(t.cartoes, IsAtivo),
      Select(t.sonhos, IsSonhoAtivo))
  }

  /** `rows?.reduce((sum, r) => sum + f(r), 0) || 0`. */
  function SumOr0<T>(rows: Option<seq<T>>, f: T -> int): (total: int)
    ensures rows.None? ==> total == 0
    ensures rows.Some? ==> total == SumOf(rows.value, f)
  {
    if rows.Some? then SumOf(rows.value, f) else 0
  }

  /** `rows?.length || 0`. */
  function CountOr0<T>(rows: Option<seq<T>>): (n: nat)
    ensures rows.None? ==> n == 0
    ensures rows.Some? ==> n == |rows.value|
  {
    if rows.Some? then |rows.value| else 0
  }

  /** The object passed to `setSummary`. */
  function Summarize(r: Results): (s: FinancialSummary)
    ensures r.ganhos.None? ==> s.totalGanhos == 0
    ensures r.contas.None? ==> s.totalContasFixas == 0
    ensures r.dividas.None? ==> s.totalDividas == 0
    ensures r.investimentos.None? ==> s.totalInvestimentos == 0
    ensures r.cartoes.None? ==> s.cartoesAtivos == 0
    ensures r.sonhos.None? ==> s.sonhosAtivos == 0
    ensures r.cartoes.Some? ==> s.cartoesAtivos == |r.cartoes.value|
    ensures r.sonhos.Some? ==> s.sonhosAtivos == |r.sonhos.value|
    ensures r.ganhos.Some? && (forall i :: 0 <= i < |r.ganhos.value| ==> r.ganhos.value[i].valor >= 0) ==> s.totalGanhos >= 0
    ensures r.contas.Some? && (forall i :: 0 <= i < |r.contas.value| ==> r.contas.value[i].valor >= 0) ==> s.totalContasFixas >= 0
  {
    FinancialSummary(
      SumOr0(r.ganhos, ValorGanho),
      SumOr0(r.contas, ValorConta),
      SumOr0(r.dividas, Restante),
      SumOr0(r.investimentos, Aplicado),
      CountOr0(r.cartoes),
      CountOr0(r.sonhos))
  }

  /** With no data from any query every figure is 0. */
  lemma NoDataIsZero(t: Tables, bound: string)
    requires t == Tables(None, None, None, None, None, None)
    ensures Summarize(Query(t, bound)) == Zero
  {
  }

  /** The summary of the user's tables for the month of `year`/`monthIndex`. */
  function SummaryOf(t: Tables, year: int, monthIndex: int): (s: FinancialSummary)
    requires 0 <= monthIndex < 12
    ensures t.ganhos.None? ==> s.totalGanhos == 0
    ensures t.contas.None? ==> s.totalContasFixas == 0
    ensures t.dividas.None? ==> s.totalDividas == 0
    ensures t.investimentos.None? ==> s.totalInvestimentos == 0
    ensures t.contas.Some? ==> s.totalContasFixas == SumOf(Filter(t.contas.value, IsPendente), ValorConta)
    ensures t.dividas.Some? ==> s.totalDividas == SumOf(Filter(t.dividas.value, IsAtiva), Restante)
    ensures t.investimentos.Some? ==> s.totalInvestimentos == SumOf(t.investimentos.value, Aplicado)
  {
    Summarize(Query(t, MonthBound(year, monthIndex)))
  }

  /** One more bill moves the pending total by its amount if it is pending, and not at all otherwise. */
  lemma OnlyPendingBillsCount(rows: seq<ContaRow>, c: ContaRow, t: Tables, year: int, monthIndex: int)
    requires 0 <= monthIndex < 12 && t.contas == Some(rows)
    ensures SummaryOf(t.(contas := Some(rows + [c])), year, monthIndex).totalContasFixas
      == SummaryOf(t, year, monthIndex).totalContasFixas + (if c.status == "pendente" then c.valor else 0)
  {
    SumFilterAppend(rows, c, IsPendente, ValorConta);
  }

  /** One more debt moves the debt total by its balance (0 when null) if it is active, and not at all otherwise. */
  lemma OnlyActiveDebtsCount(rows: seq<DividaRow>, d: DividaRow, t: Tables, year: int, monthIndex: int)
    requires 0 <= monthIndex < 12 && t.dividas == Some(rows)
    ensures SummaryOf(t.(dividas := Some(rows + [d])), year, monthIndex).totalDividas
      == SummaryOf(t, year, monthIndex).totalDividas + (if d.status == "ativa" then d.valor_restante.GetOr(0) else 0)
  {
    SumFilterAppend(rows, d, IsAtiva, Restante);
  }

  /**
   * For a four-digit year, one more income moves the month's income by its
   * amount exactly when it was received in the current month or later,
   * whatever its recurrence flag.
   */
  lemma IncomeSinceMonthStartCounts(rows: seq<GanhoRow>, g: GanhoRow, t: Tables, year: int, monthIndex: int)
    requires 1000 <= year <= 9999 && 0 <= monthIndex < 12 && t.ganhos == Some(rows)
    requires g.data_recebimento.day >= 1
    ensures var since := g.data_recebimento.year > year
                         || (g.data_recebimento.year == year && g.data_recebimento.month >= monthIndex + 1);
      SummaryOf(t.(ganhos := Some(rows + [g])), year, monthIndex).totalGanhos
      == SummaryOf(t, year, monthIndex).totalGanhos + (if since then g.valor else 0)
  {
    MonthBoundParses(year, monthIndex);
    var b := Date(year, monthIndex + 1, 1);
    SinceFirstOfMonth(g.data_recebimento, year, monthIndex + 1);
    SumFilterAppend(rows, g, ReceivedSince(b), ValorGanho);
  }

  /** The two counts are the numbers of active cards and active goals, never more than the rows. */
  lemma CountsAreActiveRows(t: Tables, year: int, monthIndex: int)
    requires 0 <= monthIndex < 12
    ensures t.cartoes.Some? ==> SummaryOf(t, year, monthIndex).cartoesAtivos == |Filter(t.cartoes.value, IsAtivo)| <= |t.cartoes.value|
    ensures t.sonhos.Some? ==> SummaryOf(t, year, monthIndex).sonhosAtivos == |Filter(t.sonhos.value, IsSonhoAtivo)| <= |t.sonhos.value|
    ensures t.cartoes.None? ==> SummaryOf(t, year, monthIndex).cartoesAtivos == 0
    ensures t.sonhos.None? ==> SummaryOf(t, year, monthIndex).sonhosAtivos == 0
  {
  }

  /** The hook's state: the summary and the loading flag. */
  class FinancialDataHook {
    var summary: FinancialSummary
    var loading: bool

    constructor ()
      ensures summary == Zero && loading
    {
      summary := Zero;
      loading := true;
    }

    /**
     * The effect: without a user nothing is fetched and the state stays as it
     * is (so `loading` stays true on first render); otherwise the queries run
     * for the month given by the clock (`year`, `monthIndex` from `getMonth()`),
     * the summary is replaced and loading ends.
     */
    method Load(user: Option<User>, year: int, monthIndex: int, tables: Tables)
      requires 0 <= monthIndex < 12
      modifies this
      ensures user.None? ==> summary == old(summary) && loading == old(loading)
      ensures user.Some? ==> summary == SummaryOf(tables, year, monthIndex) && !loading
    {
      if user.None? {
        return;
      }
      loading := true;
      var bound := MonthBound(year, monthIndex);
      var results := Query(tables, bound);
      summary := Summarize(results);
      loading := false;
    }
  }
}
