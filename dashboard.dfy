/** The dashboard page (src/pages/Index.tsx): the estimated balance and its sign. */
module Dashboard {
  import opened Units
  import opened FinancialData

  /** `saldoTotal`: the month's income less the pending bills and the active debts. */
  function SaldoTotal(s: FinancialSummary): (saldo: Cents)
    ensures saldo >= 0 <==> s.totalGanhos >= s.totalContasFixas + s.totalDividas
    ensures saldo + s.totalContasFixas + s.totalDividas == s.totalGanhos
  {
    s.totalGanhos - s.totalContasFixas - s.totalDividas
  }

  /** The balance card's colour and caption. */
  datatype Tone = Positive | Negative

  function ToneOf(saldo: Cents): (t: Tone)
    ensures t == Positive <==> saldo >= 0
  {
    if saldo >= 0 then Positive else Negative
  }

  /** What the page shows: skeletons while loading, then the summary and its balance. */
  datatype View = Skeletons | Summary(summary: FinancialSummary, saldo: Cents, tone: Tone)

  function Render(s: FinancialSummary, loading: bool): (v: View)
    ensures loading <==> v == Skeletons
    ensures !loading ==> v.summary == s && v.saldo == SaldoTotal(s) && (v.tone == Positive <==> v.saldo >= 0)
  {
    if loading then Skeletons else Summary(s, SaldoTotal(s), ToneOf(SaldoTotal(s)))
  }

  /** Investments and the two counts play no part in the balance. */
  lemma SaldoIgnoresAssets(s: FinancialSummary, investimentos: Cents, cartoes: nat, sonhos: nat)
    ensures SaldoTotal(s.(totalInvestimentos := investimentos, cartoesAtivos := cartoes, sonhosAtivos := sonhos)) == SaldoTotal(s)
  {
  }

  /** More income never lowers the balance; more bills or debts never raise it. */
  lemma SaldoMonotone(s: FinancialSummary, t: FinancialSummary)
    requires t.totalGanhos >= s.totalGanhos
    requires t.totalContasFixas <= s.totalContasFixas && t.totalDividas <= s.totalDividas
    ensures SaldoTotal(t) >= SaldoTotal(s)
    ensures SaldoTotal(t) - SaldoTotal(s)
      == (t.totalGanhos - s.totalGanhos) + (s.totalContasFixas - t.totalContasFixas) + (s.totalDividas - t.totalDividas)
  {
  }

  /** A user with no data at all sees a zero balance, shown as positive. */
  lemma ZeroSummaryIsPositive()
    ensures Render(Zero, false) == Summary(Zero, 0, Positive)
  {
  }
}
