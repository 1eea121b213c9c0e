/**
 * The credit-card screen (src/pages/CartoesCredito.tsx), the variant that keeps
 * its cards in page state: limit and bill totals, utilisation and its banding,
 * bank names and colours, and the form handlers.
 */
module CartoesPage {
  import opened Wrappers
  import opened Units
  import opened Lists

  /** One card as the page keeps it. */
  datatype CartaoCredito = CartaoCredito(
    id: string,
    banco: string,
    limite: Cents,
    faturaAtual: Cents,
    vencimentoFatura: int,
    cor: string)

  /** The dialog's fields: the bank key, two amounts and the due day. */
  datatype CartaoForm = CartaoForm(
    banco: string,
    limite: Input<Cents>,
    faturaAtual: Input<Cents>,
    vencimentoFatura: Input<int>)

  const EmptyForm := CartaoForm("", Blank, Blank, Blank)

  function Id(c: CartaoCredito): string { c.id }
  function Limite(c: CartaoCredito): int { c.limite }
  function Fatura(c: CartaoCredito): int { c.faturaAtual }

  /** The bank keys of `bancosCores`, apart from the `outros` fallback. */
  const KnownBanks: set<string> := {"nubank", "c6bank", "itau", "bradesco", "bb", "picpay", "xp"}

  /** `bancosCores[banco] || bancosCores.outros`. */
  function BancoCor(banco: string): (cor: string)
    ensures banco !in KnownBanks ==> cor == "#6B7280"
    ensures banco == "nubank" ==> cor == "#8A05BE"
  {
    match banco
    case "nubank" => "#8A05BE"
    case "c6bank" => "#FFD700"
    case "itau" => "#EC7000"
    case "bradesco" => "#CC092F"
    case "bb" => "#FFFF00"
    case "picpay" => "#21C25E"
    case "xp" => "#FF6B35"
    case _ => "#6B7280"
  }

  /** `getBancoNome`: the display name of a known key, the key itself otherwise. */
  function BancoNome(banco: string): (nome: string)
    ensures banco !in KnownBanks + {"outros"} ==> nome == banco
    ensures banco in KnownBanks + {"outros"} ==> nome != ""
  {
    match banco
    case "nubank" => "Nubank"
    case "c6bank" => "C6 Bank"
    case "itau" => "Itaú"
    case "bradesco" => "Bradesco"
    case "bb" => "Banco do Brasil"
    case "picpay" => "PicPay"
    case "xp" => "XP Investimentos"
    case "outros" => "Outros"
    case _ => banco
  }

  /** `totalLimites`. */
  function TotalLimites(cs: seq<CartaoCredito>): (total: Cents)
    ensures cs == [] ==> total == 0
    ensures (forall i :: 0 <= i < |cs| ==> cs[i].limite >= 0) ==>
      0 <= total && forall i :: 0 <= i < |cs| ==> cs[i].limite <= total
  {
    SumBoundsEach(cs, Limite);
    SumOf(cs, Limite)
  }

  /** `totalFaturas`. */
  function TotalFaturas(cs: seq<CartaoCredito>): (total: Cents)
    ensures cs == [] ==> total == 0
    ensures (forall i :: 0 <= i < |cs| ==> cs[i].faturaAtual >= 0) ==>
      0 <= total && forall i :: 0 <= i < |cs| ==> cs[i].faturaAtual <= total
  {
    SumBoundsEach(cs, Fatura);
    SumOf(cs, Fatura)
  }

  /** The room left on one card. */
  function Disponivel(c: CartaoCredito): int { c.limite - c.faturaAtual }

  /** `limiteDisponivel`: the total limit minus the total of the bills. */
  function LimiteDisponivel(cs: seq<CartaoCredito>): (d: Cents)
    ensures d == SumOf(cs, Disponivel)
  {
    SumMinus(cs, Limite, Fatura, Disponivel);
    TotalLimites(cs) - TotalFaturas(cs)
  }

  /**
   * A JavaScript number obtained as `a / b * 100` from two amounts: a finite
   * percentage, or, for a zero divisor, an infinity or NaN.
   */
  datatype Percentual = Percent(value: real) | PlusInfinity | MinusInfinity | NotANumber

  /** `(parte / todo) * 100`, with no guard against a zero `todo`, as both utilisation figures are computed. */
  function Utilizacao(parte: Cents, todo: Cents): (u: Percentual)
    ensures todo != 0 <==> u.Percent?
    ensures u.Percent? ==> u.value * (todo as real) == 100.0 * (parte as real)
    ensures todo == 0 ==> (u == PlusInfinity <==> parte > 0) && (u == MinusInfinity <==> parte < 0)
  {
    if todo != 0 then Percent((parte as real) / (todo as real) * 100.0)
    else if parte > 0 then PlusInfinity
    else if parte < 0 then MinusInfinity
    else NotANumber
  }

  /** `percentualUtilizacao`: the bills as a percentage of the limits. */
  function PercentualUtilizacao(cs: seq<CartaoCredito>): (u: Percentual)
    ensures TotalLimites(cs) != 0 <==> u.Percent?
    ensures u.Percent? ==> u.value * (TotalLimites(cs) as real) == 100.0 * (TotalFaturas(cs) as real)
    ensures cs == [] ==> u == NotANumber
  {
    Utilizacao(TotalFaturas(cs), TotalLimites(cs))
  }

  /** The utilisation of one card, as each card's row shows it. */
  function UtilizacaoCartao(c: CartaoCredito): (u: Percentual)
    ensures c.limite != 0 <==> u.Percent?
    ensures u.Percent? ==> u.value * (c.limite as real) == 100.0 * (c.faturaAtual as real)
    ensures c.limite == 0 ==> (u == PlusInfinity <==> c.faturaAtual > 0) && (u == NotANumber <==> c.faturaAtual == 0)
  {
    Utilizacao(c.faturaAtual, c.limite)
  }

  /** The three bands of `getUtilizacaoStatus`. */
  datatype Status = Bom | Atencao | Alto

  /**
   * `getUtilizacaoStatus`: below 30 is good, below 60 needs attention, the rest
   * is high. Comparisons with NaN are false, so NaN lands in the last band, as
   * does +∞; −∞ is below 30.
   */
  function UtilizacaoStatus(u: Percentual): (s: Status)
    ensures u.Percent? ==> (s == Bom <==> u.value < 30.0)
    ensures u.Percent? ==> (s == Atencao <==> 30.0 <= u.value < 60.0)
    ensures u.Percent? ==> (s == Alto <==> u.value >= 60.0)
    ensures u == NotANumber || u == PlusInfinity ==> s == Alto
    ensures u == MinusInfinity ==> s == Bom
  {
    match u
    case Percent(v) => if v < 30.0 then Bom else if v < 60.0 then Atencao else Alto
    case PlusInfinity => Alto
    case MinusInfinity => Bom
    case NotANumber => Alto
  }

  /** The band CSS colours of `getUtilizacaoStatus`. */
  function StatusColor(s: Status): (c: string)
    ensures c == "text-green-400" <==> s == Bom
    ensures c == "text-yellow-400" <==> s == Atencao
    ensures c == "text-red-400" <==> s == Alto
  {
    match s
    case Bom => "text-green-400"
    case Atencao => "text-yellow-400"
    case Alto => "text-red-400"
  }

  /** A card's utilisation is shown green below 30%, yellow from 30% below 60% and red from 60%. */
  lemma UtilizacaoColor(u: Percentual)
    requires u.Percent?
    ensures StatusColor(UtilizacaoStatus(u)) == "text-green-400" <==> u.value < 30.0
    ensures StatusColor(UtilizacaoStatus(u)) == "text-yellow-400" <==> 30.0 <= u.value < 60.0
    ensures StatusColor(UtilizacaoStatus(u)) == "text-red-400" <==> u.value >= 60.0
  {
  }

  /** A percentage `u` of `todo` is below `k` exactly when `100 * parte` is below `k * todo`. */
  lemma PercentBelow(u: real, parte: real, todo: real, k: real)
    requires todo > 0.0 && u * todo == 100.0 * parte
    ensures u < k <==> 100.0 * parte < k * todo
  {
    if u < k {
      assert u * todo < k * todo;
    } else {
      assert u * todo >= k * todo;
    }
  }

  /** The band of a card with a positive limit depends only on how its bill compares with 30% and 60% of the limit. */
  lemma CardStatusByThresholds(fatura: Cents, limite: Cents)
    requires limite > 0
    ensures UtilizacaoStatus(Utilizacao(fatura, limite)) == Bom <==> 100 * fatura < 30 * limite
    ensures UtilizacaoStatus(Utilizacao(fatura, limite)) == Alto <==> 100 * fatura >= 60 * limite
  {
    var u := Utilizacao(fatura, limite).value;
    PercentBelow(u, fatura as real, limite as real, 30.0);
    PercentBelow(u, fatura as real, limite as real, 60.0);
  }

  /** A higher utilisation never falls in a lower band. */
  lemma StatusMonotone(u: real, v: real)
    requires u <= v
    ensures UtilizacaoStatus(Percent(u)) == Alto ==> UtilizacaoStatus(Percent(v)) == Alto
    ensures UtilizacaoStatus(Percent(v)) == Bom ==> UtilizacaoStatus(Percent(u)) == Bom
  {
  }

  /** The required fields: all four. */
  predicate FormValid(f: CartaoForm) {
    f.banco != "" && f.limite.Entered? && f.faturaAtual.Entered? && f.vencimentoFatura.Entered?
  }

  /** `novoCartao`: the card the dialog produces; an unknown bank takes the `outros` colour. */
  function NovoCartao(f: CartaoForm, id: string): (c: CartaoCredito)
    requires FormValid(f)
    ensures c.id == id && c.banco == f.banco
    ensures c.limite == f.limite.value && c.faturaAtual == f.faturaAtual.value
    ensures c.vencimentoFatura == f.vencimentoFatura.value
    ensures c.cor == BancoCor(f.banco)
  {
    CartaoCredito(id, f.banco, f.limite.value, f.faturaAtual.value, f.vencimentoFatura.value, BancoCor(f.banco))
  }

  /** `handleEdit`: the dialog filled from an existing card. */
  function FormOf(c: CartaoCredito): CartaoForm {
    CartaoForm(c.banco, Entered(c.limite), Entered(c.faturaAtual), Entered(c.vencimentoFatura))
  }

  /** Opening a card for editing and saving it unchanged gives back the same card. */
  lemma EditRoundTrip(c: CartaoCredito)
    requires c.banco != "" && c.cor == BancoCor(c.banco)
    ensures FormValid(FormOf(c))
    ensures NovoCartao(FormOf(c), c.id) == c
  {
  }

  /** The page's state: the cards, the dialog's fields, the card being edited and the dialog flag. */
  class CartoesScreen {
    var cartoes: seq<CartaoCredito>
    var form: CartaoForm
    var editing: Option<CartaoCredito>
    var dialogOpen: bool

    constructor (initial: seq<CartaoCredito>)
      ensures cartoes == initial && form == EmptyForm && editing == None && !dialogOpen
    {
      cartoes := initial;
      form := EmptyForm;
      editing := None;
      dialogOpen := false;
    }

    /**
     * `handleSubmit`: with a field empty nothing changes; otherwise the edited
     * card is replaced (keeping its id) or a new one is appended with the id
     * `freshId`, and the dialog is reset.
     */
    method Submit(freshId: string)
      modifies this
      ensures !FormValid(old(form)) ==> unchanged(this)
      ensures FormValid(old(form)) && old(editing).Some? ==>
        cartoes == ReplaceById(old(cartoes), Id, old(editing).value.id, NovoCartao(old(form), old(editing).value.id))
      ensures FormValid(old(form)) && old(editing).None? ==>
        cartoes == old(cartoes) + [NovoCartao(old(form), freshId)]
      ensures FormValid(old(form)) ==> form == EmptyForm && editing == None && !dialogOpen
    {
      if !FormValid(form) {
        return;
      }
      var id := if editing.Some? then editing.value.id else freshId;
      var novo := NovoCartao(form, id);
      if editing.Some? {
        cartoes := ReplaceById(cartoes, Id, editing.value.id, novo);
      } else {
        cartoes := cartoes + [novo];
      }
      form := EmptyForm;
      editing := None;
      dialogOpen := false;
    }

    /** `handleEdit`: opens the dialog on an existing card. */
    method StartEdit(c: CartaoCredito)
      modifies this
      ensures editing == Some(c) && form == FormOf(c) && dialogOpen
      ensures cartoes == old(cartoes)
    {
      editing := Some(c);
      form := FormOf(c);
      dialogOpen := true;
    }

    /** `handleDelete`: removes every card with the id, keeping the order of the others. */
    method Delete(id: string)
      modifies this
      ensures cartoes == WithoutId(old(cartoes), Id, id)
      ensures form == old(form) && editing == old(editing) && dialogOpen == old(dialogOpen)
    {
      cartoes := WithoutId(cartoes, Id, id);
    }
  }
}
