/** The transactions of the Inventory Book and of the Financial Book, for one good account. */
module Ledger {
  import opened Lists

  datatype Option<+T> = None | Some(value: T)

  /** Quantities are exact and never negative. */
  type Quantity = q: real | q >= 0.0

  /** The accounts of an inventory transaction, credit side first: a purchase comes from
      Buy (incoming), a sale goes to Sell (outgoing), a returned purchase goes back to Buy. */
  datatype Flow = BuyToGood | GoodToSell | GoodToBuy

  /** Financial id of a replica, credit note number of a credit-note split, or UUID of a
      sale split; `Pending` stands for a UUID not drawn yet. */
  datatype RemoteId = Fin(doc: nat) | Note(number: string) | Uuid(n: nat) | Pending

  /** `credit_note`: the note's number, or what was applied to a purchase lot. */
  datatype NoteProp = Number(number: string) | Applied(quantity: real, amount: real)

  datatype Liquidation = Liquidation(sale: nat, date: int, quantity: real, unitCost: real)

  datatype Entry = Entry(lot: nat, quantity: real, unitCost: real)

  datatype Tx = Tx(
    id: nat, remote: RemoteId, date: int, order: int, millis: Option<nat>,
    flow: Flow, amount: Quantity, posted: bool, checked: bool, byBot: bool,
    code: Option<string>,
    totalCost: Option<real>, originalQuantity: Option<Quantity>, purchaseCost: Option<real>,
    parent: Option<nat>, liquidation: Option<Liquidation>, purchaseLog: Option<seq<Entry>>,
    addCosts: Option<real>, creditNote: Option<NoteProp>)

  /** A document of the Financial Book; `debitsGood` and `creditsGood` say on which side the
      good's account stands. */
  datatype FinTx = FinTx(
    id: nat, date: int, order: int, amount: real, posted: bool, checked: bool,
    debitsGood: bool, creditsGood: bool, quantity: Option<Quantity>, code: Option<string>,
    purchaseInvoice: Option<string>, saleInvoice: Option<string>, creditNote: Option<string>)

  /** A cost-of-goods-sold posting of the Financial Book, linked to its sale by remote id. */
  datatype Cogs = Cogs(sale: nat, date: int, amount: real, quantitySold: real)

  /** `cogs_calc_date`: missing, blanked by a reset, or a date. */
  datatype CalcDate = Absent | Blank | On(date: int) {
    function Value(): Option<int> { if On? then Some(date) else None }
  }

  /** What the bot persists about one good: the live inventory transactions in posting order,
      the live COGS postings, the account's two properties, the locks and the id supplies. */
  datatype State = State(
    txs: seq<Tx>, cogs: seq<Cogs>, calcDate: CalcDate, rebuild: bool,
    locked: set<nat>, cogsLocked: set<nat>, nextId: nat, nextUuid: nat)

  /** `div` and `times` are the division and product of the amount library, with whatever
      rounding they do; a quantity strictly within `halfUnit` of zero rounds to zero at the
      Inventory Book's digits. */
  datatype Config = Config(div: (real, real) -> real, times: (real, real) -> real, halfUnit: real)

  /** How far the queries for additional costs and credits reach, either way: two months of thirty days. */
  const QUERY_RANGE := 60

  predicate Truthy(s: Option<string>) { s.Some? && s.value != "" }

  function OrZero(r: Option<real>): real { if r.Some? then r.value else 0.0 }

  function Cost(t: Tx): real { OrZero(t.totalCost) }

  function IdOf(t: Tx): nat { t.id }
  function CodeOf(t: Tx): Option<string> { t.code }
  function NumberOf(t: Tx): Option<NoteProp> { t.creditNote }
  function RemoteOf(t: Tx): RemoteId { t.remote }
  function SaleOf(c: Cogs): nat { c.sale }
  function AmountOf(t: Tx): real { t.amount }
  function PostedAmount(c: Cogs): real { c.amount }

  predicate IsSale(t: Tx) { t.posted && t.flow == GoodToSell }
  predicate IsPurchase(t: Tx) { t.posted && t.flow == BuyToGood }
  predicate IsCreditNote(t: Tx) { t.posted && t.flow == GoodToBuy && t.creditNote.Some? }

  predicate IsReplica(t: Tx) { t.parent.None? }
  predicate IsSplit(t: Tx) { t.parent.Some? }
  predicate Unchecked(t: Tx) { !t.checked }

  /** The root of a lot: its parent for a split, itself otherwise. */
  function RootOf(t: Tx): nat { if t.parent.Some? then t.parent.value else t.id }

  /** `t` as staged in `u`, or unchanged. */
  function Lookup(u: map<nat, Tx>, t: Tx): Tx { if t.id in u then u[t.id] else t }

  /** A batch update: every transaction staged in `u` takes its staged value. */
  function Apply(u: map<nat, Tx>, xs: seq<Tx>): seq<Tx> {
    seq(|xs|, i requires 0 <= i < |xs| => Lookup(u, xs[i]))
  }

  lemma {:induction false} ApplyAppend(u: map<nat, Tx>, xs: seq<Tx>, ys: seq<Tx>)
    ensures Apply(u, xs + ys) == Apply(u, xs) + Apply(u, ys)
  {}

  /** Updates of other transactions change nothing. */
  lemma {:induction false} ApplyOther(u: map<nat, Tx>, xs: seq<Tx>)
    requires forall t :: t in xs ==> t.id !in u
    ensures Apply(u, xs) == xs
  {}

  /** Filtering updated transactions, when `p` after the update is `q` after it and `r` before. */
  lemma {:induction false} FilterApply(p: Tx -> bool, q: Tx -> bool, r: Tx -> bool, u: map<nat, Tx>, xs: seq<Tx>)
    requires forall t :: t in xs ==> p(Lookup(u, t)) == (r(t) && q(Lookup(u, t)))
    ensures Filter(p, Apply(u, xs)) == Filter(q, Apply(u, Filter(r, xs)))
  {
    if |xs| > 0 {
      var init, x := xs[..|xs| - 1], xs[|xs| - 1];
      assert xs == init + [x] && x in xs;
      FilterApply(p, q, r, u, init);
      ApplySnoc(u, init, x);
      FilterSnoc(p, Apply(u, init), Lookup(u, x));
      FilterSnoc(r, init, x);
      ApplySnoc(u, Filter(r, init), x);
      FilterSnoc(q, Apply(u, Filter(r, init)), Lookup(u, x));
    }
  }

  lemma {:induction false} ApplySnoc(u: map<nat, Tx>, xs: seq<Tx>, x: Tx)
    ensures Apply(u, xs + [x]) == Apply(u, xs) + [Lookup(u, x)]
  {}

  /** A property the updates keep selects the same transactions before and after. */
  lemma {:induction false} FilterKept(p: Tx -> bool, u: map<nat, Tx>, xs: seq<Tx>)
    requires forall t :: t in xs ==> p(Lookup(u, t)) == p(t)
    ensures Filter(p, Apply(u, xs)) == Apply(u, Filter(p, xs))
  {
    FilterApply(p, p, p, u, xs);
    FilterSound(p, xs);
    var ys := Apply(u, Filter(p, xs));
    forall y | y in ys ensures p(y) {
      var i :| 0 <= i < |ys| && ys[i] == y;
      assert Filter(p, xs)[i] in Filter(p, xs);
    }
    FilterAll(p, ys);
  }
}
