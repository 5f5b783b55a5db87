/** The bot's own transactions, seen again by the handler of checked transactions. */
module Feedback {
  import opened Lists
  import opened Ledger
  import opened Replication
  import opened Runs

  /** A transaction as its event carries it, with its properties by name. */
  datatype Payload = Payload(
    id: nat, date: int, order: int, amount: real, posted: bool, checked: bool,
    debitsGood: bool, creditsGood: bool, properties: map<string, string>)

  /** How the text of a quantity is read; a blank text is no quantity. */
  type Reader = string -> Option<Quantity>

  function Property(p: Payload, name: string): Option<string> {
    if name in p.properties then Some(p.properties[name]) else None
  }

  /** What the handler reads of an event. */
  function Document(read: Reader, p: Payload): FinTx {
    FinTx(p.id, p.date, p.order, p.amount, p.posted, p.checked, p.debitsGood, p.creditsGood,
          if Property(p, "quantity").Some? then read(Property(p, "quantity").value) else None,
          Property(p, "purchase_code"), Property(p, "purchase_invoice"), Property(p, "sale_invoice"),
            Property(p, "credit_note"))
  }

  // ----- What the bot writes -----

  /** The texts the bot writes for amounts, ids, logs and credit notes. */
  datatype Writer = Writer(
    amount: real -> string, id: nat -> string, log: seq<Entry> -> string, liquidation: Liquidation -> string,
    note: NoteProp -> string)

  /** Properties that replication copies from the financial document. */
  datatype Copied = Copied(order: string, excCode: string, saleInvoice: string, saleAmount: string)

  /** A property by name, if it is set. */
  datatype Named = Named(name: string, text: Option<string>)

  function Written(ps: seq<Named>): map<string, string> {
    if |ps| == 0 then map[]
    else
      var m, last := Written(ps[..|ps| - 1]), ps[|ps| - 1];
      if last.text.Some? then m[last.name := last.text.value] else m
  }

  function Texted<T>(write: T -> string, x: Option<T>): Option<string> { if x.Some? then Some(write(x.value)) else
        None }

  function PostingProperties(w: Writer, c: Cogs, invoice: string): seq<Named> {
    [Named("quantity_sold", Some(w.amount(c.quantitySold))), Named("sale_invoice", Some(invoice))]
  }

  function SaleProperties(w: Writer, t: Tx, x: Copied): seq<Named> {
    [Named("sale_invoice", Some(x.saleInvoice)), Named("order", Some(x.order)),
     Named("sale_amount", Some(x.saleAmount)),
     Named("exc_code", Some(x.excCode)), Named("total_cost", Texted(w.amount, t.totalCost)),
     Named("purchase_log", Texted(w.log, t.purchaseLog))]
  }

  function LotProperties(w: Writer, t: Tx, x: Copied): seq<Named> {
    [Named("order", Some(x.order)), Named("exc_code", Some(x.excCode)), Named("purchase_code", t.code),
     Named("original_quantity", Texted((q: Quantity) => w.amount(q), t.originalQuantity)),
     Named("good_purchase_cost", Texted(w.amount, t.purchaseCost)), Named("total_cost", Texted(w.amount, t.totalCost)),
     Named("parent_id", Texted(w.id, t.parent)), Named("liquidation_log", Texted(w.liquidation, t.liquidation)),
     Named("additional_costs", Texted(w.amount, t.addCosts)), Named("credit_note", Texted(w.note, t.creditNote))]
  }

  /** A COGS posting, with the id it was given, or an inventory transaction. */
  datatype Own = Posting(c: Cogs, id: nat, invoice: string) | Inventory(t: Tx, copied: Copied)

  /** The event of a transaction of the bot: a posting takes from the good's account. */
  function OwnPayload(w: Writer, own: Own): Payload {
    match own
    case Posting(c, id, invoice) => Payload(id, c.date, 0, c.amount, true, true, false, true,
                                           Written(PostingProperties(w, c, invoice)))
    case Inventory(t, copied) =>
      Payload(t.id, t.date, t.order, t.amount, t.posted, t.checked, t.flow == BuyToGood, t.flow != BuyToGood,
              Written(if t.flow == GoodToSell then SaleProperties(w, t, copied) else LotProperties(w, t, copied)))
  }

  // ----- No feedback -----

  ghost predicate Lacks(m: map<string, string>) { "quantity" !in m && "purchase_invoice" !in m }

  /** The name of a property that the handler of checked transactions does not read as a quantity or
      as a purchase invoice. */
  ghost predicate OtherName(name: string) { name != "quantity" && name != "purchase_invoice" }

  /** `quantity_sold`, `original_quantity` and the others are not `quantity`. */
  lemma {:induction false} NamesApart()
    ensures OtherName("quantity_sold") && OtherName("sale_invoice") && OtherName("order") && OtherName("sale_amount")
    ensures OtherName("exc_code") && OtherName("total_cost") && OtherName("purchase_log") && OtherName("purchase_code")
    ensures OtherName("original_quantity") && OtherName("good_purchase_cost") && OtherName("parent_id")
    ensures OtherName("liquidation_log") && OtherName("additional_costs") && OtherName("credit_note")
  {
    assert "exc_code"[0] == 'e' && "additional_costs"[0] == 'a';
  }

  ghost predicate AllOther(ps: seq<Named>) { forall i :: 0 <= i < |ps| ==> OtherName(ps[i].name) }

  lemma {:induction false} WrittenLacks(ps: seq<Named>)
    requires AllOther(ps)
    ensures Lacks(Written(ps))
  {
    if |ps| > 0 { WrittenLacks(ps[..|ps| - 1]); }
  }

  lemma {:induction false} OwnLacks(w: Writer, own: Own)
    ensures Lacks(OwnPayload(w, own).properties)
  {
    NamesApart();
    match own
    case Posting(c, id, invoice) => WrittenLacks(PostingProperties(w, c, invoice));
    case Inventory(t, copied) =>
      WrittenLacks(SaleProperties(w, t, copied));
      WrittenLacks(LotProperties(w, t, copied));
  }

  /** The checked event of a transaction that the bot made. */
  ghost predicate Echo(read: Reader, w: Writer, step: Step) {
    step.Arrival? && exists own :: step.f == Document(read, OwnPayload(w, own))
  }

  ghost function NotEcho(read: Reader, w: Writer): Step -> bool { (step: Step) => !Echo(read, w, step) }

  lemma {:induction false} EchoChangesNothing(cfg: Config, read: Reader, w: Writer, s: State, step: Step)
    requires Echo(read, w, step)
    ensures Do(cfg, s, step) == s && Admissible(s, step)
  {
    var own :| step.f == Document(read, OwnPayload(w, own));
    OwnLacks(w, own);
  }

  /** No feedback: in every history the checked events of the COGS postings and of the inventory
      transactions change nothing; the history without them ends in the same state. */
  lemma {:induction false} NoFeedback(cfg: Config, read: Reader, w: Writer, steps: seq<Step>)
    ensures Run(cfg, Filter(NotEcho(read, w), steps)) == Run(cfg, steps)
    ensures AdmissibleRun(cfg, Filter(NotEcho(read, w), steps)) <==> AdmissibleRun(cfg, steps)
    decreases |steps|
  {
    if |steps| > 0 {
      var init, step := steps[..|steps| - 1], steps[|steps| - 1];
      NoFeedback(cfg, read, w, init);
      var fs := Filter(NotEcho(read, w), init);
      if Echo(read, w, step) {
        EchoChangesNothing(cfg, read, w, Run(cfg, init), step);
      } else {
        assert (fs + [step])[..|fs|] == fs;
      }
    }
  }

  /** It is the name `quantity_sold` that keeps a posting out: were the same number written under
      `quantity`, a posting that names its sale's invoice would be replicated as a sale. */
  lemma {:induction false} QuantityFeedsBack(read: Reader, w: Writer, c: Cogs, id: nat, invoice: string, s: State,
                                             millis: nat)
    requires invoice != "" && |Filter(HasRemote(id), s.txs)| == 0
    requires read(w.amount(c.quantitySold)).Some? && read(w.amount(c.quantitySold)).value != 0.0
    ensures var p := OwnPayload(w, Posting(c, id, invoice));
            var q := p.(properties := p.properties["quantity" := w.amount(c.quantitySold)]);
            |Arrive(s, Document(read, q), millis).txs| == |s.txs| + 1
  {
    NamesApart();
  }
}
