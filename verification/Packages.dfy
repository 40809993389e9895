/** Token packages, the terms a transaction keeps of them, and the messages computed from those terms. */
module Packages {
  import opened Results
  import opened Text

  datatype PaymentBonus = PaymentBonus(slug: string, amount: Option<int>)

  /** A token package as the catalogue returns it; `None` is a null field. */
  datatype Package = Package(
    tokenName: string,
    tokenSymbol: string,
    price: Option<int>,
    noOfCoins: Option<int>,
    bonus: Option<int>,
    paymentBonus: seq<PaymentBonus>,
    currency: Option<string>)

  /** The part of a transaction's metadata that is fixed at pay time. */
  datatype Terms = Terms(
    tokenName: string,
    tokenSymbol: string,
    tokenAmount: Option<int>,
    tokenBonus: int,
    currency: string,
    price: int)

  datatype Metadata = Metadata(terms: Terms, qrCode: Option<string>, card: Option<string>)

  function OrZero(v: Option<int>): int {
    if v.Some? then v.value else 0
  }

  /** A null column counts as zero, any other as itself. */
  lemma NullCountsAsZero(n: int)
    ensures OrZero(None) == 0 && OrZero(Some(n)) == n
  {
  }

  /** `list.find(b => paymentType == b.slug)` */
  function FirstBonus(list: seq<PaymentBonus>, paymentType: string): Option<PaymentBonus> {
    if list == [] then None
    else if list[0].slug == paymentType then Some(list[0])
    else FirstBonus(list[1..], paymentType)
  }

  function BonusAmount(b: Option<PaymentBonus>): int {
    if b.Some? then OrZero(b.value.amount) else 0
  }

  function TermsOf(p: Package, paymentType: string): Terms {
    Terms(p.tokenName, p.tokenSymbol, p.noOfCoins,
          OrZero(p.bonus) + BonusAmount(FirstBonus(p.paymentBonus, paymentType)),
          if p.currency.Some? then p.currency.value else "",
          OrZero(p.price))
  }

  function ChargeAmount(p: Package): int {
    OrZero(p.price) * 100
  }

  /* ---------- what a package owes, stated without the code's search ---------- */

  ghost predicate IsFirstMatch(list: seq<PaymentBonus>, paymentType: string, i: nat) {
    && i < |list|
    && list[i].slug == paymentType
    && forall j :: 0 <= j < i ==> list[j].slug != paymentType
  }

  ghost function PaymentBonusOwed(list: seq<PaymentBonus>, paymentType: string): int {
    if exists i: nat :: IsFirstMatch(list, paymentType, i) then
      var i: nat :| IsFirstMatch(list, paymentType, i);
      OrZero(list[i].amount)
    else 0
  }

  ghost function CoinsOwed(p: Package, paymentType: string): int {
    OrZero(p.noOfCoins) + OrZero(p.bonus) + PaymentBonusOwed(p.paymentBonus, paymentType)
  }

  lemma {:induction false} FirstBonusIsFirstMatch(list: seq<PaymentBonus>, paymentType: string)
    ensures FirstBonus(list, paymentType).None? <==> forall i :: 0 <= i < |list| ==> list[i].slug != paymentType
    ensures FirstBonus(list, paymentType).Some? ==>
      exists i: nat :: IsFirstMatch(list, paymentType, i) && list[i] == FirstBonus(list, paymentType).value
  {
    if list != [] {
      if list[0].slug == paymentType {
        assert IsFirstMatch(list, paymentType, 0);
      } else {
        var rest := list[1..];
        FirstBonusIsFirstMatch(rest, paymentType);
        assert forall i :: 1 <= i < |list| ==> list[i] == rest[i - 1];
        if FirstBonus(rest, paymentType).Some? {
          var i: nat :| IsFirstMatch(rest, paymentType, i) && rest[i] == FirstBonus(rest, paymentType).value;
          assert IsFirstMatch(list, paymentType, i + 1);
        } else {
          forall i | 0 <= i < |list| ensures list[i].slug != paymentType {
            if i > 0 { assert list[i] == rest[i - 1]; }
          }
        }
      }
    }
  }

  /** The stored amount and bonus together are exactly the coins the package owes for that payment type. */
  lemma TermsHoldTheCoinsOwed(p: Package, paymentType: string)
    ensures var t := TermsOf(p, paymentType); OrZero(t.tokenAmount) + t.tokenBonus == CoinsOwed(p, paymentType)
  {
    var list := p.paymentBonus;
    FirstBonusIsFirstMatch(list, paymentType);
    forall i: nat, j: nat | IsFirstMatch(list, paymentType, i) && IsFirstMatch(list, paymentType, j) ensures i == j {
    }
  }

  /** Every stored term is its own column of the package, and the bonus is the package's and the payment type's together. */
  lemma TermsHoldThePackage(p: Package, paymentType: string)
    ensures
      var t := TermsOf(p, paymentType);
      && t.tokenName == p.tokenName && t.tokenSymbol == p.tokenSymbol && t.tokenAmount == p.noOfCoins
      && t.tokenBonus == OrZero(p.bonus) + PaymentBonusOwed(p.paymentBonus, paymentType)
      && t.price == OrZero(p.price)
      && (p.currency.None? ==> t.currency == "") && (p.currency.Some? ==> p.currency == Some(t.currency))
  {
    TermsHoldTheCoinsOwed(p, paymentType);
  }

  /* ---------- the credit message ---------- */

  datatype SqsMessage = SqsMessage(
    userRef: string,
    tokenSymbol: string,
    coinValue: string,
    transactionId: nat,
    referenceId: string,
    packageId: string,
    packageName: string,
    packageCoins: string,
    bonusCoins: string,
    price: string,
    currency: string)

  datatype ComposeError = AmountIsNull

  /** How a template literal prints a possibly null amount. */
  function AmountText(amount: Option<int>): string {
    if amount.Some? then ToText(amount.value) else "null"
  }

  /** The message sent for a completed charge; it throws when it would call `toString` on a null amount. */
  function Compose(tx: nat, productId: string, terms: Terms, userRef: string, chargeId: string)
    : Result<SqsMessage, ComposeError>
  {
    if terms.tokenBonus == 0 && terms.tokenAmount.None? then
      Err(AmountIsNull)
    else
      var packageName :=
        if terms.tokenBonus != 0 then AmountText(terms.tokenAmount) + "+" + ToText(terms.tokenBonus)
        else ToText(terms.tokenAmount.value);
      Ok(SqsMessage(
        userRef,
        terms.tokenSymbol,
        ToText(OrZero(terms.tokenAmount) + terms.tokenBonus),
        tx,
        chargeId,
        productId,
        packageName,
        if terms.tokenAmount.Some? then ToText(terms.tokenAmount.value) else "0",
        ToText(terms.tokenBonus),
        ToText(terms.price),
        terms.currency))
  }

  /** Reads a package name back as (amount, bonus); without a plus sign the bonus is zero. */
  function ParsePackageName(name: string): (int, int) {
    var i := IndexOf(name, '+');
    if i == |name| then (ParseInt(name), 0) else (ParseInt(name[..i]), ParseInt(name[i + 1..]))
  }

  /** The package name, the coin value and the itemised fields of a message agree with one another and with the terms. */
  lemma PackageNameRoundTrip(tx: nat, productId: string, terms: Terms, userRef: string, chargeId: string)
    requires terms.tokenAmount.Some?
    ensures
      var r := Compose(tx, productId, terms, userRef, chargeId);
      && r.Ok?
      && ParsePackageName(r.value.packageName) == (terms.tokenAmount.value, terms.tokenBonus)
      && ParseInt(r.value.coinValue)
         == ParsePackageName(r.value.packageName).0 + ParsePackageName(r.value.packageName).1
      && ParseInt(r.value.coinValue) == ParseInt(r.value.packageCoins) + ParseInt(r.value.bonusCoins)
  {
    var amount, bonus := terms.tokenAmount.value, terms.tokenBonus;
    TextRoundTrip(amount);
    TextRoundTrip(bonus);
    TextRoundTrip(amount + bonus);
    var name := Compose(tx, productId, terms, userRef, chargeId).value.packageName;
    var i := IndexOf(name, '+');
    if bonus != 0 {
      var a, b := ToText(amount), ToText(bonus);
      assert name == a + "+" + b;
      assert name[|a|] == '+';
      assert '+' in name[..|a| + 1] && '+' !in name[..|a|];
      assert name[..i] == a && name[i + 1..] == b;
    }
  }

  /** A message's package name spells amount and bonus, a null amount as `null`; without a bonus it is the amount alone. */
  ghost predicate NamesPackage(name: string, amount: Option<int>, bonus: int) {
    if bonus == 0 then amount.Some? && name == ToText(amount.value)
    else name == (if amount.Some? then ToText(amount.value) else "null") + "+" + ToText(bonus)
  }

  /** Each field of a composed message against the package's own columns and the charge. */
  ghost predicate Announces(
    msg: SqsMessage, p: Package, paymentType: string, productId: string, tx: nat, userRef: string, chargeId: string)
  {
    var bonus := OrZero(p.bonus) + PaymentBonusOwed(p.paymentBonus, paymentType);
    && msg.userRef == userRef && msg.transactionId == tx && msg.referenceId == chargeId && msg.packageId == productId
    && msg.tokenSymbol == p.tokenSymbol
    && ParseInt(msg.coinValue) == CoinsOwed(p, paymentType)
    && ParseInt(msg.packageCoins) == OrZero(p.noOfCoins)
    && ParseInt(msg.bonusCoins) == bonus
    && ParseInt(msg.price) == OrZero(p.price)
    && (p.currency.None? ==> msg.currency == "") && (p.currency.Some? ==> p.currency == Some(msg.currency))
    && NamesPackage(msg.packageName, p.noOfCoins, bonus)
  }

  lemma ComposedName(tx: nat, productId: string, terms: Terms, userRef: string, chargeId: string)
    requires Compose(tx, productId, terms, userRef, chargeId).Ok?
    ensures NamesPackage(Compose(tx, productId, terms, userRef, chargeId).value.packageName, terms.tokenAmount, terms.tokenBonus)
  {
  }

  lemma ComposedNumbers(tx: nat, productId: string, terms: Terms, userRef: string, chargeId: string)
    requires Compose(tx, productId, terms, userRef, chargeId).Ok?
    ensures
      var msg := Compose(tx, productId, terms, userRef, chargeId).value;
      && ParseInt(msg.coinValue) == OrZero(terms.tokenAmount) + terms.tokenBonus
      && ParseInt(msg.packageCoins) == OrZero(terms.tokenAmount)
      && ParseInt(msg.bonusCoins) == terms.tokenBonus
      && ParseInt(msg.price) == terms.price
  {
    TextRoundTrip(OrZero(terms.tokenAmount) + terms.tokenBonus);
    TextRoundTrip(OrZero(terms.tokenAmount));
    TextRoundTrip(terms.tokenBonus);
    TextRoundTrip(terms.price);
  }

  lemma ComposedFromColumns(tx: nat, productId: string, p: Package, paymentType: string, userRef: string, chargeId: string)
    ensures
      var r := Compose(tx, productId, TermsOf(p, paymentType), userRef, chargeId);
      r.Ok? ==> Announces(r.value, p, paymentType, productId, tx, userRef, chargeId)
  {
    var terms := TermsOf(p, paymentType);
    TermsHoldTheCoinsOwed(p, paymentType);
    TermsHoldThePackage(p, paymentType);
    if Compose(tx, productId, terms, userRef, chargeId).Ok? {
      ComposedNumbers(tx, productId, terms, userRef, chargeId);
      ComposedName(tx, productId, terms, userRef, chargeId);
    }
  }

  /** The derivation after a callback save throws exactly on a package without a coin count that earns no bonus. */
  lemma ComposeFailsExactlyWithoutCoins(tx: nat, productId: string, p: Package, paymentType: string, userRef: string, chargeId: string)
    ensures Compose(tx, productId, TermsOf(p, paymentType), userRef, chargeId).Err?
      <==> p.noOfCoins.None? && OrZero(p.bonus) + PaymentBonusOwed(p.paymentBonus, paymentType) == 0
  {
    TermsHoldTheCoinsOwed(p, paymentType);
  }
}
