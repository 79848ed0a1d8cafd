/**
 * The cached balance of one asset of a wallet account: free, reserved and
 * frozen amounts, the fiat price and its change, and the balance locks,
 * persisted as a `[String: String]` dictionary and refreshed from chain data.
 *
 * Foundation's `Decimal` is a base-10 number; it is modelled as an exact
 * `real`. The conversions the record delegates to Foundation and to the
 * chain SDK (`Decimal(string:)`, `stringWithPointSeparator`, JSON coding of
 * the locks, `Decimal.fromSubstrateAmount`) are not part of this model and are
 * taken as function parameters.
 */
module Balance {
  import opened Wrappers

  type Decimal = real

  type Context = map<string, string>

  const FreeKey: string := "account.balance.free.key"
  const ReservedKey: string := "account.balance.reserved.key"
  const FrozenKey: string := "account.balance.frozen.key"
  const PriceKey: string := "account.balance.price.key"
  const PriceChangeKey: string := "account.balance.price.change.key"
  const BalanceLocksKey: string := "account.balance.locks.key"

  /** One lock on the balance; its fields are carried, not interpreted. */
  datatype BalanceLock = BalanceLock(identifier: string, amount: nat, reasons: string)

  type BalanceLocks = seq<BalanceLock>

  /** The system pallet's account data, amounts in plank. */
  datatype AccountData = AccountData(free: nat, reserved: nat, miscFrozen: nat, feeFrozen: nat)

  /** An asset pallet's balance, amounts in plank. */
  datatype AssetBalance = AssetBalance(freeInPlank: nat, reservedInPlank: nat, frozenInPlank: nat)

  /** `Decimal.fromSubstrateAmount(_:precision:)`: plank to units, or no value. */
  type AmountConversion = (nat, int) -> Option<Decimal>

  lemma KeysDistinct()
    ensures |{FreeKey, ReservedKey, FrozenKey, PriceKey, PriceChangeKey, BalanceLocksKey}| == 6
  {
  }

  /** The larger of two amounts, as Swift's `max`. */
  function Max(x: Decimal, y: Decimal): (m: Decimal)
    ensures m >= x && m >= y
    ensures m == x || m == y
  {
    if y >= x then y else x
  }

  datatype BalanceContext = BalanceContext(
    free: Decimal,
    reserved: Decimal,
    frozen: Decimal,
    price: Decimal,
    priceChange: Decimal,
    balanceLocks: BalanceLocks)
  {
    /** Everything the account holds. */
    function Total(): (t: Decimal)
      ensures t == free + reserved
    {
      free + reserved
    }

    /** What cannot be spent: reserved plus frozen. */
    function Locked(): (l: Decimal)
      ensures l == reserved + frozen
    {
      reserved + frozen
    }

    /** What can be spent: free minus frozen, never below zero. */
    function Available(): (a: Decimal)
      ensures a >= 0.0 && a >= free - frozen
      ensures a == 0.0 || a == free - frozen
    {
      if free >= frozen then free - frozen else 0.0
    }

    /** `toContext()`: six entries, the locks as JSON text or `""` when encoding fails. */
    function ToContext(format: Decimal -> string, encodeLocks: BalanceLocks -> Option<string>): (context: Context)
      ensures context.Keys == {FreeKey, ReservedKey, FrozenKey, PriceKey, PriceChangeKey, BalanceLocksKey}
      ensures |context| == 6
      ensures context[FreeKey] == format(free) && context[ReservedKey] == format(reserved)
      ensures context[FrozenKey] == format(frozen) && context[PriceKey] == format(price)
      ensures context[PriceChangeKey] == format(priceChange)
      ensures context[BalanceLocksKey] == encodeLocks(balanceLocks).GetOr("")
    {
      KeysDistinct();
      map[
        FreeKey := format(free),
        ReservedKey := format(reserved),
        FrozenKey := format(frozen),
        PriceKey := format(price),
        PriceChangeKey := format(priceChange),
        BalanceLocksKey := encodeLocks(balanceLocks).GetOr("")
      ]
    }

    /**
     * `byChangingAccountInfo(_:precision:)`: the amounts come from the account
     * data, an unconvertible amount counting as zero, and the frozen amount is
     * the larger of the misc and fee frozen amounts.
     */
    function ByChangingAccountInfo(accountData: AccountData, precision: int, convert: AmountConversion): (c: BalanceContext)
      ensures c.free == convert(accountData.free, precision).GetOr(0.0)
      ensures c.reserved == convert(accountData.reserved, precision).GetOr(0.0)
      ensures c.frozen >= convert(accountData.miscFrozen, precision).GetOr(0.0)
      ensures c.frozen >= convert(accountData.feeFrozen, precision).GetOr(0.0)
      ensures c.frozen == convert(accountData.miscFrozen, precision).GetOr(0.0)
           || c.frozen == convert(accountData.feeFrozen, precision).GetOr(0.0)
      ensures c.price == price && c.priceChange == priceChange && c.balanceLocks == balanceLocks
    {
      var free := convert(accountData.free, precision).GetOr(0.0);
      var reserved := convert(accountData.reserved, precision).GetOr(0.0);
      var miscFrozen := convert(accountData.miscFrozen, precision).GetOr(0.0);
      var feeFrozen := convert(accountData.feeFrozen, precision).GetOr(0.0);
      BalanceContext(free, reserved, Max(miscFrozen, feeFrozen), price, priceChange, balanceLocks)
    }

    /** `byChangingAssetBalance(_:precision:)`: free, reserved and frozen from the asset balance. */
    function ByChangingAssetBalance(assetBalance: AssetBalance, precision: int, convert: AmountConversion): (c: BalanceContext)
      ensures c.free == convert(assetBalance.freeInPlank, precision).GetOr(0.0)
      ensures c.reserved == convert(assetBalance.reservedInPlank, precision).GetOr(0.0)
      ensures c.frozen == convert(assetBalance.frozenInPlank, precision).GetOr(0.0)
      ensures c.price == price && c.priceChange == priceChange && c.balanceLocks == balanceLocks
    {
      var free := convert(assetBalance.freeInPlank, precision).GetOr(0.0);
      var reserved := convert(assetBalance.reservedInPlank, precision).GetOr(0.0);
      var frozen := convert(assetBalance.frozenInPlank, precision).GetOr(0.0);
      BalanceContext(free, reserved, frozen, price, priceChange, balanceLocks)
    }

    function ByChangingBalanceLocks(updatedLocks: BalanceLocks): (c: BalanceContext)
      ensures c.balanceLocks == updatedLocks
      ensures c.free == free && c.reserved == reserved && c.frozen == frozen
      ensures c.price == price && c.priceChange == priceChange
    {
      BalanceContext(free, reserved, frozen, price, priceChange, updatedLocks)
    }

    function ByChangingPrice(newPrice: Decimal, newPriceChange: Decimal): (c: BalanceContext)
      ensures c.price == newPrice && c.priceChange == newPriceChange
      ensures c.free == free && c.reserved == reserved && c.frozen == frozen
      ensures c.balanceLocks == balanceLocks
    {
      BalanceContext(free, reserved, frozen, newPrice, newPriceChange, balanceLocks)
    }
  }

  /** `parseContext(key:context:)`: a missing key or an unparsable value reads as zero. */
  function ParseAmount(key: string, context: Context, parse: string -> Option<Decimal>): (amount: Decimal)
    ensures key !in context ==> amount == 0.0
    ensures key in context && parse(context[key]).None? ==> amount == 0.0
    ensures key in context && parse(context[key]).Some? ==> amount == parse(context[key]).value
  {
    if key in context then parse(context[key]).GetOr(0.0) else 0.0
  }

  /** `parseJSONContext(key:context:)`: a missing key or undecodable text reads as no locks. */
  function ParseLocks(key: string, context: Context, decodeLocks: string -> Option<BalanceLocks>): (locks: BalanceLocks)
    ensures key !in context ==> locks == []
    ensures key in context && decodeLocks(context[key]).None? ==> locks == []
    ensures key in context && decodeLocks(context[key]).Some? ==> locks == decodeLocks(context[key]).value
  {
    if key in context then decodeLocks(context[key]).GetOr([]) else []
  }

  /** `BalanceContext(context:)`. */
  function FromContext(context: Context, parse: string -> Option<Decimal>, decodeLocks: string -> Option<BalanceLocks>): (c: BalanceContext)
    ensures FreeKey !in context ==> c.free == 0.0
    ensures ReservedKey !in context ==> c.reserved == 0.0
    ensures FrozenKey !in context ==> c.frozen == 0.0
    ensures PriceKey !in context ==> c.price == 0.0
    ensures PriceChangeKey !in context ==> c.priceChange == 0.0
    ensures BalanceLocksKey !in context ==> c.balanceLocks == []
    ensures FreeKey in context ==> c.free == (if parse(context[FreeKey]).Some? then parse(context[FreeKey]).value else 0.0)
    ensures ReservedKey in context ==> c.reserved == (if parse(context[ReservedKey]).Some? then parse(context[ReservedKey]).value else 0.0)
    ensures FrozenKey in context ==> c.frozen == (if parse(context[FrozenKey]).Some? then parse(context[FrozenKey]).value else 0.0)
    ensures PriceKey in context ==> c.price == (if parse(context[PriceKey]).Some? then parse(context[PriceKey]).value else 0.0)
    ensures PriceChangeKey in context ==>
      c.priceChange == (if parse(context[PriceChangeKey]).Some? then parse(context[PriceChangeKey]).value else 0.0)
    ensures BalanceLocksKey in context && decodeLocks(context[BalanceLocksKey]).Some? ==>
      c.balanceLocks == decodeLocks(context[BalanceLocksKey]).value
    ensures BalanceLocksKey in context && decodeLocks(context[BalanceLocksKey]).None? ==> c.balanceLocks == []
  {
    BalanceContext(
      ParseAmount(FreeKey, context, parse),
      ParseAmount(ReservedKey, context, parse),
      ParseAmount(FrozenKey, context, parse),
      ParseAmount(PriceKey, context, parse),
      ParseAmount(PriceChangeKey, context, parse),
      ParseLocks(BalanceLocksKey, context, decodeLocks))
  }

  // ---------------------------------------------------------------------------
  // Properties

  /** An empty dictionary reads as a zero balance without locks. */
  lemma ParseEmptyContext(parse: string -> Option<Decimal>, decodeLocks: string -> Option<BalanceLocks>)
    ensures FromContext(map[], parse, decodeLocks) == BalanceContext(0.0, 0.0, 0.0, 0.0, 0.0, [])
  {
  }

  /**
   * Given text conversions that round-trip on the record's own amounts and
   * locks, reading back the dictionary of a record recovers the record.
   */
  lemma ContextRoundTrip(
    c: BalanceContext,
    parse: string -> Option<Decimal>, format: Decimal -> string,
    decodeLocks: string -> Option<BalanceLocks>, encodeLocks: BalanceLocks -> Option<string>)
    requires forall x | x in {c.free, c.reserved, c.frozen, c.price, c.priceChange} :: parse(format(x)) == Some(x)
    requires encodeLocks(c.balanceLocks).Some?
    requires decodeLocks(encodeLocks(c.balanceLocks).value) == Some(c.balanceLocks)
    ensures FromContext(c.ToContext(format, encodeLocks), parse, decodeLocks) == c
  {
  }

  /** Total is what is available plus what is locked, exactly when free covers frozen. */
  lemma TotalSplitsIntoAvailableAndLocked(c: BalanceContext)
    ensures c.Total() <= c.Available() + c.Locked()
    ensures c.Total() == c.Available() + c.Locked() <==> c.free >= c.frozen
  {
  }

  /** The available amount never exceeds the free amount when nothing is negatively frozen. */
  lemma AvailableAtMostFree(c: BalanceContext)
    requires c.frozen >= 0.0
    ensures c.Available() <= c.free || c.free < 0.0
  {
  }

  /**
   * After an account-info update the account is at least as locked as either
   * frozen amount says, and what is available is bounded by both.
   */
  lemma AccountInfoRespectsBothFrozenAmounts(c: BalanceContext, accountData: AccountData, precision: int, convert: AmountConversion)
    ensures var u := c.ByChangingAccountInfo(accountData, precision, convert);
      && u.Locked() >= u.reserved + convert(accountData.miscFrozen, precision).GetOr(0.0)
      && u.Locked() >= u.reserved + convert(accountData.feeFrozen, precision).GetOr(0.0)
      && u.Available() <= Max(u.free - convert(accountData.miscFrozen, precision).GetOr(0.0), 0.0)
      && u.Available() <= Max(u.free - convert(accountData.feeFrozen, precision).GetOr(0.0), 0.0)
  {
  }

  /** The chain-data updates keep nothing of the previous amounts. */
  lemma ChainUpdatesForgetPreviousAmounts(
    c1: BalanceContext, c2: BalanceContext,
    accountData: AccountData, assetBalance: AssetBalance, precision: int, convert: AmountConversion)
    requires c1.price == c2.price && c1.priceChange == c2.priceChange && c1.balanceLocks == c2.balanceLocks
    ensures c1.ByChangingAccountInfo(accountData, precision, convert) == c2.ByChangingAccountInfo(accountData, precision, convert)
    ensures c1.ByChangingAssetBalance(assetBalance, precision, convert) == c2.ByChangingAssetBalance(assetBalance, precision, convert)
  {
  }

  /** Price and lock updates leave the derived amounts alone. */
  lemma PriceAndLocksKeepDerivedAmounts(c: BalanceContext, newPrice: Decimal, newPriceChange: Decimal, locks: BalanceLocks)
    ensures var p := c.ByChangingPrice(newPrice, newPriceChange);
      p.Total() == c.Total() && p.Locked() == c.Locked() && p.Available() == c.Available()
    ensures var l := c.ByChangingBalanceLocks(locks);
      l.Total() == c.Total() && l.Locked() == c.Locked() && l.Available() == c.Available()
  {
  }

  /** Changing the price rewrites the two price entries of the dictionary and nothing else. */
  lemma ChangingPriceRewritesPriceEntries(
    c: BalanceContext, newPrice: Decimal, newPriceChange: Decimal,
    format: Decimal -> string, encodeLocks: BalanceLocks -> Option<string>)
    ensures c.ByChangingPrice(newPrice, newPriceChange).ToContext(format, encodeLocks)
         == c.ToContext(format, encodeLocks)[PriceKey := format(newPrice)][PriceChangeKey := format(newPriceChange)]
  {
  }

  /** Changing the locks rewrites the locks entry of the dictionary and nothing else. */
  lemma ChangingLocksRewritesLocksEntry(
    c: BalanceContext, locks: BalanceLocks,
    format: Decimal -> string, encodeLocks: BalanceLocks -> Option<string>)
    ensures c.ByChangingBalanceLocks(locks).ToContext(format, encodeLocks)
         == c.ToContext(format, encodeLocks)[BalanceLocksKey := encodeLocks(locks).GetOr("")]
  {
  }

  /** The last price update wins, and price and lock updates commute. */
  lemma PriceUpdatesCompose(c: BalanceContext, p1: Decimal, q1: Decimal, p2: Decimal, q2: Decimal, locks: BalanceLocks)
    ensures c.ByChangingPrice(p1, q1).ByChangingPrice(p2, q2) == c.ByChangingPrice(p2, q2)
    ensures c.ByChangingPrice(p1, q1).ByChangingBalanceLocks(locks) == c.ByChangingBalanceLocks(locks).ByChangingPrice(p1, q1)
  {
  }
}
