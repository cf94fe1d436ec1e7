/** The wallets collection: one balance per user and asset, as the routes increment it. */
module UserWallets {
  type Wallets = map<(string, string), real>

  function Balance(w: Wallets, user: string, asset: string): real {
    if (user, asset) in w then w[(user, asset)] else 0.0
  }

  /** An increment that inserts the wallet if it is missing. */
  function Credit(w: Wallets, user: string, asset: string, amount: real): Wallets {
    w[(user, asset) := Balance(w, user, asset) + amount]
  }

  /** A decrement that does nothing if the wallet is missing. */
  function Debit(w: Wallets, user: string, asset: string, amount: real): Wallets {
    if (user, asset) in w then w[(user, asset) := w[(user, asset)] - amount] else w
  }
}
