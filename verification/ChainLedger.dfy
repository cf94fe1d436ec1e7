/**
  Balances derived from stored transactions (tools/reconcile-chain-truth.js, addAmount and
  deriveBalances). The loop over a mutable map is proved against a declarative ledger: for each
  asset some posting names, the sum of what the transactions post to it.
*/
module ChainLedger {
  import opened Wrappers
  import opened JsText
  import opened Permutations
  import opened ScaledDecimal
  import opened Sequences

  /** A stored row, with the columns that validation and derivation read or write. */
  datatype Row = Row(
    id: string, userId: string, kind: string,
    status: string, chainStatus: Option<string>, step: string,
    txHash: Option<string>, blockNumber: Option<int>, confirmations: int, gasUsed: Option<string>,
    fromAddress: Option<string>, toAddress: Option<string>, errorMessage: Option<string>,
    fromToken: Option<string>, toToken: Option<string>, fiatCurrency: Option<string>,
    cryptoAmount: Option<string>, fiatAmount: Option<string>)

  // ----- what one transaction contributes -----

  predicate Eligible(t: Row) {
    var status := Lower(t.status);
    var chainStatus := if Truthy(t.chainStatus) then Lower(t.chainStatus.value) else "";
    && (status == "confirmed" || status == "settled")
    && Truthy(t.txHash) && t.blockNumber.Some? && (chainStatus == "confirmed" || chainStatus == "finalized")
  }

  datatype Posting = Posting(asset: string, amount: int)

  function PostingTo(asset: Option<string>, amount: int): seq<Posting> {
    if Truthy(asset) then [Posting(Upper(asset.value), amount)] else []
  }

  predicate Parses(t: Row) {
    DecimalToScaled(t.cryptoAmount).Some? && DecimalToScaled(t.fiatAmount).Some?
  }

  /** The postings of an eligible transaction whose amounts parse. */
  function PostingsFor(t: Row, crypto: int, fiat: int): seq<Posting> {
    var kind := Lower(t.kind);
    if kind == "onramp" then PostingTo(UpperOrNone(t.toToken), crypto)
    else if kind == "offramp" then
      PostingTo(UpperOrNone(t.fromToken), -crypto)
      + PostingTo(Or(UpperOrNone(t.fiatCurrency), UpperOrNone(t.toToken)), fiat)
    else if kind == "swap" then
      PostingTo(UpperOrNone(t.fromToken), -crypto)
      + PostingTo(UpperOrNone(t.toToken), if fiat != 0 then fiat else crypto)
    else []
  }

  /** Nothing for a transaction that is skipped; a transaction that is not must have parsable amounts. */
  function Postings(t: Row): seq<Posting> {
    if Eligible(t) && Parses(t)
    then PostingsFor(t, DecimalToScaled(t.cryptoAmount).value, DecimalToScaled(t.fiatAmount).value)
    else []
  }

  predicate Readable(t: Row) {
    Eligible(t) ==> Parses(t)
  }

  // ----- the declarative ledger -----

  type Ledger = map<string, int>

  function Amount(ps: seq<Posting>, asset: string): int {
    if ps == [] then 0
    else (if ps[0].asset == asset then ps[0].amount else 0) + Amount(ps[1..], asset)
  }

  function Assets(ps: seq<Posting>): set<string> {
    set p | p in ps :: p.asset
  }

  function LedgerOf(ps: seq<Posting>): Ledger {
    map a | a in Assets(ps) :: Amount(ps, a)
  }

  function AllPostings(txs: seq<Row>): seq<Posting> {
    if txs == [] then [] else Postings(txs[0]) + AllPostings(txs[1..])
  }

  /** None: an amount of an eligible transaction does not parse, and deriveBalances throws. */
  function Derive(txs: seq<Row>): Option<Ledger> {
    if forall t :: t in txs ==> Readable(t) then Some(LedgerOf(AllPostings(txs))) else None
  }

  function Printed(l: Ledger): map<string, string> {
    map a | a in l :: ScaledToDecimal(l[a])
  }

  // ----- the loop -----

  lemma {:induction false} AmountConcat(ps: seq<Posting>, qs: seq<Posting>, asset: string)
    ensures Amount(ps + qs, asset) == Amount(ps, asset) + Amount(qs, asset)
  {
    if ps == [] {
      assert ps + qs == qs;
    } else {
      AmountConcat(ps[1..], qs, asset);
      assert (ps + qs)[1..] == ps[1..] + qs;
    }
  }

  lemma {:induction false} AmountAbsent(ps: seq<Posting>, asset: string)
    requires asset !in Assets(ps)
    ensures Amount(ps, asset) == 0
  {
    if ps != [] {
      assert ps[0] in ps;
      assert Assets(ps[1..]) <= Assets(ps) by {
        forall p | p in ps[1..] ensures p in ps { }
      }
      AmountAbsent(ps[1..], asset);
    }
  }

  lemma AssetsConcat(ps: seq<Posting>, qs: seq<Posting>)
    ensures Assets(ps + qs) == Assets(ps) + Assets(qs)
  {
    forall p ensures p in ps + qs <==> p in ps || p in qs { }
  }

  lemma {:induction false} AllPostingsConcat(xs: seq<Row>, ys: seq<Row>)
    ensures AllPostings(xs + ys) == AllPostings(xs) + AllPostings(ys)
  {
    hide Postings;
    if xs == [] {
      assert xs + ys == ys;
    } else {
      AllPostingsConcat(xs[1..], ys);
      assert (xs + ys)[1..] == xs[1..] + ys;
    }
  }

  lemma PostOne(ps: seq<Posting>, p: Posting)
    ensures var l := LedgerOf(ps);
            LedgerOf(ps + [p]) == l[p.asset := (if p.asset in l then l[p.asset] else 0) + p.amount]
  {
    AssetsConcat(ps, [p]);
    assert Assets([p]) == {p.asset} by { assert p in [p]; }
    forall a ensures Amount(ps + [p], a) == Amount(ps, a) + (if a == p.asset then p.amount else 0) {
      AmountConcat(ps, [p], a);
    }
    if p.asset !in Assets(ps) {
      AmountAbsent(ps, p.asset);
    }
  }

  /** The Map that deriveBalances fills. */
  class Balances {
    var entries: Ledger

    constructor ()
      ensures entries == map[]
    {
      entries := map[];
    }

    method AddAmount(asset: Option<string>, amount: int, ghost posted: seq<Posting>)
      requires entries == LedgerOf(posted)
      modifies this
      ensures entries == LedgerOf(posted + PostingTo(asset, amount))
    {
      if !Truthy(asset) {
        assert posted + PostingTo(asset, amount) == posted;
        return;
      }
      var key := Upper(asset.value);
      PostOne(posted, Posting(key, amount));
      entries := entries[key := (if key in entries then entries[key] else 0) + amount];
    }
  }

  lemma NoPostings()
    ensures AllPostings([]) == [] && LedgerOf([]) == map[]
  {
    assert Assets([]) == {};
  }

  /** The body of the loop for one transaction that is not skipped. */
  method AddTransaction(balances: Balances, t: Row, crypto: int, fiat: int, ghost posted: seq<Posting>)
    requires balances.entries == LedgerOf(posted)
    modifies balances
    ensures balances.entries == LedgerOf(posted + PostingsFor(t, crypto, fiat))
  {
    hide LedgerOf, PostingTo, UpperOrNone, Or, Lower;
    var kind := Lower(t.kind);
    var fromToken, toToken := UpperOrNone(t.fromToken), UpperOrNone(t.toToken);
    var fiatCurrency := UpperOrNone(t.fiatCurrency);
    if kind == "onramp" {
      balances.AddAmount(toToken, crypto, posted);
    } else if kind == "offramp" {
      balances.AddAmount(fromToken, -crypto, posted);
      balances.AddAmount(Or(fiatCurrency, toToken), fiat, posted + PostingTo(fromToken, -crypto));
      assert posted + PostingsFor(t, crypto, fiat) ==
             posted + PostingTo(fromToken, -crypto) + PostingTo(Or(fiatCurrency, toToken), fiat);
    } else if kind == "swap" {
      var received := if fiat != 0 then fiat else crypto;
      balances.AddAmount(fromToken, -crypto, posted);
      balances.AddAmount(toToken, received, posted + PostingTo(fromToken, -crypto));
      assert posted + PostingsFor(t, crypto, fiat) ==
             posted + PostingTo(fromToken, -crypto) + PostingTo(toToken, received);
    } else {
      assert posted + PostingsFor(t, crypto, fiat) == posted;
    }
  }

  lemma AppendPostings(xs: seq<Row>, t: Row)
    ensures AllPostings(xs + [t]) == AllPostings(xs) + Postings(t)
  {
    hide Postings;
    AllPostingsConcat(xs, [t]);
    assert AllPostings([t]) == Postings(t);
  }

  /** None is the SyntaxError of an amount that is no integer literal. */
  method DeriveBalances(transactions: seq<Row>) returns (result: Option<map<string, string>>)
    ensures result ==
            (match Derive(transactions) case Some(l) => Some(Printed(l)) case None => None)
  {
    hide DecimalToScaled, LedgerOf, PostingsFor, AllPostings, Eligible;
    var balances := new Balances();
    assert LedgerOf(AllPostings([])) == map[] by { NoPostings(); }
    var i := 0;
    while i < |transactions|
      invariant i <= |transactions|
      invariant forall j :: 0 <= j < i ==> Readable(transactions[j])
      invariant balances.entries == LedgerOf(AllPostings(transactions[..i]))
    {
      var t := transactions[i];
      assert transactions[..i + 1] == transactions[..i] + [t];
      AppendPostings(transactions[..i], t);
      ghost var before := AllPostings(transactions[..i]);
      if !Eligible(t) {
        assert before + [] == before;
      } else {
        var crypto, fiat := DecimalToScaled(t.cryptoAmount), DecimalToScaled(t.fiatAmount);
        if crypto.None? || fiat.None? {
          assert !Readable(t) && t in transactions;
          return None;
        }
        AddTransaction(balances, t, crypto.value, fiat.value, before);
      }
      i := i + 1;
    }
    assert transactions[..i] == transactions;
    return Some(Printed(balances.entries));
  }

  // ----- laws -----

  function At(l: Ledger, asset: string): int {
    if asset in l then l[asset] else 0
  }

  /** The ledger of two lots of postings together. */
  function Merge(l: Ledger, m: Ledger): Ledger {
    map a | a in l.Keys + m.Keys :: At(l, a) + At(m, a)
  }

  lemma AtLedgerOf(ps: seq<Posting>, asset: string)
    ensures At(LedgerOf(ps), asset) == Amount(ps, asset)
  {
    if asset !in Assets(ps) {
      AmountAbsent(ps, asset);
    }
  }

  lemma LedgerOfConcat(ps: seq<Posting>, qs: seq<Posting>)
    ensures LedgerOf(ps + qs) == Merge(LedgerOf(ps), LedgerOf(qs))
  {
    hide Amount, Assets;
    AssetsConcat(ps, qs);
    forall a ensures At(LedgerOf(ps), a) + At(LedgerOf(qs), a) == Amount(ps + qs, a) {
      hide LedgerOf, At;
      AtLedgerOf(ps, a);
      AtLedgerOf(qs, a);
      AmountConcat(ps, qs, a);
    }
    assert LedgerOf(ps + qs).Keys == Merge(LedgerOf(ps), LedgerOf(qs)).Keys;
  }

  function MergeResults(x: Option<Ledger>, y: Option<Ledger>): Option<Ledger> {
    if x.Some? && y.Some? then Some(Merge(x.value, y.value)) else None
  }

  /** Deriving from two batches and adding per asset is deriving from both together, errors included. */
  lemma DeriveConcat(xs: seq<Row>, ys: seq<Row>)
    ensures Derive(xs + ys) == MergeResults(Derive(xs), Derive(ys))
  {
    AllPostingsConcat(xs, ys);
    LedgerOfConcat(AllPostings(xs), AllPostings(ys));
    assert forall t :: t in xs + ys <==> t in xs || t in ys;
  }

  lemma MergeCommutes(l: Ledger, m: Ledger)
    ensures Merge(l, m) == Merge(m, l)
  {
    assert l.Keys + m.Keys == m.Keys + l.Keys;
  }

  lemma AtMerge(l: Ledger, m: Ledger, asset: string)
    ensures At(Merge(l, m), asset) == At(l, asset) + At(m, asset)
  {
  }

  lemma MergeAssociates(l: Ledger, m: Ledger, n: Ledger)
    ensures Merge(Merge(l, m), n) == Merge(l, Merge(m, n))
  {
    hide At;
    assert (l.Keys + m.Keys) + n.Keys == l.Keys + (m.Keys + n.Keys);
    forall a ensures At(Merge(l, m), a) + At(n, a) == At(l, a) + At(Merge(m, n), a) {
      AtMerge(l, m, a);
      AtMerge(m, n, a);
    }
  }

  lemma MoveToEnd(front: seq<Row>, t: Row, back: seq<Row>)
    ensures Derive(front + ([t] + back)) == Derive((front + back) + [t])
  {
    hide Derive, Merge;
    DeriveConcat(front, [t] + back);
    DeriveConcat([t], back);
    DeriveConcat(front + back, [t]);
    DeriveConcat(front, back);
    if Derive(front).Some? && Derive([t]).Some? && Derive(back).Some? {
      var f, u, b := Derive(front).value, Derive([t]).value, Derive(back).value;
      MergeCommutes(u, b);
      MergeAssociates(f, b, u);
    }
  }

  /** The order in which transactions are read does not matter. */
  lemma {:induction false} DerivePermutation(xs: seq<Row>, ys: seq<Row>)
    requires multiset(xs) == multiset(ys)
    ensures Derive(xs) == Derive(ys)
    decreases |xs|
  {
    hide Derive, Merge;
    if xs == [] {
      NothingLeft(ys);
    } else {
      var k := MatchLast(xs, ys);
      var rest, t, front, back := xs[..|xs| - 1], ys[k], ys[..k], ys[k + 1..];
      DerivePermutation(rest, front + back);
      DeriveConcat(rest, [t]);
      DeriveConcat(front + back, [t]);
      MoveToEnd(front, t, back);
      assert xs == rest + [t];
      assert ys == front + ([t] + back);
    }
  }

  lemma SkippedAlone(t: Row)
    requires !Eligible(t)
    ensures Derive([t]) == Some(map[])
  {
    assert AllPostings([t]) == [];
    NoPostings();
  }

  /** A skipped transaction may stand anywhere without changing the ledger. */
  lemma DeriveIneligible(xs: seq<Row>, t: Row, ys: seq<Row>)
    requires !Eligible(t)
    ensures Derive(xs + [t] + ys) == Derive(xs + ys)
  {
    SkippedAlone(t);
    hide Derive;
    DeriveConcat(xs + [t], ys);
    DeriveConcat(xs, [t]);
    DeriveConcat(xs, ys);
    if Derive(xs).Some? {
      assert Merge(Derive(xs).value, map[]) == Derive(xs).value;
    }
  }

  // ----- what one more row does -----

  /** The column names the asset, in any mix of case. */
  predicate Names(column: Option<string>, asset: string) {
    Truthy(column) && Upper(column.value) == asset
  }

  /**
    An eligible row with readable amounts moves every asset by exactly this much, wherever it stands: an
    on-ramp adds the crypto amount to the asset bought; an off-ramp and a swap take it from the asset
    given; the off-ramp adds the fiat amount to the fiat currency, or to the asset bought if there is
    none; the swap adds to the asset bought the fiat amount, or the crypto amount if that is zero. Where
    assets coincide both terms count, and no other asset moves.
  */
  lemma OneMoreRow(xs: seq<Row>, t: Row, crypto: int, fiat: int, asset: string)
    requires Derive(xs).Some? && Eligible(t)
    requires DecimalToScaled(t.cryptoAmount) == Some(crypto) && DecimalToScaled(t.fiatAmount) == Some(fiat)
    ensures Derive(xs + [t]).Some?
    ensures var kind := Lower(t.kind);
            var fiatColumn := if Truthy(t.fiatCurrency) then t.fiatCurrency else t.toToken;
            At(Derive(xs + [t]).value, asset) - At(Derive(xs).value, asset) ==
            (if kind == "onramp" && Names(t.toToken, asset) then crypto else 0)
            + (if kind in {"offramp", "swap"} && Names(t.fromToken, asset) then -crypto else 0)
            + (if kind == "offramp" && Names(fiatColumn, asset) then fiat else 0)
            + (if kind == "swap" && Names(t.toToken, asset) then (if fiat == 0 then crypto else fiat) else 0)
  {
    hide DecimalToScaled, Eligible, Amount, LedgerOf;
    AppendPostings(xs, t);
    AmountConcat(AllPostings(xs), Postings(t), asset);
    AtLedgerOf(AllPostings(xs), asset);
    AtLedgerOf(AllPostings(xs + [t]), asset);
    PostedAmount(t, crypto, fiat, asset);
  }

  lemma PostedTo(column: Option<string>, amount: int, more: seq<Posting>, asset: string)
    ensures Amount(PostingTo(UpperOrNone(column), amount) + more, asset) ==
            (if Names(column, asset) then amount else 0) + Amount(more, asset)
  {
    AmountConcat(PostingTo(UpperOrNone(column), amount), more, asset);
    if Truthy(column) {
      UpperTwice(column.value);
      assert PostingTo(UpperOrNone(column), amount)[1..] == [];
    }
  }

  lemma UpperTwice(s: string)
    ensures Upper(Upper(s)) == Upper(s)
  {
  }

  lemma PostedAmount(t: Row, crypto: int, fiat: int, asset: string)
    ensures var kind := Lower(t.kind);
            var fiatColumn := if Truthy(t.fiatCurrency) then t.fiatCurrency else t.toToken;
            Amount(PostingsFor(t, crypto, fiat), asset) ==
            (if kind == "onramp" && Names(t.toToken, asset) then crypto else 0)
            + (if kind in {"offramp", "swap"} && Names(t.fromToken, asset) then -crypto else 0)
            + (if kind == "offramp" && Names(fiatColumn, asset) then fiat else 0)
            + (if kind == "swap" && Names(t.toToken, asset) then (if fiat == 0 then crypto else fiat) else 0)
  {
    hide Names, PostingTo, Lower, Upper;
    var received := if fiat == 0 then crypto else fiat;
    var fiatColumn := if Truthy(t.fiatCurrency) then t.fiatCurrency else t.toToken;
    assert Amount([], asset) == 0;
    assert forall ps: seq<Posting> :: ps + [] == ps;
    PostedTo(t.toToken, crypto, [], asset);
    PostedTo(t.toToken, received, [], asset);
    PostedTo(fiatColumn, fiat, [], asset);
    PostedTo(t.fromToken, -crypto, PostingTo(UpperOrNone(t.toToken), received), asset);
    PostedTo(t.fromToken, -crypto, PostingTo(UpperOrNone(fiatColumn), fiat), asset);
    assert Or(UpperOrNone(t.fiatCurrency), UpperOrNone(t.toToken)) == UpperOrNone(fiatColumn);
  }

  // ----- per-user ledgers -----

  function Select(txs: seq<Row>, keep: Row -> bool): (r: seq<Row>)
    ensures forall t :: t in r <==> t in txs && keep(t)
  {
    if txs == [] then []
    else (if keep(txs[0]) then [txs[0]] else []) + Select(txs[1..], keep)
  }

  function OfUser(user: string): Row -> bool {
    (t: Row) => t.userId == user
  }

  function OfUsers(users: set<string>): Row -> bool {
    (t: Row) => t.userId in users
  }

  /** Adding up, per asset, the ledgers derived for each of the listed users. */
  function MergeUsers(txs: seq<Row>, users: seq<string>): Option<Ledger> {
    if users == [] then Some(map[])
    else MergeResults(Derive(Select(txs, OfUser(users[0]))), MergeUsers(txs, users[1..]))
  }

  function Elements<T>(xs: seq<T>): set<T> {
    set x | x in xs
  }

  lemma {:induction false} SelectPartition(txs: seq<Row>, p: Row -> bool, q: Row -> bool, either: Row -> bool)
    requires forall t: Row :: !(p(t) && q(t))
    requires forall t: Row :: either(t) == (p(t) || q(t))
    ensures multiset(Select(txs, either)) == multiset(Select(txs, p) + Select(txs, q))
  {
    if txs != [] {
      SelectPartition(txs[1..], p, q, either);
    }
  }

  lemma {:induction false} UsersTogether(txs: seq<Row>, users: seq<string>)
    requires Distinct(users)
    ensures MergeUsers(txs, users) == Derive(Select(txs, OfUsers(Elements(users))))
  {
    if users == [] {
      assert Select(txs, OfUsers({})) == [] by {
        if Select(txs, OfUsers({})) != [] {
          assert Select(txs, OfUsers({}))[0] in Select(txs, OfUsers({}));
          assert false;
        }
      }
      assert Elements(users) == {};
    } else {
      var u, rest := users[0], users[1..];
      UsersTogether(txs, rest);
      var p, q, either := OfUser(u), OfUsers(Elements(rest)), OfUsers(Elements(users));
      assert Elements(users) == {u} + Elements(rest);
      SelectPartition(txs, p, q, either);
      DerivePermutation(Select(txs, either), Select(txs, p) + Select(txs, q));
      DeriveConcat(Select(txs, p), Select(txs, q));
    }
  }

  lemma {:induction false} SelectAll(txs: seq<Row>, keep: Row -> bool)
    requires forall t :: t in txs ==> keep(t)
    ensures Select(txs, keep) == txs
  {
    if txs != [] {
      SelectAll(txs[1..], keep);
    }
  }

  /** The ledgers of all users, added per asset, are the ledger of all transactions. */
  lemma PerUserLedgersSum(txs: seq<Row>, users: seq<string>)
    requires Distinct(users)
    requires forall t :: t in txs ==> t.userId in users
    ensures MergeUsers(txs, users) == Derive(txs)
  {
    UsersTogether(txs, users);
    SelectAll(txs, OfUsers(Elements(users)));
  }

  /** Reading back what deriveBalances prints gives the ledger exactly. */
  lemma PrintedLedgerReadsBack(txs: seq<Row>, asset: string)
    requires Derive(txs).Some? && asset in Derive(txs).value
    ensures DecimalToScaled(Some(Printed(Derive(txs).value)[asset])) == Some(Derive(txs).value[asset])
  {
    PrintThenParse(Derive(txs).value[asset]);
  }
}
