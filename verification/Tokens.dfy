/** The classic token program: mints, token accounts and the instructions anyone may send it. */
module Tokens {
  import opened Wire
  import opened Records

  datatype Mint = Mint(decimals: byte, supply: nat, mintAuthority: Option<Key>, freezeAuthority: Option<Key>)

  datatype TokenAccount = TokenAccount(mint: Key, owner: Key, amount: nat, frozen: bool)

  datatype Ledger = Ledger(mints: map<Key, Mint>, accounts: map<Key, TokenAccount>)

  datatype TokenOp =
    | InitializeMint(mint: Key, decimals: byte, authority: Key, freezeAuthority: Option<Key>)
    | MintTo(mint: Key, to: Key, amount: nat)
    | SetMintAuthority(mint: Key, next: Option<Key>)
    | SetFreezeAuthority(mint: Key, next: Option<Key>)
    | SetFrozen(account: Key, frozen: bool)
    | CreateAccount(account: Key, mint: Key, owner: Key)
    | TransferChecked(from: Key, mint: Key, to: Key, amount: nat, decimals: byte)
    | Burn(account: Key, amount: nat)
    | SetOwner(account: Key, newOwner: Key)
    | CloseAccount(account: Key)

  function TransferTokens(l: Ledger, authority: Key, from: Key, mint: Key, to: Key, amount: nat,
                          decimals: byte): Option<Ledger>
  {
    if from !in l.accounts || to !in l.accounts || mint !in l.mints then None else
    var source := l.accounts[from];
    var target := l.accounts[to];
    if source.frozen || target.frozen || source.amount < amount
       || source.mint != mint || target.mint != mint || l.mints[mint].decimals != decimals
       || source.owner != authority
    then None
    else if from == to then Some(l)
    else Some(l.(accounts := l.accounts[from := source.(amount := source.amount - amount)]
                                       [to := target.(amount := target.amount + amount)]))
  }

  /** One token-program instruction signed by `signer`; `None` when the program refuses it. */
  function Apply(l: Ledger, signer: Key, op: TokenOp): Option<Ledger>
  {
    match op
    case InitializeMint(mint, decimals, authority, freezeAuthority) =>
      if mint in l.mints then None
      else Some(l.(mints := l.mints[mint := Mint(decimals, 0, Some(authority), freezeAuthority)]))
    case MintTo(mint, to, amount) =>
      if mint !in l.mints || to !in l.accounts then None
      else if l.mints[mint].mintAuthority != Some(signer) || l.accounts[to].mint != mint || l.accounts[to].frozen
        then None
      else Some(Ledger(
        l.mints[mint := l.mints[mint].(supply := l.mints[mint].supply + amount)],
        l.accounts[to := l.accounts[to].(amount := l.accounts[to].amount + amount)]))
    case SetMintAuthority(mint, next) =>
      if mint !in l.mints || l.mints[mint].mintAuthority != Some(signer) then None
      else Some(l.(mints := l.mints[mint := l.mints[mint].(mintAuthority := next)]))
    case SetFreezeAuthority(mint, next) =>
      if mint !in l.mints || l.mints[mint].freezeAuthority != Some(signer) then None
      else Some(l.(mints := l.mints[mint := l.mints[mint].(freezeAuthority := next)]))
    case SetFrozen(account, frozen) =>
      if account !in l.accounts || l.accounts[account].mint !in l.mints then None
      else if l.mints[l.accounts[account].mint].freezeAuthority != Some(signer) then None
      else Some(l.(accounts := l.accounts[account := l.accounts[account].(frozen := frozen)]))
    case CreateAccount(account, mint, owner) =>
      if account in l.accounts || mint !in l.mints then None
      else Some(l.(accounts := l.accounts[account := TokenAccount(mint, owner, 0, false)]))
    case TransferChecked(from, mint, to, amount, decimals) =>
      TransferTokens(l, signer, from, mint, to, amount, decimals)
    case Burn(account, amount) =>
      if account !in l.accounts then None else
      var source := l.accounts[account];
      if source.owner != signer || source.frozen || source.amount < amount || source.mint !in l.mints
         || l.mints[source.mint].supply < amount
      then None
      else Some(Ledger(
        l.mints[source.mint := l.mints[source.mint].(supply := l.mints[source.mint].supply - amount)],
        l.accounts[account := source.(amount := source.amount - amount)]))
    case SetOwner(account, next) =>
      if account !in l.accounts || l.accounts[account].owner != signer || l.accounts[account].frozen then None
      else Some(l.(accounts := l.accounts[account := l.accounts[account].(owner := next)]))
    case CloseAccount(account) =>
      if account !in l.accounts || l.accounts[account].owner != signer || l.accounts[account].amount != 0 then None
      else Some(l.(accounts := l.accounts - {account}))
  }

  // ----- Conservation -----

  function Holding(account: TokenAccount, mint: Key): nat {
    if account.mint == mint then account.amount else 0
  }

  /** The tokens of one mint over all accounts. */
  ghost function Total(accounts: map<Key, TokenAccount>, mint: Key): nat
    decreases |accounts|
  {
    if accounts == map[] then 0
    else
      var k :| k in accounts;
      Holding(accounts[k], mint) + Total(accounts - {k}, mint)
  }

  lemma {:induction false} TotalSplit(accounts: map<Key, TokenAccount>, k: Key, mint: Key)
    requires k in accounts
    ensures Total(accounts, mint) == Holding(accounts[k], mint) + Total(accounts - {k}, mint)
    decreases |accounts|
  {
    var c :| c in accounts && Total(accounts, mint) == Holding(accounts[c], mint) + Total(accounts - {c}, mint);
    if c != k {
      TotalSplit(accounts - {c}, k, mint);
      TotalSplit(accounts - {k}, c, mint);
      assert accounts - {c} - {k} == accounts - {k} - {c};
    }
  }

  lemma TotalReplace(accounts: map<Key, TokenAccount>, k: Key, next: TokenAccount, mint: Key)
    requires k in accounts
    ensures Total(accounts[k := next], mint) == Total(accounts, mint) - Holding(accounts[k], mint) + Holding(next, mint)
    ensures Total(accounts, mint) >= Holding(accounts[k], mint)
  {
    TotalSplit(accounts, k, mint);
    TotalSplit(accounts[k := next], k, mint);
    assert accounts[k := next] - {k} == accounts - {k};
  }

  lemma TotalAdd(accounts: map<Key, TokenAccount>, k: Key, next: TokenAccount, mint: Key)
    requires k !in accounts
    ensures Total(accounts[k := next], mint) == Total(accounts, mint) + Holding(next, mint)
  {
    TotalSplit(accounts[k := next], k, mint);
    assert accounts[k := next] - {k} == accounts;
  }

  lemma {:induction false} TotalAbsent(accounts: map<Key, TokenAccount>, mint: Key)
    requires forall k :: k in accounts ==> accounts[k].mint != mint
    ensures Total(accounts, mint) == 0
    decreases |accounts|
  {
    if accounts == map[] {
    } else {
      var c :| c in accounts;
      TotalSplit(accounts, c, mint);
      TotalAbsent(accounts - {c}, mint);
    }
  }

  ghost predicate Backed(l: Ledger, mint: Key) {
    mint in l.mints && Total(l.accounts, mint) == l.mints[mint].supply
  }

  /** Every account is of a known mint, and every mint's tokens add up to its supply. */
  ghost predicate Conserved(l: Ledger) {
    && (forall k :: k in l.accounts ==> l.accounts[k].mint in l.mints)
    && (forall m :: m in l.mints ==> Backed(l, m))
  }

  lemma TransferBacked(l: Ledger, from: Key, to: Key, amount: nat, mint: Key)
    requires from in l.accounts && to in l.accounts && from != to && l.accounts[from].mint == l.accounts[to].mint
    requires l.accounts[from].amount >= amount && Backed(l, mint)
    ensures Backed(l.(accounts := l.accounts[from := l.accounts[from].(amount := l.accounts[from].amount - amount)]
                                            [to := l.accounts[to].(amount := l.accounts[to].amount + amount)]), mint)
  {
    var source, target := l.accounts[from], l.accounts[to];
    TotalReplace(l.accounts, from, source.(amount := source.amount - amount), mint);
    TotalReplace(l.accounts[from := source.(amount := source.amount - amount)], to,
                 target.(amount := target.amount + amount), mint);
  }

  lemma TransferConserves(l: Ledger, authority: Key, from: Key, mint: Key, to: Key, amount: nat, decimals: byte)
    requires Conserved(l)
    ensures var r := TransferTokens(l, authority, from, mint, to, amount, decimals);
      r.Some? ==> Conserved(r.value)
  {
    var r := TransferTokens(l, authority, from, mint, to, amount, decimals);
    if r.Some? && from != to {
      forall m | m in l.mints
        ensures Backed(r.value, m)
      {
        TransferBacked(l, from, to, amount, m);
      }
    }
  }

  lemma MintChangeConserves(l: Ledger, mint: Key, next: Mint)
    requires Conserved(l) && mint in l.mints && next.supply == l.mints[mint].supply
    ensures Conserved(l.(mints := l.mints[mint := next]))
  {
    var r := l.(mints := l.mints[mint := next]);
    forall m | m in r.mints
      ensures Backed(r, m)
    {
      assert Backed(l, m);
    }
  }

  lemma NewMintConserves(l: Ledger, mint: Key, next: Mint)
    requires Conserved(l) && mint !in l.mints && next.supply == 0
    ensures Conserved(l.(mints := l.mints[mint := next]))
  {
    var r := l.(mints := l.mints[mint := next]);
    forall m | m in r.mints
      ensures Backed(r, m)
    {
      if m == mint { TotalAbsent(l.accounts, m); } else { assert Backed(l, m); }
    }
  }

  /** Changing one account's holding by as much as the supply of its mint keeps the books balanced. */
  lemma AccountChangeConserves(l: Ledger, k: Key, next: TokenAccount, supply: nat)
    requires Conserved(l) && k in l.accounts && next.mint == l.accounts[k].mint
    requires supply == l.mints[next.mint].supply - l.accounts[k].amount + next.amount
    ensures Conserved(Ledger(l.mints[next.mint := l.mints[next.mint].(supply := supply)], l.accounts[k := next]))
  {
    var r := Ledger(l.mints[next.mint := l.mints[next.mint].(supply := supply)], l.accounts[k := next]);
    forall m | m in r.mints
      ensures Backed(r, m)
    {
      assert Backed(l, m);
      TotalReplace(l.accounts, k, next, m);
    }
  }

  lemma AccountUpdateConserves(l: Ledger, k: Key, next: TokenAccount)
    requires Conserved(l) && k in l.accounts && next.mint == l.accounts[k].mint && next.amount == l.accounts[k].amount
    ensures Conserved(l.(accounts := l.accounts[k := next]))
  {
    AccountChangeConserves(l, k, next, l.mints[next.mint].supply);
    assert l.mints[next.mint := l.mints[next.mint].(supply := l.mints[next.mint].supply)] == l.mints;
  }

  lemma NewAccountConserves(l: Ledger, k: Key, next: TokenAccount)
    requires Conserved(l) && k !in l.accounts && next.mint in l.mints && next.amount == 0
    ensures Conserved(l.(accounts := l.accounts[k := next]))
  {
    var r := l.(accounts := l.accounts[k := next]);
    forall m | m in r.mints
      ensures Backed(r, m)
    {
      assert Backed(l, m);
      TotalAdd(l.accounts, k, next, m);
    }
  }

  lemma CloseConserves(l: Ledger, k: Key)
    requires Conserved(l) && k in l.accounts && l.accounts[k].amount == 0
    ensures Conserved(l.(accounts := l.accounts - {k}))
  {
    var r := l.(accounts := l.accounts - {k});
    forall m | m in r.mints
      ensures Backed(r, m)
    {
      assert Backed(l, m);
      TotalSplit(l.accounts, k, m);
    }
  }

  /** No token instruction by anyone creates or destroys a token except by changing the mint's supply with it. */
  lemma ApplyConserves(l: Ledger, signer: Key, op: TokenOp)
    requires Conserved(l)
    ensures var r := Apply(l, signer, op); r.Some? ==> Conserved(r.value)
  {
    hide Conserved;
    if Apply(l, signer, op).Some? {
      match op
      case InitializeMint(mint, decimals, authority, freezeAuthority) =>
        NewMintConserves(l, mint, Mint(decimals, 0, Some(authority), freezeAuthority));
      case MintTo(mint, to, amount) =>
        AccountChangeConserves(l, to, l.accounts[to].(amount := l.accounts[to].amount + amount),
                               l.mints[mint].supply + amount);
      case SetMintAuthority(mint, next) =>
        MintChangeConserves(l, mint, l.mints[mint].(mintAuthority := next));
      case SetFreezeAuthority(mint, next) =>
        MintChangeConserves(l, mint, l.mints[mint].(freezeAuthority := next));
      case SetFrozen(account, frozen) =>
        AccountUpdateConserves(l, account, l.accounts[account].(frozen := frozen));
      case CreateAccount(account, mint, owner) =>
        NewAccountConserves(l, account, TokenAccount(mint, owner, 0, false));
      case TransferChecked(from, mint, to, amount, decimals) =>
        TransferConserves(l, signer, from, mint, to, amount, decimals);
      case Burn(account, amount) =>
        var source := l.accounts[account];
        AccountChangeConserves(l, account, source.(amount := source.amount - amount),
                               l.mints[source.mint].supply - amount);
      case SetOwner(account, newOwner) =>
        AccountUpdateConserves(l, account, l.accounts[account].(owner := newOwner));
      case CloseAccount(account) =>
        CloseConserves(l, account);
    }
  }

  // ----- What a supply of one means -----

  lemma HoldingsWithinSupply(l: Ledger, a: Key, b: Key)
    requires Conserved(l) && a in l.accounts && b in l.accounts && a != b
    requires l.accounts[a].mint == l.accounts[b].mint
    ensures l.accounts[a].amount + l.accounts[b].amount <= l.mints[l.accounts[a].mint].supply
  {
    var m := l.accounts[a].mint;
    assert Backed(l, m);
    TotalSplit(l.accounts, a, m);
    TotalSplit(l.accounts - {a}, b, m);
  }

  lemma HoldingWithinSupply(l: Ledger, a: Key)
    requires Conserved(l) && a in l.accounts
    ensures l.accounts[a].amount <= l.mints[l.accounts[a].mint].supply
  {
    var m := l.accounts[a].mint;
    assert Backed(l, m);
    TotalSplit(l.accounts, a, m);
  }

  /** The account at `k` holds the one token of `mint`. */
  ghost predicate SoleHolder(l: Ledger, mint: Key, k: Key) {
    && k in l.accounts && l.accounts[k].mint == mint && l.accounts[k].amount == 1
    && forall j :: j in l.accounts && l.accounts[j].mint == mint && j != k ==> l.accounts[j].amount == 0
  }

  /** One token of `mint` has left `from`, which held it alone, and is now alone at `to`, which belongs to `owner`. */
  ghost predicate Handed(l: Ledger, l': Ledger, mint: Key, from: Key, to: Key, owner: Key) {
    && SoleHolder(l, mint, from)
    && from in l'.accounts && l'.accounts[from].mint == mint && l'.accounts[from].amount == 0
    && SoleHolder(l', mint, to) && l'.accounts[to].owner == owner
  }

  lemma {:induction false} SomeoneHolds(accounts: map<Key, TokenAccount>, mint: Key) returns (k: Key)
    requires Total(accounts, mint) > 0
    ensures k in accounts && accounts[k].mint == mint && accounts[k].amount > 0
    decreases |accounts|
  {
    k :| k in accounts && Total(accounts, mint) == Holding(accounts[k], mint) + Total(accounts - {k}, mint);
    if Holding(accounts[k], mint) == 0 {
      k := SomeoneHolds(accounts - {k}, mint);
    }
  }

  /** The one token of a mint with a supply of one is somewhere, and in one place only. */
  lemma SupplyOneIsSomewhere(l: Ledger, mint: Key)
    requires Conserved(l) && mint in l.mints && l.mints[mint].supply == 1
    ensures exists k :: SoleHolder(l, mint, k)
    ensures forall j, k :: SoleHolder(l, mint, j) && SoleHolder(l, mint, k) ==> j == k
  {
    assert Backed(l, mint);
    var k := SomeoneHolds(l.accounts, mint);
    SupplyOneHasSoleHolder(l, k);
    assert SoleHolder(l, mint, k);
  }

  lemma SupplyOneHasSoleHolder(l: Ledger, k: Key)
    requires Conserved(l) && k in l.accounts && l.accounts[k].amount > 0
    requires l.mints[l.accounts[k].mint].supply <= 1
    ensures SoleHolder(l, l.accounts[k].mint, k)
  {
    HoldingWithinSupply(l, k);
    forall j | j in l.accounts && l.accounts[j].mint == l.accounts[k].mint && j != k
      ensures l.accounts[j].amount == 0
    {
      HoldingsWithinSupply(l, k, j);
    }
  }

  // ----- What others can and cannot do -----

  /** The eligibility policy for a barter asset, apart from its supply. */
  predicate FixedPolicy(m: Mint) {
    m.decimals == 0 && m.mintAuthority.None? && m.freezeAuthority.None?
  }

  /** An account of a fixed-policy mint keeps its mint, owner, thawed state and tokens unless its owner signs. */
  lemma OthersCannotTake(l: Ledger, signer: Key, op: TokenOp, k: Key)
    requires k in l.accounts && l.accounts[k].owner != signer
    requires l.accounts[k].mint in l.mints && FixedPolicy(l.mints[l.accounts[k].mint])
    ensures var r := Apply(l, signer, op);
      r.Some? ==>
        && k in r.value.accounts
        && r.value.accounts[k].mint == l.accounts[k].mint
        && r.value.accounts[k].owner == l.accounts[k].owner
        && r.value.accounts[k].frozen == l.accounts[k].frozen
        && r.value.accounts[k].amount >= l.accounts[k].amount
  {
  }

  /** A fixed policy stays fixed, and its supply never grows. */
  lemma PolicyIsForever(l: Ledger, signer: Key, op: TokenOp, mint: Key)
    requires mint in l.mints && FixedPolicy(l.mints[mint])
    ensures var r := Apply(l, signer, op);
      r.Some? ==>
        && mint in r.value.mints && FixedPolicy(r.value.mints[mint])
        && r.value.mints[mint].supply <= l.mints[mint].supply
  {
  }
}
