/** The value types of the wallet API: the keychain kinds and their derivation
    indices, the address categories a user can ask to display together with their
    keyword parser, and the tag that says how a wallet-owned UTXO is spent. */
module WalletApi {
  import opened Wrappers
  import opened BitcoinTypes

  /** BIP 32: child indices from 2^31 upwards are hardened. */
  const HardenedOffset: int := 0x8000_0000

  // ---------------------------------------------------------------------------
  // Keychains

  datatype KeychainKind = External | Internal

  /** The discriminants as declared: `External` is fixed at 0 and `Internal`,
      declared next without an initialiser, takes the following value. */
  function Discriminant(k: KeychainKind): int
  {
    match k
    case External => 0
    case Internal => 0 + 1
  }

  /** The unhardened child index that selects the keychain below the account path. */
  function IndexNum(k: KeychainKind): (r: u32)
    ensures r as int == Discriminant(k)
    ensures r as int < HardenedOffset
  {
    match k
    case External => 0
    case Internal => 1
  }

  /** Distinct keychains derive from distinct child indices. */
  lemma IndexNumInjective(a: KeychainKind, b: KeychainKind)
    ensures IndexNum(a) == IndexNum(b) <==> a == b
  {
  }

  // ---------------------------------------------------------------------------
  // Address categories

  datatype DisplayAddressType =
    | All
    | MasterKey
    | Seed
    | IncomingSwap
    | OutgoingSwap
    | Swap
    | IncomingContract
    | OutgoingContract
    | Contract
    | FidelityBond

  /** The error text of a rejected keyword. */
  const UnknownType: string := "unknown type"

  /** The lower-case keyword that names each category on the command line. */
  function Keyword(t: DisplayAddressType): string
  {
    match t
    case All => "all"
    case MasterKey => "masterkey"
    case Seed => "seed"
    case IncomingSwap => "incomingswap"
    case OutgoingSwap => "outgoingswap"
    case Swap => "swap"
    case IncomingContract => "incomingcontract"
    case OutgoingContract => "outgoingcontract"
    case Contract => "contract"
    case FidelityBond => "fidelitybond"
  }

  /** `FromStr` for the categories: a keyword gives its category, and any other text,
      however close to a keyword, is refused with "unknown type". */
  function FromStr(s: string): (r: Result<DisplayAddressType, string>)
    ensures r.Ok? ==> Keyword(r.value) == s
    ensures r.Err? ==> r.error == UnknownType && forall t :: Keyword(t) != s
  {
    match s
    case "all" => Ok(All)
    case "masterkey" => Ok(MasterKey)
    case "seed" => Ok(Seed)
    case "incomingswap" => Ok(IncomingSwap)
    case "outgoingswap" => Ok(OutgoingSwap)
    case "swap" => Ok(Swap)
    case "incomingcontract" => Ok(IncomingContract)
    case "outgoingcontract" => Ok(OutgoingContract)
    case "contract" => Ok(Contract)
    case "fidelitybond" => Ok(FidelityBond)
    case _ => Err(UnknownType)
  }

  /** No two categories share a keyword. */
  lemma KeywordInjective(t: DisplayAddressType, u: DisplayAddressType)
    ensures Keyword(t) == Keyword(u) ==> t == u
  {
  }

  /** Every category is parsed back from its keyword, so the parser reaches all ten. */
  lemma FromStrKeyword(t: DisplayAddressType)
    ensures FromStr(Keyword(t)) == Ok(t)
  {
    KeywordInjective(t, FromStr(Keyword(t)).value);
  }

  /** A text is accepted exactly when it is the keyword of some category, and then
      only that category's keyword gives it. */
  lemma FromStrAcceptsExactlyKeywords(s: string, t: DisplayAddressType)
    ensures FromStr(s) == Ok(t) <==> s == Keyword(t)
  {
    if s == Keyword(t) {
      FromStrKeyword(t);
    }
  }

  /** The ten keywords and their categories, one by one. */
  lemma FromStrKeywords()
    ensures FromStr("all") == Ok(All)
    ensures FromStr("masterkey") == Ok(MasterKey)
    ensures FromStr("seed") == Ok(Seed)
    ensures FromStr("incomingswap") == Ok(IncomingSwap)
    ensures FromStr("outgoingswap") == Ok(OutgoingSwap)
    ensures FromStr("swap") == Ok(Swap)
    ensures FromStr("incomingcontract") == Ok(IncomingContract)
    ensures FromStr("outgoingcontract") == Ok(OutgoingContract)
    ensures FromStr("contract") == Ok(Contract)
    ensures FromStr("fidelitybond") == Ok(FidelityBond)
  {
  }

  /** The empty text, a capitalised keyword and a padded keyword are all refused. */
  lemma FromStrRejectsNearMisses()
    ensures FromStr("") == Err(UnknownType)
    ensures FromStr("Seed") == Err(UnknownType)
    ensures FromStr("seed ") == Err(UnknownType)
    ensures FromStr("ALL") == Err(UnknownType)
    ensures FromStr("fidelity_bond") == Err(UnknownType)
  {
  }

  // ---------------------------------------------------------------------------
  // How a UTXO is spent

  /** What the wallet must know, beyond the unspent-output record, to spend a UTXO:
      exactly one of five kinds, each with its own payload. */
  datatype UTXOSpendInfo =
    | SeedCoin(path: string, inputValue: Amount)
    | SwapCoin(multisigRedeemscript: ScriptBuf)
    | TimelockContract(swapcoinMultisigRedeemscript: ScriptBuf, inputValue: Amount)
    | HashlockContract(swapcoinMultisigRedeemscript: ScriptBuf, inputValue: Amount)
    | FidelityBondCoin(index: u32, inputValue: Amount)

  /** The value of the spent output when the tag records it. */
  function InputValue(info: UTXOSpendInfo): (r: Option<Amount>)
    ensures r.None? <==> info.SwapCoin?
    ensures r.Some? ==> r.value == info.inputValue
  {
    match info
    case SeedCoin(_, v) => Some(v)
    case SwapCoin(_) => None
    case TimelockContract(_, v) => Some(v)
    case HashlockContract(_, v) => Some(v)
    case FidelityBondCoin(_, v) => Some(v)
  }

  /** The fidelity-bond index when the tag records one. */
  function BondIndex(info: UTXOSpendInfo): (r: Option<u32>)
    ensures r.Some? <==> info.FidelityBondCoin?
    ensures r.Some? ==> r.value == info.index
  {
    match info
    case FidelityBondCoin(i, _) => Some(i)
    case _ => None
  }

  /** Each tag is of exactly one kind. */
  lemma SpendInfoExactlyOneKind(info: UTXOSpendInfo)
    ensures (if info.SeedCoin? then 1 else 0) + (if info.SwapCoin? then 1 else 0)
          + (if info.TimelockContract? then 1 else 0) + (if info.HashlockContract? then 1 else 0)
          + (if info.FidelityBondCoin? then 1 else 0) == 1
  {
  }
}
