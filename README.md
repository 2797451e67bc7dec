# CoinSwap wallet enums and taker CLI parsing, in Dafny

This project models two small, sequential pieces of the CoinSwap wallet and its
taker command-line tool, and proves what they accept and what they refuse.

- **Wallet API value types** (`wallet_api.dfy`, module `WalletApi`): the two
  keychains and the unhardened child index each is derived at below the account
  path `m/84'/1'/0'`; the ten address categories a user can ask to display and the
  keyword parser `FromStr` that maps exactly ten lower-case keywords to them and
  refuses everything else with `"unknown type"`; and the `UTXOSpendInfo` tag that
  says which of five kinds a wallet-owned UTXO is and what it carries.
- **Taker CLI** (`taker_cli.dfy`, module `TakerCli`): the entry point `Run`, which
  demands exactly three argv entries and the command `send_to_address`, and
  `ParseAddressAmount`, which splits `address:amount` at `':'` and accepts exactly
  two parts. Process exits become error results: `Exit(1, message)` for the
  `eprintln` + `exit(1)` paths and `Panic(message)` for `expect` and for the
  out-of-bounds `args[0]` read when argv is empty. A successful run yields the
  `SendToAddress(address, amount)` command that would be handed to the RPC layer.
- `str_split.dfy` (module `StrSplit`) models Rust's `str::split` on one character,
  with `Join` as its inverse; `bitcoin_types.dfy` holds the fixed-width integers,
  `Amount` (satoshis in a `u64`) and `ScriptBuf` (bytes); `wrappers.dfy` holds
  `Option` and `Result`.

`Amount::from_str` from the `bitcoin` crate is not visible, so it is a parameter
`amountFromStr: string -> Option<Amount>` of every CLI function and lemma; every
property holds for any such parser. All functions are total, so no input makes
`FromStr` or `ParseAddressAmount` fail other than through the error results shown.

## Model

| member | source | states |
|---|---|---|
| `WalletApi.IndexNum` | src/wallet/api.rs:43-57 | each keychain's index equals its declared discriminant (External 0, Internal 1) and is below the hardened offset 2^31, i.e. unhardened |
| `WalletApi.IndexNumInjective` | src/wallet/api.rs:52-57 | two keychains get the same index exactly when they are the same keychain |
| `WalletApi.FromStr` | src/wallet/api.rs:90-104 | an accepted text is the keyword of the returned category; a refused text is no category's keyword and the error is "unknown type" |
| `WalletApi.KeywordInjective` | src/wallet/api.rs:91-101 | no two categories share a keyword |
| `WalletApi.FromStrKeyword` | src/wallet/api.rs:64-101 | every category is parsed back from its own keyword, so the parser is onto all ten categories |
| `WalletApi.FromStrAcceptsExactlyKeywords` | src/wallet/api.rs:90-104 | parsing gives category t if and only if the text is t's keyword |
| `WalletApi.FromStrKeywords` | src/wallet/api.rs:91-101 | each of the ten keywords parses to its named category |
| `WalletApi.FromStrRejectsNearMisses` | src/wallet/api.rs:102 | "", "Seed", "seed ", "ALL" and "fidelity_bond" are refused with "unknown type" |
| `WalletApi.InputValue` | src/wallet/api.rs:111-131 | every kind except SwapCoin carries the input value |
| `WalletApi.BondIndex` | src/wallet/api.rs:127-130 | only FidelityBondCoin carries a bond index |
| `WalletApi.SpendInfoExactlyOneKind` | src/wallet/api.rs:111-131 | every spend-info tag is of exactly one of the five kinds |
| `StrSplit.Split` | bin/taker_cli.rs:28 | splitting yields one more part than there are separators, and no part contains the separator |
| `StrSplit.JoinSplit` | bin/taker_cli.rs:28 | joining the parts of a split with the separator gives back the original text |
| `StrSplit.SplitPrefix` | bin/taker_cli.rs:28 | a separator-free prefix extends the first part of the split of the rest |
| `StrSplit.SplitJoin` | bin/taker_cli.rs:28 | splitting separator-free parts joined by the separator gives back the parts |
| `TakerCli.ParseAddressAmount` | bin/taker_cli.rs:27-38 | the argument is refused with exit(1) and the format message exactly when it does not contain exactly one ':'; with one ':' it is accepted exactly when the text after the ':' parses as an amount, and otherwise panics with "Invalid amount"; an accepted address contains no ':' |
| `TakerCli.ParseAddressAmountAccepted` | bin/taker_cli.rs:28-37 | an accepted argument is the returned address, one ':' and a ':'-free amount text that parses to the returned amount |
| `TakerCli.ParseAddressAmountRoundTrip` | bin/taker_cli.rs:27-38 | for ':'-free address and amount texts, parsing `address:amount` returns the address verbatim and the amount parser's verdict on the amount text |
| `TakerCli.ParseAddressAmountEmptyAddress` | bin/taker_cli.rs:34-35 | an empty address before the ':' is accepted unchanged |
| `TakerCli.Run` | bin/taker_cli.rs:8-25 | a non-empty argv whose length is not three exits 1 with the usage message naming args[0], an empty one panics on the out-of-bounds read; any command other than send_to_address exits 1 with "Unknown command"; success happens exactly when the command is send_to_address and the argument parses, and then carries the parsed address and amount; a parse failure is passed through unchanged |
| `TakerCli.RunSendToAddress` | bin/taker_cli.rs:15-20 | `send_to_address <address>:<amount>` with ':'-free texts and a parsable amount dispatches the transfer of that amount to that address |
| `TakerCli.RunWrongArgumentCount` | bin/taker_cli.rs:10-13 | every non-empty argv whose length is not three exits 1 with the usage message naming args[0] |
| `TakerCli.RunRejectsHyphenatedCommand` | bin/taker_cli.rs:18-24 | "send-to-address" is an unknown command and exits 1 |

## Left out

- `Wallet::init` (src/wallet/api.rs:141-169): mnemonic parsing, master-key derivation, wallet-file storage and BDK wallet construction are foreign library calls and file I/O.
- `send_to_address` (bin/taker_cli.rs:40-64): it connects to a node over RPC, validates the address with `Address::from_str` and broadcasts; the model stops at the dispatched `SendToAddress` command, so an invalid address is not refused by this model.
- `Amount::from_str` is an arbitrary parameter; its denomination handling is not modelled.
- `TakerCli.ParseAddressAmount`: the panic message omits the Debug text of the amount parser's error that `expect` appends, and a panic's exit status is not modelled.
- TakerCli.Run: argv is a sequence of strings, so the panic of `env::args()` on an argument that is not valid Unicode is not modelled.
- Writing to standard error is modelled as the message carried by the error result, not as output.
- The swap protocol (contract scripts, swap-coin lifecycle, taker/maker negotiation, coin selection and UTXO classification) is only imported by src/wallet/api.rs and is not part of this model.
- The constant `WATCH_ONLY_SWAPCOIN_LABEL` and the `SwapCoinsInfo` type alias are not used by the modelled code.
