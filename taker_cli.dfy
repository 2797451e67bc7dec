/** The taker command-line front end: it checks the argument vector, accepts only
    the `send_to_address` command, and splits its `address:amount` argument.
    The process exits (`exit(1)` after a message on standard error, or a panic) are
    error results; the transfer itself is the dispatched command value. */
module TakerCli {
  import opened Wrappers
  import opened BitcoinTypes
  import opened StrSplit

  /** How the process ends when it does not reach the transfer. */
  datatype Termination =
    | Exit(code: int, stderr: string)
    | Panic(message: string)

  /** The address text and the amount taken from an `address:amount` argument. */
  datatype AddressAmount = AddressAmount(address: string, amount: Amount)

  /** What the front end hands on to the RPC layer. */
  datatype Command = SendToAddress(address: string, amount: Amount)

  const Separator: char := ':'
  const SendToAddressCommand: string := "send_to_address"
  const InvalidFormat: string := "Invalid address:amount format"
  const InvalidAmount: string := "Invalid amount"
  const IndexOutOfBounds: string := "index out of bounds: the len is 0 but the index is 0"

  function Usage(program: string): string
  {
    "Usage: " + program + " send_to_address <address:amount>"
  }

  function UnknownCommand(command: string): string
  {
    "Unknown command: " + command
  }

  /** Splits the argument at ':' and accepts only two parts: the first is the address,
      passed on unchecked, the second must parse as an amount under `amountFromStr`
      (the `bitcoin` crate's `Amount::from_str`), or the process panics. */
  function ParseAddressAmount(arg: string, amountFromStr: string -> Option<Amount>)
    : (r: Result<AddressAmount, Termination>)
    ensures Count(arg, Separator) != 1 <==> r == Err(Exit(1, InvalidFormat))
    ensures r.Ok? ==> Separator !in r.value.address
    ensures r.Err? && Count(arg, Separator) == 1 ==> r == Err(Panic(InvalidAmount))
    ensures Count(arg, Separator) == 1 ==> (r.Ok? <==> amountFromStr(Split(arg, Separator)[1]).Some?)
  {
    var parts := Split(arg, Separator);
    if |parts| != 2 then
      Err(Exit(1, InvalidFormat))
    else
      var address := parts[0];
      match amountFromStr(parts[1])
      case Some(amount) => Ok(AddressAmount(address, amount))
      case None => Err(Panic(InvalidAmount))
  }

  /** An accepted argument is the address, one ':' and a colon-free amount text that
      parses to the amount returned. */
  lemma ParseAddressAmountAccepted(arg: string, amountFromStr: string -> Option<Amount>)
    requires ParseAddressAmount(arg, amountFromStr).Ok?
    ensures var aa := ParseAddressAmount(arg, amountFromStr).value;
      exists amountText :: Separator !in amountText
        && arg == aa.address + [Separator] + amountText
        && amountFromStr(amountText) == Some(aa.amount)
  {
    var parts := Split(arg, Separator);
    JoinSplit(arg, Separator);
    assert parts[1..] == [parts[1]];
    assert arg == parts[0] + [Separator] + parts[1];
  }

  /** Round trip: an address and an amount text without ':' joined by ':' come back
      apart, the address verbatim and the amount as `amountFromStr` reads it. */
  lemma ParseAddressAmountRoundTrip(address: string, amountText: string,
                                    amountFromStr: string -> Option<Amount>)
    requires Separator !in address && Separator !in amountText
    ensures ParseAddressAmount(address + [Separator] + amountText, amountFromStr)
      == match amountFromStr(amountText)
         case Some(amount) => Ok(AddressAmount(address, amount))
         case None => Err(Panic(InvalidAmount))
  {
    var parts := [address, amountText];
    assert parts[1..] == [amountText];
    SplitJoin(parts, Separator);
  }

  /** The address is not validated here: an empty one before the ':' goes through. */
  lemma ParseAddressAmountEmptyAddress(amountText: string, amount: Amount,
                                       amountFromStr: string -> Option<Amount>)
    requires Separator !in amountText && amountFromStr(amountText) == Some(amount)
    ensures ParseAddressAmount(":" + amountText, amountFromStr) == Ok(AddressAmount("", amount))
  {
    ParseAddressAmountRoundTrip("", amountText, amountFromStr);
    assert "" + [Separator] + amountText == ":" + amountText;
  }

  /** The entry point on the argument vector (program name first): exactly three
      entries, the command `send_to_address`, and a well-formed `address:amount`
      lead to the transfer; everything else ends the process. With no entries at all
      the usage message itself fails to read the program name and panics. */
  function Run(args: seq<string>, amountFromStr: string -> Option<Amount>)
    : (r: Result<Command, Termination>)
    ensures |args| != 3 ==>
              r == if |args| == 0 then Err(Panic(IndexOutOfBounds)) else Err(Exit(1, Usage(args[0])))
    ensures |args| == 3 && args[1] != SendToAddressCommand
      ==> r == Err(Exit(1, UnknownCommand(args[1])))
    ensures r.Ok? ==>
              && |args| == 3 && args[1] == SendToAddressCommand
              && ParseAddressAmount(args[2], amountFromStr) == Ok(AddressAmount(r.value.address, r.value.amount))
    ensures |args| == 3 && args[1] == SendToAddressCommand && ParseAddressAmount(args[2], amountFromStr).Err?
      ==> r == Err(ParseAddressAmount(args[2], amountFromStr).error)
    ensures |args| == 3 && args[1] == SendToAddressCommand && ParseAddressAmount(args[2], amountFromStr).Ok?
      ==> r.Ok?
  {
    if |args| != 3 then
      if |args| == 0 then Err(Panic(IndexOutOfBounds)) else Err(Exit(1, Usage(args[0])))
    else
      var command := args[1];
      var addressAmount := args[2];
      if command == SendToAddressCommand then
        match ParseAddressAmount(addressAmount, amountFromStr)
        case Ok(aa) => Ok(SendToAddress(aa.address, aa.amount))
        case Err(e) => Err(e)
      else
        Err(Exit(1, UnknownCommand(command)))
  }

  /** The invocation the integration test builds, `send_to_address <address>:<amount>`,
      reaches the transfer with the address verbatim and the parsed amount. */
  lemma RunSendToAddress(program: string, address: string, amountText: string, amount: Amount,
                         amountFromStr: string -> Option<Amount>)
    requires Separator !in address && Separator !in amountText
    requires amountFromStr(amountText) == Some(amount)
    ensures Run([program, SendToAddressCommand, address + [Separator] + amountText], amountFromStr)
      == Ok(SendToAddress(address, amount))
  {
    ParseAddressAmountRoundTrip(address, amountText, amountFromStr);
  }

  /** Wrong argument counts: any non-empty argv without exactly three entries ends
      with the usage message naming the program and exit code 1. */
  lemma RunWrongArgumentCount(args: seq<string>, amountFromStr: string -> Option<Amount>)
    requires 0 < |args| != 3
    ensures Run(args, amountFromStr) == Err(Exit(1, Usage(args[0])))
  {
  }

  /** The hyphenated spelling is not the command. */
  lemma RunRejectsHyphenatedCommand(program: string, arg: string, amountFromStr: string -> Option<Amount>)
    ensures Run([program, "send-to-address", arg], amountFromStr)
      == Err(Exit(1, UnknownCommand("send-to-address")))
  {
  }
}
