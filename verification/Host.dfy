/** The host: it closes ledgers, lets contracts authorise only their own calls,
    and discards every write of a call that fails. */
module Host {
  import opened Soroban
  import opened TokenContracts
  import opened Vault
  import opened Streams
  import opened Protocol
  import Custody
  import Token

  function Acknowledge(r: Outcome<Unit>): Outcome<Reply> {
    if r.Ok? then Ok(Nothing) else Err(r.error)
  }

  class Ledger {
    var sequence: U32
    const stream: StreamContract

    function World(): World
      reads this, stream, stream.vaultClient, stream.vaultClient.tokens
    {
      stream.World(sequence)
    }

    constructor (sequence: U32, stream: StreamContract)
      ensures this.sequence == sequence && this.stream == stream
    {
      this.sequence, this.stream := sequence, stream;
    }

    /** Runs the called contract; on failure whatever was written stays for the caller to undo. */
    method Dispatch(signers: set<Address>, call: Call) returns (answer: Outcome<Reply>)
      modifies stream, stream.vaultClient, stream.vaultClient.tokens
      ensures match Perform(old(World()), signers, call)
              case Ok(done) => answer == Ok(done.reply) && World() == done.world
              case Err(e) => answer == Err(e)
    {
      hide CreateStream, Withdraw, WithdrawMax, CancelStream, SetPaused, Custody.Deposit, Custody.Pay, Token.Transfer;
      var vault := stream.vaultClient;
      match call
      case CallCreateStream(terms) =>
        var r := stream.CreateStream(sequence, signers, terms);
        answer := if r.Ok? then Ok(StreamId(r.value)) else Err(r.error);
      case CallWithdraw(recipient, id, amount) =>
        var r := stream.Withdraw(sequence, signers, recipient, id, amount);
        answer := Acknowledge(r);
      case CallWithdrawMax(recipient, id) =>
        var r := stream.WithdrawMax(sequence, signers, recipient, id);
        answer := if r.Ok? then Ok(Amount(r.value)) else Err(r.error);
      case CallCancelStream(sender, id) =>
        var r := stream.CancelStream(sequence, signers, sender, id);
        answer := Acknowledge(r);
      case CallPause =>
        var r := stream.Pause(sequence, signers);
        answer := Acknowledge(r);
      case CallUnpause =>
        var r := stream.Unpause(sequence, signers);
        answer := Acknowledge(r);
      case CallDeposit(from, token, amount, id) =>
        var r := vault.Deposit(signers, from, token, amount, id);
        answer := Acknowledge(r);
      case CallRelease(caller, to, token, amount, id) =>
        var r := vault.Release(signers, caller, to, token, amount, id);
        answer := Acknowledge(r);
      case CallRefund(caller, to, token, amount, id) =>
        var r := vault.Refund(signers, caller, to, token, amount, id);
        answer := Acknowledge(r);
      case CallTransfer(token, from, to, amount) =>
        if from !in signers {
          return Err(AuthFailure);
        }
        var r := vault.tokens.Transfer(token, from, to, amount);
        answer := Acknowledge(r);
    }

    /** One transaction: the contracts run in place, and the answer and the state
        left behind are those of the transition system. */
    method Execute(op: Op) returns (answer: Outcome<Reply>)
      modifies this, stream, stream.vaultClient, stream.vaultClient.tokens
      ensures answer == Answer(old(World()), op)
      ensures World() == Step(old(World()), op)
    {
      hide CreateStream, Withdraw, WithdrawMax, CancelStream, SetPaused, Custody.Deposit, Custody.Pay, Token.Transfer;
      match op
      case Advance(to) =>
        sequence := Max(sequence, to);
        answer := Ok(Nothing);
      case Submit(signers, call) =>
        var vault := stream.vaultClient;
        var streamBook, vaultBook, bank := stream.Book(), vault.Book(), vault.tokens.bank;
        answer := Dispatch(signers - {stream.self, vault.self}, call);
        if answer.Err? {
          stream.Restore(streamBook);
          vault.Restore(vaultBook);
          vault.tokens.bank := bank;
        }
    }
  }

  /** Both contracts deployed and initialised to point at each other. */
  method Deploy(sequence: U32, admin: Address, stream: Address, vault: Address, bank: Token.Bank)
    returns (ledger: Ledger)
    ensures fresh(ledger) && fresh(ledger.stream) && fresh(ledger.stream.vaultClient)
    ensures ledger.World() == Genesis(sequence, admin, stream, vault, bank)
  {
    var genesis := Genesis(sequence, admin, stream, vault, bank);
    var tokens := new TokenLedger(bank);
    var vaultContract := new VaultContract(genesis.holdings, tokens);
    var streamContract := new StreamContract(genesis.book, vaultContract);
    ledger := new Ledger(sequence, streamContract);
  }
}
