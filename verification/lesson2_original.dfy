/**
  Lesson 2 before refactoring: the handler allocates the command with only
  its card id, fills in the cardholder name in a second step, and hands the
  command to the processor.
 */
module Lesson2Original {
  import opened Wrappers
  import Lesson2Refactored

  /** The command as a mutable record, built field by field. */
  class DeleteCreditCardCommand {
    var cardId: int
    var cardholderName: string

    /** `&deleteCreditCardCommand{cardId: cardId}`: the name starts as Go's zero string. */
    constructor (cardId: int)
      ensures this.cardId == cardId && cardholderName == ""
    {
      this.cardId := cardId;
      cardholderName := "";
    }

    /** The command's current contents as a value. */
    function Value(): Lesson2Refactored.DeleteCreditCardCommand
      reads this
    {
      Lesson2Refactored.DeleteCreditCardCommand(cardId, cardholderName)
    }
  }

  /**
    The `commandProcessor` as a recording double: `outcome` is the error it
    returns for a command's contents, `received` the contents it was given.
   */
  class CommandProcessor {
    const outcome: Lesson2Refactored.CommandProcessor
    var received: seq<Lesson2Refactored.DeleteCreditCardCommand>

    constructor (outcome: Lesson2Refactored.CommandProcessor)
      ensures this.outcome == outcome && received == []
    {
      this.outcome := outcome;
      received := [];
    }

    method DeleteCreditCard(command: DeleteCreditCardCommand) returns (err: Option<Error>)
      modifies this
      ensures received == old(received) + [command.Value()]
      ensures err == outcome(command.Value())
    {
      received := received + [command.Value()];
      err := outcome(command.Value());
    }
  }

  class RequestHandler {
    const commandProcessor: CommandProcessor

    constructor (commandProcessor: CommandProcessor)
      ensures this.commandProcessor == commandProcessor
    {
      this.commandProcessor := commandProcessor;
    }

    /**
      `handleDeleteCreditCardRequest` with the mapping inline. It gives the
      processor exactly what the refactored handler gives it and returns
      what the refactored handler returns.
     */
    method HandleDeleteCreditCardRequest(request: Lesson2Refactored.DeleteCreditCardRequest) returns (err: Option<Error>)
      modifies commandProcessor
      ensures var refactored := Lesson2Refactored.HandleDeleteCreditCardRequest(request, commandProcessor.outcome);
        commandProcessor.received == old(commandProcessor.received) + refactored.sent &&
        err == refactored.result
    {
      var deleteCommand := new DeleteCreditCardCommand(request.cardId);
      deleteCommand.cardholderName := request.cardholderLastName + ", " + request.cardholderFirstName;
      err := commandProcessor.DeleteCreditCard(deleteCommand);
      if err.Some? {
        return err;
      }
      return None;
    }
  }
}
