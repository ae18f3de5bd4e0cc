/**
  Lesson 2 after refactoring: the request-to-command mapping is a pure
  function of its own, and the handler hands the command it builds to the
  command processor and passes the processor's error back.
 */
module Lesson2Refactored {
  import opened Wrappers

  datatype DeleteCreditCardRequest = DeleteCreditCardRequest(
    cardId: int, cardholderFirstName: string, cardholderLastName: string)

  datatype DeleteCreditCardCommand = DeleteCreditCardCommand(cardId: int, cardholderName: string)

  /** The `commandProcessor` interface: the error it returns for a command, `None` for `nil`. */
  type CommandProcessor = DeleteCreditCardCommand -> Option<Error>

  /** What a handler call did: the commands it gave the processor, in order, and the error it returned. */
  datatype Dispatch = Dispatch(sent: seq<DeleteCreditCardCommand>, result: Option<Error>)

  /** `buildDeleteCreditCardCommand`: the card id as it is, the name as `"<last>, <first>"`. */
  function BuildDeleteCreditCardCommand(request: DeleteCreditCardRequest): (command: DeleteCreditCardCommand)
    ensures command.cardId == request.cardId
    ensures var name, last, first := command.cardholderName, request.cardholderLastName, request.cardholderFirstName;
      |name| == |last| + 2 + |first| &&
      name[..|last|] == last &&
      name[|last|..|last| + 2] == ", " &&
      name[|last| + 2..] == first
  {
    DeleteCreditCardCommand(request.cardId,
      request.cardholderLastName + ", " + request.cardholderFirstName)
  }

  /** `handleDeleteCreditCardRequest`: one command to the processor, its error returned unchanged. */
  function HandleDeleteCreditCardRequest(request: DeleteCreditCardRequest, processor: CommandProcessor): (d: Dispatch)
    ensures |d.sent| == 1 && d.sent[0] == BuildDeleteCreditCardCommand(request)
    ensures d.result == processor(d.sent[0])
  {
    var deleteCommand := BuildDeleteCreditCardCommand(request);
    var err := processor(deleteCommand);
    if err.Some? then Dispatch([deleteCommand], err) else Dispatch([deleteCommand], None)
  }

  /** Knowing where the last name ends, the command gives back the request it was built from. */
  lemma BuildRecoversRequest(a: DeleteCreditCardRequest, b: DeleteCreditCardRequest)
    requires BuildDeleteCreditCardCommand(a) == BuildDeleteCreditCardCommand(b)
    requires |a.cardholderLastName| == |b.cardholderLastName|
    ensures a == b
  {
    var name := BuildDeleteCreditCardCommand(a).cardholderName;
    var n := |a.cardholderLastName|;
    assert a.cardholderLastName == name[..n] == b.cardholderLastName;
    assert a.cardholderFirstName == name[n + 2..] == b.cardholderFirstName;
  }

  /** Without that, names are ambiguous: last "A, B" with first "C" and last "A" with first "B, C" both give "A, B, C". */
  lemma BuildNotInjective()
    ensures var a := DeleteCreditCardRequest(1, "C", "A, B");
      var b := DeleteCreditCardRequest(1, "B, C", "A");
      a != b && BuildDeleteCreditCardCommand(a) == BuildDeleteCreditCardCommand(b)
  {
    assert "A, B" + ", " + "C" == "A" + ", " + "B, C";
  }

  /** The mapping's test cases. */
  lemma BuildTestCases()
    ensures BuildDeleteCreditCardCommand(DeleteCreditCardRequest(0, "Charli", "XCX")).cardholderName == "XCX, Charli"
    ensures BuildDeleteCreditCardCommand(DeleteCreditCardRequest(0, "Jon", "Snow")).cardholderName == "Snow, Jon"
    ensures BuildDeleteCreditCardCommand(DeleteCreditCardRequest(0, "", "")).cardholderName == ", "
  {
    assert "XCX" + ", " + "Charli" == "XCX, Charli";
    assert "Snow" + ", " + "Jon" == "Snow, Jon";
  }
}
