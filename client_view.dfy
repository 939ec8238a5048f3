/**
  The browser client's state: the closure variables of the narration parser,
  the turn-id counter and the turn elements it numbers, the rendered choice
  buttons and the choices sent back to the server. Rendering (the DOM,
  formatting, scrolling) is not modelled; a turn element is its id.
 */
module ClientView {
  import opened NarrationSpec

  /** A rendered choice button and the turn id it will send. */
  datatype ChoiceButton = ChoiceButton(choice: string, nextTurnId: int)

  /** A message sent to the server. */
  datatype Outgoing = ChoiceMessage(choice: string, turnId: int)

  class NarrationClient {
    var isConnected: bool
    var turnIdCounter: int
    var hasTurnElement: bool
    /** The ids of the turn elements in the history log, in order. */
    var turnElementIds: seq<int>
    var fullResponseText: string
    var isParsingNarration: bool
    var stringBuffer: string
    var escapeNextChar: bool
    var narrationBuffer: string
    var hasCursor: bool
    /** The buttons of the current turn element. */
    var buttons: seq<ChoiceButton>
    var sent: seq<Outgoing>

    /** The parser's closure variables as one state. */
    function Parser(): ParserState
      reads this
    {
      ParserState(isParsingNarration, stringBuffer, escapeNextChar, narrationBuffer)
    }

    /**
      While connected the turn elements are numbered 0, 1, 2, … in order and
      the counter is the next id; a closed connection has an empty log; every
      rendered button carries the next id; the window is bounded and cleared
      in narration mode.
     */
    ghost predicate Valid()
      reads this
    {
      (isConnected ==>
        |turnElementIds| == turnIdCounter &&
        forall i :: 0 <= i < |turnElementIds| ==> turnElementIds[i] == i) &&
      (!isConnected ==> turnElementIds == []) &&
      (forall b :: b in buttons ==> b.nextTurnId == turnIdCounter) &&
      WindowValid()
    }

    /** The window is bounded by the pattern length and cleared in narration mode. */
    ghost predicate WindowValid()
      reads this
    {
      |stringBuffer| <= PatternLength && (isParsingNarration ==> stringBuffer == "")
    }

    constructor ()
      ensures Valid()
      ensures !isConnected && turnIdCounter == 0 && !hasTurnElement && turnElementIds == []
      ensures Parser() == ResetState && fullResponseText == "" && buttons == [] && sent == []
    {
      isConnected := false;
      turnIdCounter := 0;
      hasTurnElement := false;
      turnElementIds := [];
      fullResponseText := "";
      isParsingNarration := false;
      stringBuffer := "";
      escapeNextChar := false;
      narrationBuffer := "";
      hasCursor := false;
      buttons := [];
      sent := [];
    }

    /** `resetNarrationParsingState`: clears the raw text, the parser and the cursor. */
    method ResetNarrationParsingState()
      modifies this`fullResponseText, this`isParsingNarration, this`stringBuffer,
        this`escapeNextChar, this`narrationBuffer, this`hasCursor
      ensures Parser() == ResetState && fullResponseText == "" && !hasCursor
    {
      fullResponseText := "";
      isParsingNarration := false;
      stringBuffer := "";
      escapeNextChar := false;
      hasCursor := false;
      narrationBuffer := "";
    }

    /**
      `createNewTurnElement`: the new element takes the current counter as
      its id and the counter moves on; the element starts with no buttons
      and a reset parser.
     */
    method CreateNewTurnElement() returns (turnId: int)
      modifies this`turnIdCounter, this`hasTurnElement, this`turnElementIds, this`buttons,
        this`fullResponseText, this`isParsingNarration, this`stringBuffer,
        this`escapeNextChar, this`narrationBuffer, this`hasCursor
      ensures turnId == old(turnIdCounter) && turnIdCounter == turnId + 1
      ensures hasTurnElement && turnElementIds == old(turnElementIds) + [turnId] && buttons == []
      ensures Parser() == ResetState && fullResponseText == "" && !hasCursor
    {
      turnId := turnIdCounter;
      turnIdCounter := turnIdCounter + 1;
      hasTurnElement := true;
      turnElementIds := turnElementIds + [turnId];
      buttons := [];
      ResetNarrationParsingState();
    }

    /** The socket opened: the counter restarts at 0 and element 0 is created. */
    method OnOpen()
      requires Valid() && !isConnected
      modifies this`isConnected, this`turnIdCounter, this`hasTurnElement, this`turnElementIds, this`buttons,
        this`fullResponseText, this`isParsingNarration, this`stringBuffer,
        this`escapeNextChar, this`narrationBuffer, this`hasCursor
      ensures Valid() && isConnected
      ensures turnElementIds == [0] && turnIdCounter == 1 && hasTurnElement && buttons == []
      ensures Parser() == ResetState && fullResponseText == "" && !hasCursor && sent == old(sent)
    {
      isConnected := true;
      turnIdCounter := 0;
      var _ := CreateNewTurnElement();
    }

    /** The socket closed: the history log is cleared; the counter is kept until the next open. */
    method OnClose()
      requires Valid()
      modifies this`isConnected, this`turnElementIds, this`buttons
      ensures Valid() && !isConnected && turnElementIds == [] && buttons == []
    {
      isConnected := false;
      turnElementIds := [];
      buttons := [];
    }

    /**
      `handleTextMessage`: an empty token, or one with no turn element,
      changes nothing; otherwise the raw text grows by the token and the
      parser has consumed its characters in order.
     */
    method HandleTextMessage(token: string)
      requires Valid()
      modifies this`fullResponseText, this`isParsingNarration, this`stringBuffer,
        this`escapeNextChar, this`narrationBuffer, this`hasCursor
      ensures Valid()
      ensures token == "" || !hasTurnElement ==>
        fullResponseText == old(fullResponseText) && Parser() == old(Parser()) && hasCursor == old(hasCursor)
      ensures token != "" && hasTurnElement ==>
        fullResponseText == old(fullResponseText) + token && Parser() == Feed(old(Parser()), token)
      ensures hasCursor <==> old(hasCursor) || |narrationBuffer| > |old(narrationBuffer)|
    {
      if token == "" || !hasTurnElement {
        return;
      }
      fullResponseText := fullResponseText + token;
      ConsumeToken(token);
    }

    /** The character loop of `handleTextMessage`: the parser consumes the token in order. */
    method ConsumeToken(token: string)
      requires WindowValid()
      modifies this`isParsingNarration, this`stringBuffer, this`escapeNextChar,
        this`narrationBuffer, this`hasCursor
      ensures WindowValid()
      ensures Parser() == Feed(old(Parser()), token)
      ensures hasCursor <==> old(hasCursor) || |narrationBuffer| > |old(narrationBuffer)|
    {
      for i := 0 to |token|
        invariant WindowValid()
        invariant Parser() == Feed(old(Parser()), token[..i])
        invariant |narrationBuffer| >= |old(narrationBuffer)|
        invariant hasCursor <==> old(hasCursor) || |narrationBuffer| > |old(narrationBuffer)|
      {
        assert token[..i + 1][..i] == token[..i];
        ConsumeChar(token[i]);
      }
      assert token[..|token|] == token;
    }

    /** The body of the character loop of `handleTextMessage`: one parser step. */
    method ConsumeChar(c: char)
      requires WindowValid()
      modifies this`isParsingNarration, this`stringBuffer, this`escapeNextChar,
        this`narrationBuffer, this`hasCursor
      ensures WindowValid()
      ensures Parser() == Step(old(Parser()), c)
      ensures |narrationBuffer| >= |old(narrationBuffer)|
      ensures hasCursor <==> old(hasCursor) || |narrationBuffer| > |old(narrationBuffer)|
    {
      if isParsingNarration {
        if escapeNextChar {
          AppendNarrationChar(c);
          escapeNextChar := false;
        } else if c == '\\' {
          escapeNextChar := true;
        } else if c == '"' {
          isParsingNarration := false;
        } else {
          AppendNarrationChar(c);
        }
      } else {
        SlideWindow(c);
      }
    }

    /** Outside narration mode: slide the character into the window and test for the pattern. */
    method SlideWindow(c: char)
      requires WindowValid() && !isParsingNarration
      modifies this`isParsingNarration, this`stringBuffer, this`escapeNextChar
      ensures WindowValid()
      ensures Parser() == Step(old(Parser()), c)
    {
      ghost var before := Parser();
      stringBuffer := stringBuffer + [c];
      if |stringBuffer| > PatternLength {
        stringBuffer := stringBuffer[|stringBuffer| - PatternLength..];
      }
      assert stringBuffer == Slide(before.window, c);
      if stringBuffer == NarrationStartPattern {
        isParsingNarration := true;
        escapeNextChar := false;
        stringBuffer := "";
      }
    }

    /** `appendNarrationCharToUI`: the narration grows by one character and the cursor is shown. */
    method AppendNarrationChar(c: char)
      modifies this`narrationBuffer, this`hasCursor
      ensures narrationBuffer == old(narrationBuffer) + [c] && hasCursor
    {
      narrationBuffer := narrationBuffer + [c];
      hasCursor := true;
    }

    /**
      `handleChoicesMessage`: with a turn element, parsing stops, the cursor
      goes, and one button per choice is rendered in order, each carrying the
      counter's current value: the id of the next turn element.
     */
    method HandleChoicesMessage(choices: seq<string>)
      requires Valid()
      modifies this`isParsingNarration, this`hasCursor, this`buttons
      ensures Valid()
      ensures !old(hasTurnElement) ==>
        isParsingNarration == old(isParsingNarration) && hasCursor == old(hasCursor) && buttons == old(buttons)
      ensures old(hasTurnElement) ==>
        !isParsingNarration && !hasCursor && |buttons| == |choices| &&
        forall i :: 0 <= i < |choices| ==> buttons[i] == ChoiceButton(choices[i], turnIdCounter)
    {
      if !hasTurnElement {
        return;
      }
      isParsingNarration := false;
      hasCursor := false;
      buttons := [];
      for k := 0 to |choices|
        invariant |buttons| == k && !isParsingNarration && !hasCursor
        invariant forall i :: 0 <= i < k ==> buttons[i] == ChoiceButton(choices[i], turnIdCounter)
      {
        buttons := buttons + [ChoiceButton(choices[k], turnIdCounter)];
      }
    }

    /**
      A click on a rendered button: while connected it sends the choice with
      the id it captured, and creates the next turn element, whose id is that
      same id; while disconnected nothing happens.
     */
    method ClickChoice(k: nat)
      requires Valid() && k < |buttons|
      modifies this`sent, this`turnIdCounter, this`hasTurnElement, this`turnElementIds, this`buttons,
        this`fullResponseText, this`isParsingNarration, this`stringBuffer,
        this`escapeNextChar, this`narrationBuffer, this`hasCursor
      ensures Valid()
      ensures !old(isConnected) ==> unchanged(this)
      ensures old(isConnected) ==>
        var b := old(buttons[k]);
        sent == old(sent) + [ChoiceMessage(b.choice, b.nextTurnId)] &&
        turnElementIds == old(turnElementIds) + [b.nextTurnId] &&
        turnElementIds[|turnElementIds| - 1] == |turnElementIds| - 1 &&
        turnIdCounter == old(turnIdCounter) + 1 && hasTurnElement &&
        buttons == [] && Parser() == ResetState && fullResponseText == "" && !hasCursor
    {
      if isConnected {
        var b := buttons[k];
        assert b in buttons;
        sent := sent + [ChoiceMessage(b.choice, b.nextTurnId)];
        var _ := CreateNewTurnElement();
      }
    }
  }
}
