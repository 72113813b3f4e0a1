/**
 * The Python responder of main.py: a canned reply chosen by key phrases in
 * the lower-cased text, and the chat-type decision of `handle_message`
 * (in a group the bot answers only when mentioned, with the mention removed).
 */
module Responder {
  import opened Wrappers
  import opened Strings

  /** The five canned replies of `handle_response`, in the order the responder checks for them. */
  datatype PyReply = Scold | Fine | LoveToo | HiThere | DontUnderstand

  /** The text each reply sends. */
  function ReplyText(r: PyReply): string {
    match r
    case Scold => "bhag tori bahin ke chodo utar jaldi wahan se"
    case Fine => "I am fine wbu"
    case LoveToo => "awww..... i love you too!"
    case HiThere => "Hi there"
    case DontUnderstand => "I don't understand what you said"
  }

  /** The five replies send five different texts, so a sent text names its reply. */
  lemma ReplyTextInjective(a: PyReply, b: PyReply)
    ensures ReplyText(a) == ReplyText(b) <==> a == b
  {
    if a != b {
      assert |ReplyText(a)| != |ReplyText(b)|;
    }
  }

  /** Python truthiness of a string. */
  predicate PyTruthy(s: string) {
    s != ""
  }

  /**
   * `handle_response` as written: `'hello' or 'hi' in processed` parses as
   * `'hello' or ('hi' in processed)`, and the literal is truthy.
   */
  function HandleResponseAsWritten(text: string): PyReply {
    var processed := ToLower(text);
    if PyTruthy("hello") || Contains(processed, "hi") then Scold
    else if Contains(processed, "how are you") then Fine
    else if Contains(processed, "i love you") then LoveToo
    else if Contains(processed, "jaldi wahan se hato") then HiThere
    else DontUnderstand
  }

  /** `handle_response` as evidently intended: the first test is `'hello' in processed or 'hi' in processed`. */
  function HandleResponse(text: string): PyReply {
    var processed := ToLower(text);
    if Contains(processed, "hello") || Contains(processed, "hi") then Scold
    else if Contains(processed, "how are you") then Fine
    else if Contains(processed, "i love you") then LoveToo
    else if Contains(processed, "jaldi wahan se hato") then HiThere
    else DontUnderstand
  }

  /** As written, every text gets the first reply; the other four are unreachable. */
  lemma AsWrittenAlwaysScolds(text: string)
    ensures HandleResponseAsWritten(text) == Scold
  {
  }

  /** The intended responder answers each phrase in order, case-insensitively, and falls back only when none occurs. */
  lemma ResponsePrecedence(text: string)
    ensures var p := ToLower(text);
            && (HandleResponse(text) == Scold <==> Contains(p, "hello") || Contains(p, "hi"))
            && (HandleResponse(text) == Fine <==> !Contains(p, "hello") && !Contains(p, "hi") && Contains(p, "how are you"))
            && (HandleResponse(text) == LoveToo <==>
                 !Contains(p, "hello") && !Contains(p, "hi") && !Contains(p, "how are you") && Contains(p, "i love you"))
            && (HandleResponse(text) == HiThere <==>
                 !Contains(p, "hello") && !Contains(p, "hi") && !Contains(p, "how are you")
                 && !Contains(p, "i love you") && Contains(p, "jaldi wahan se hato"))
            && (HandleResponse(text) == DontUnderstand <==>
                 !Contains(p, "hello") && !Contains(p, "hi") && !Contains(p, "how are you")
                 && !Contains(p, "i love you") && !Contains(p, "jaldi wahan se hato"))
  {
  }

  /** The empty text shows the difference: as written it is scolded, as intended it is not understood. */
  lemma EmptyTextWitness()
    ensures HandleResponseAsWritten("") == Scold
    ensures HandleResponse("") == DontUnderstand
  {
    assert ToLower("") == "";
    NothingInEmpty("hello");
    NothingInEmpty("hi");
    NothingInEmpty("how are you");
    NothingInEmpty("i love you");
    NothingInEmpty("jaldi wahan se hato");
  }

  /** No non-empty phrase occurs in the empty text. */
  lemma NothingInEmpty(p: string)
    requires p != ""
    ensures !Contains("", p)
  {
    forall i | 0 <= i <= 0 ensures !OccursAt("", p, i) {}
  }

  /** The bot's username, as mentioned in a group. */
  const BotUsername := "@itigecbot"

  /** The text `handle_message` hands to the responder, or `None` when it returns without replying. */
  function Inbound(chatType: string, text: string): (r: Option<string>)
    ensures chatType != "group" ==> r == Some(text)
    ensures chatType == "group" ==> (r.Some? <==> Contains(text, BotUsername))
  {
    if chatType == "group" then
      if Contains(text, BotUsername) then Some(Strip(RemoveAll(text, BotUsername))) else None
    else Some(text)
  }

  /** `handle_message`: the replies sent for one message. */
  function HandleMessage(chatType: string, text: string): seq<string> {
    match Inbound(chatType, text)
    case None => []
    case Some(t) => [ReplyText(HandleResponse(t))]
  }

  /** `handle_message` as written, with the responder as written. */
  function HandleMessageAsWritten(chatType: string, text: string): seq<string> {
    match Inbound(chatType, text)
    case None => []
    case Some(t) => [ReplyText(HandleResponseAsWritten(t))]
  }

  /**
   * As written, every message the bot answers (any private message, or a
   * group message that mentions it) gets the first canned reply, and a group
   * message that does not mention it gets none.
   */
  lemma MessageAsWrittenAlwaysScolds(chatType: string, text: string)
    ensures chatType != "group" || Contains(text, BotUsername) ==>
              HandleMessageAsWritten(chatType, text) == [ReplyText(Scold)]
    ensures chatType == "group" && !Contains(text, BotUsername) ==> HandleMessageAsWritten(chatType, text) == []
  {
    match Inbound(chatType, text)
    case None =>
    case Some(t) => AsWrittenAlwaysScolds(t);
  }

  /**
   * A message gets exactly one reply unless it is a group message that does
   * not mention the bot, which gets none; the reply is the responder's for
   * the inbound text.
   */
  lemma OneReplyUnlessUnmentioned(chatType: string, text: string)
    ensures |HandleMessage(chatType, text)| <= 1
    ensures |HandleMessage(chatType, text)| == 1 <==> chatType != "group" || Contains(text, BotUsername)
    ensures chatType != "group" ==> HandleMessage(chatType, text) == [ReplyText(HandleResponse(text))]
  {
  }

  /**
   * In a group the mention is taken out before the reply is chosen: the
   * responder sees a stripped slice of the text with every occurrence
   * removed, shorter than the message by at least the username.
   */
  lemma GroupMentionRemoved(text: string)
    requires Contains(text, BotUsername)
    ensures var t := Inbound("group", text).value;
            && t == Strip(RemoveAll(text, BotUsername))
            && |t| <= |text| - |BotUsername|
            && (t != [] ==> !IsPySpace(t[0]) && !IsPySpace(t[|t| - 1]))
  {
    RemoveAllChangesIffContains(text, BotUsername);
    var removed := RemoveAll(text, BotUsername);
    var t := Strip(removed);
    var i, j :| 0 <= i <= j <= |removed| && t == removed[i..j];
  }
}
