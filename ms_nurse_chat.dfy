/** The Ms. Nurse chat page: an append-only log of user messages, each
    followed by exactly one AI entry. */
module MsNurseChat {
  import opened Js
  import opened Text

  datatype Sender = User | Ai

  datatype ChatEntry = ChatEntry(sender: Sender, text: string)

  /** How the chat request settles: a JSON body whose `reply` may be
      missing, or a failure of the request or of reading its body. */
  datatype ChatReply = Reply(reply: JsString) | ConnectionError

  const NoResponseText := "Sorry, no response from AI."
  const ConnectionErrorText := "Error connecting to server."

  /** The AI entry's text for a settled request. */
  function AiText(reply: ChatReply): (t: string)
    ensures reply.Reply? && Truthy(reply.reply) ==> t == reply.reply.s
    ensures reply.Reply? && !Truthy(reply.reply) ==> t == NoResponseText
    ensures reply.ConnectionError? ==> t == ConnectionErrorText
  {
    match reply
    case Reply(r) => if Truthy(r) then r.s else NoResponseText
    case ConnectionError => ConnectionErrorText
  }

  /** The log after `sendMessage` with input `message` has settled. */
  function AfterSend(log: seq<ChatEntry>, message: string, reply: ChatReply): seq<ChatEntry> {
    if IsBlank(message) then log
    else log + [ChatEntry(User, message), ChatEntry(Ai, AiText(reply))]
  }

  /** A log made of (user, ai) pairs, as every sequence of sends builds it. */
  predicate WellFormedLog(log: seq<ChatEntry>)
    decreases |log|
  {
    log == []
    || (|log| >= 2 && log[0].sender == User && log[1].sender == Ai && WellFormedLog(log[2..]))
  }

  /** Appending one (user, ai) pair to a well-formed log keeps it well formed. */
  lemma {:induction false} AppendPairKeepsPairs(log: seq<ChatEntry>, u: ChatEntry, a: ChatEntry)
    requires WellFormedLog(log)
    requires u.sender == User && a.sender == Ai
    ensures WellFormedLog(log + [u, a])
    decreases |log|
  {
    if log == [] {
      assert [u, a][2..] == [];
    } else {
      AppendPairKeepsPairs(log[2..], u, a);
      assert (log + [u, a])[2..] == log[2..] + [u, a];
    }
  }

  /** A send keeps every earlier entry, appends nothing for a blank message
      and otherwise the untrimmed user entry followed by one AI entry. */
  lemma SendAppendsOnly(log: seq<ChatEntry>, message: string, reply: ChatReply)
    ensures log <= AfterSend(log, message, reply)
    ensures IsBlank(message) ==> AfterSend(log, message, reply) == log
    ensures !IsBlank(message) ==>
      AfterSend(log, message, reply)[|log|..] == [ChatEntry(User, message), ChatEntry(Ai, AiText(reply))]
  {
  }

  /** Sends keep the log a sequence of (user, ai) pairs. */
  lemma {:induction false} SendKeepsPairs(log: seq<ChatEntry>, message: string, reply: ChatReply)
    requires WellFormedLog(log)
    ensures WellFormedLog(AfterSend(log, message, reply))
  {
    if !IsBlank(message) {
      AppendPairKeepsPairs(log, ChatEntry(User, message), ChatEntry(Ai, AiText(reply)));
    }
  }

  /** The log after a whole series of sends, one reply per message. */
  function AfterSends(log: seq<ChatEntry>, messages: seq<string>, replies: seq<ChatReply>): seq<ChatEntry>
    requires |messages| == |replies|
    decreases |messages|
  {
    if messages == [] then log
    else AfterSends(AfterSend(log, messages[0], replies[0]), messages[1..], replies[1..])
  }

  /** Any series of sends leaves the log a sequence of (user, ai) pairs. */
  lemma {:induction false} SendsKeepPairs(log: seq<ChatEntry>, messages: seq<string>, replies: seq<ChatReply>)
    requires |messages| == |replies|
    requires WellFormedLog(log)
    ensures WellFormedLog(AfterSends(log, messages, replies))
    decreases |messages|
  {
    if messages != [] {
      SendKeepsPairs(log, messages[0], replies[0]);
      SendsKeepPairs(AfterSend(log, messages[0], replies[0]), messages[1..], replies[1..]);
    }
  }

  /** Any series of sends keeps every entry the log already had. */
  lemma {:induction false} SendsKeepEntries(log: seq<ChatEntry>, messages: seq<string>, replies: seq<ChatReply>)
    requires |messages| == |replies|
    ensures |log| <= |AfterSends(log, messages, replies)|
    ensures AfterSends(log, messages, replies)[..|log|] == log
    decreases |messages|
  {
    if messages != [] {
      var next := AfterSend(log, messages[0], replies[0]);
      var last := AfterSends(next, messages[1..], replies[1..]);
      SendsKeepEntries(next, messages[1..], replies[1..]);
      assert |log| <= |next| && next[..|log|] == log;
      assert last[..|log|] == last[..|next|][..|log|];
    }
  }

  /** The placeholder shows only while the log is empty. */
  function ShowsPlaceholder(log: seq<ChatEntry>): (b: bool)
    ensures b <==> log == []
  {
    |log| == 0
  }

  class NurseChat {
    var message: string
    var chatLog: seq<ChatEntry>
    /** The `message` bodies posted to the chat endpoint, in order. */
    var sentBodies: seq<string>

    constructor ()
      ensures message == "" && chatLog == [] && sentBodies == []
    {
      message, chatLog, sentBodies := "", [], [];
    }

    /** The textarea's `onChange`. */
    method SetMessage(text: string)
      modifies this`message
      ensures message == text
    {
      message := text;
    }

    /** `sendMessage`, with the request's outcome given as `reply`. */
    method SendMessage(reply: ChatReply)
      modifies this
      ensures chatLog == AfterSend(old(chatLog), old(message), reply)
      ensures IsBlank(old(message)) ==> message == old(message) && sentBodies == old(sentBodies)
      ensures !IsBlank(old(message)) ==> message == "" && sentBodies == old(sentBodies) + [old(message)]
    {
      if IsBlank(message) {
        return;
      }
      var sent := message;
      chatLog := chatLog + [ChatEntry(User, sent)];
      message := "";
      sentBodies := sentBodies + [sent];
      chatLog := chatLog + [ChatEntry(Ai, AiText(reply))];
    }

    /** `handleKeyDown`: Enter sends and prevents the newline; any other key
        does nothing. */
    method HandleKeyDown(key: string, reply: ChatReply) returns (prevented: bool)
      modifies this
      ensures prevented <==> key == "Enter"
      ensures key == "Enter" ==> chatLog == AfterSend(old(chatLog), old(message), reply)
      ensures key == "Enter" && IsBlank(old(message)) ==>
        message == old(message) && sentBodies == old(sentBodies)
      ensures key == "Enter" && !IsBlank(old(message)) ==>
        message == "" && sentBodies == old(sentBodies) + [old(message)]
      ensures key != "Enter" ==>
        chatLog == old(chatLog) && message == old(message) && sentBodies == old(sentBodies)
    {
      prevented := key == "Enter";
      if prevented {
        SendMessage(reply);
      }
    }
  }
}
