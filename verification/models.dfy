/**
 * The display strings of the chat models: the user, the conversation and the
 * message, each a value holding only the fields its string uses.
 */
module ChatModels {

  datatype User = User(firstName: string, lastName: string, email: string)

  /** A conversation; `conversationId` is the UUID in its printed form, `participants` in query order. */
  datatype Conversation = Conversation(conversationId: string, participants: seq<User>)

  datatype Message = Message(sender: User, conversation: Conversation, messageBody: string)

  /** `t` occurs somewhere in `s` as a contiguous piece. */
  predicate Contains(s: string, t: string) {
    exists i :: 0 <= i <= |s| && t <= s[i..]
  }

  /** `User.__str__`: first name, a space, last name, then the email in parentheses. */
  function UserStr(u: User): (r: string)
    ensures |r| == |u.firstName| + |u.lastName| + |u.email| + 4
    ensures r[..|u.firstName|] == u.firstName && r[|u.firstName|] == ' '
    ensures r[|u.firstName| + 1..|u.firstName| + 1 + |u.lastName|] == u.lastName
    ensures r[|u.firstName| + 1 + |u.lastName|..|r| - 1 - |u.email|] == " ("
    ensures r[|r| - 1 - |u.email|..|r| - 1] == u.email && r[|r| - 1] == ')'
  {
    u.firstName + " " + u.lastName + " (" + u.email + ")"
  }

  /** A participant as `Conversation.__str__` names them: first name, a space, last name. */
  function FullName(u: User): string {
    u.firstName + " " + u.lastName
  }

  /** Python's `sep.join(parts)`. */
  function Join(sep: string, parts: seq<string>): string {
    if parts == [] then ""
    else if |parts| == 1 then parts[0]
    else parts[0] + sep + Join(sep, parts[1..])
  }

  const ConversationPrefix: string := "Conversation: "

  /**
   * `Conversation.__str__`: the prefix, then the names of at most the first
   * two participants, in order, separated by ", ".
   */
  function ConversationStr(c: Conversation): (r: string)
    ensures ConversationPrefix <= r
    ensures |c.participants| == 0 ==> r == ConversationPrefix
    ensures |c.participants| == 1 ==> r == ConversationPrefix + FullName(c.participants[0])
    ensures |c.participants| >= 2 ==>
              r == ConversationPrefix + FullName(c.participants[0]) + ", " + FullName(c.participants[1])
  {
    var shown := c.participants[..if |c.participants| < 2 then |c.participants| else 2];
    var names := seq(|shown|, i requires 0 <= i < |shown| => FullName(shown[i]));
    assert |shown| == 2 ==> names == [FullName(c.participants[0]), FullName(c.participants[1])];
    assert |shown| == 2 ==> names[1..] == [names[1]] && Join(", ", names[1..]) == names[1];
    assert |shown| == 2 ==> Join(", ", names) == names[0] + ", " + names[1];
    ConversationPrefix + Join(", ", names)
  }

  /** Participants after the second never change a conversation's display string. */
  lemma ConversationStrShowsFirstTwo(id: string, participants: seq<User>, extra: seq<User>)
    requires |participants| >= 2
    ensures ConversationStr(Conversation(id, participants + extra)) == ConversationStr(Conversation(id, participants[..2]))
  {
  }

  /**
   * `Message.__str__`: "Message from ", the sender's first name, " in ",
   * then the conversation's id; so it names both.
   */
  function MessageStr(m: Message): (r: string)
    ensures |r| == 17 + |m.sender.firstName| + |m.conversation.conversationId|
    ensures r[..13] == "Message from "
    ensures r[13..13 + |m.sender.firstName|] == m.sender.firstName
    ensures r[13 + |m.sender.firstName|..17 + |m.sender.firstName|] == " in "
    ensures r[17 + |m.sender.firstName|..] == m.conversation.conversationId
    ensures Contains(r, m.sender.firstName) && Contains(r, m.conversation.conversationId)
  {
    var r := "Message from " + m.sender.firstName + " in " + m.conversation.conversationId;
    assert m.sender.firstName <= r[13..];
    assert r[|r| - |m.conversation.conversationId|..] == m.conversation.conversationId;
    r
  }
}
