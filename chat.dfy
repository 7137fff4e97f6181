/**
 * The chat message shape shared by both front ends: the role/content dictionaries of app.py and
 * the SystemMessage / HumanMessage / AIMessage objects of LLMMemory.py, tagged by role.
 */
module Chat {

  datatype Role = System | User | Assistant

  datatype Message = Message(role: Role, content: string)

  /** The messages a chat page draws: every message of the history except the system ones, in order. */
  function Visible(msgs: seq<Message>): seq<Message> {
    if msgs == [] then []
    else if msgs[0].role == System then Visible(msgs[1..])
    else [msgs[0]] + Visible(msgs[1..])
  }

  /** What is drawn is exactly the non-system part of the history, and never more than the history. */
  lemma {:induction false} VisibleMembers(msgs: seq<Message>)
    ensures |Visible(msgs)| <= |msgs|
    ensures forall m :: m in Visible(msgs) <==> m in msgs && m.role != System
  {
    if msgs != [] {
      VisibleMembers(msgs[1..]);
      assert forall m :: m in msgs <==> m == msgs[0] || m in msgs[1..];
    }
  }

  /** Drawing keeps the order of the history: the drawing of a concatenation is the concatenation of the drawings. */
  lemma {:induction false} VisibleAppend(a: seq<Message>, b: seq<Message>)
    ensures Visible(a + b) == Visible(a) + Visible(b)
  {
    if a == [] {
      assert a + b == b;
    } else {
      assert (a + b)[0] == a[0] && (a + b)[1..] == a[1..] + b;
      VisibleAppend(a[1..], b);
    }
  }

  /**
   * The progressive reveal of a reply: one character is added per step and every step redraws the
   * text revealed so far. The frames are the successive prefixes of the reply (app.py draws each
   * with a trailing cursor); the final text is the reply.
   */
  method Reveal(text: string) returns (shown: string, frames: seq<string>)
    ensures shown == text
    ensures |frames| == |text|
    ensures forall i :: 0 <= i < |frames| ==> frames[i] == text[..i + 1]
  {
    shown, frames := "", [];
    var i := 0;
    while i < |text|
      invariant 0 <= i <= |text|
      invariant shown == text[..i]
      invariant |frames| == i
      invariant forall j :: 0 <= j < i ==> frames[j] == text[..j + 1]
    {
      shown := shown + [text[i]];
      frames := frames + [shown];
      i := i + 1;
    }
  }
}
