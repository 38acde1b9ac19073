/** The assistant's chat widget: the message log that `sendMessage` and its
    reply timers append to. */
module ZuriChat {
  import opened Wrappers
  import opened Text
  import opened Zuri

  /** A message's `id`: 'welcome', `user-N` or `assistant-N`. */
  datatype MessageId = WelcomeId | UserId(n: nat) | AssistantId(n: nat)

  datatype Role = User | Assistant

  /** `ChatMessage`. */
  datatype ChatMessage = ChatMessage(id: MessageId, role: Role, text: string)

  /** The greeting the chat starts with. */
  const WelcomeText :=
    "Hi! I'm Zuri \U{00F0}\U{0178}\U{2018}\U{2039} \U{00E2}\U{20AC}\U{201C} your AfriBiobank AI buddy! I'll help you explore our medical imaging database and answer your questions. Don't know something? I'll tell you straight \U{00E2}\U{20AC}\U{201C} no wild guesses, under my watch! \U{00F0}\U{0178}\U{02DC}\U{201E}"

  const Welcome := ChatMessage(WelcomeId, Assistant, WelcomeText)

  /** The reply `sendMessage` computes: the quick reply's canned text when a
      key is given, otherwise `findResponse` of the text. */
  function ResponseText(mode: Mode, text: string, key: Option<QuickReply>, intro: nat): (r: string)
    requires intro < |Intros|
    ensures key.Some? ==> r == ResponseMap(key.value)
    ensures key.None? ==> r == FindResponse(mode, text, intro)
  {
    if key.Some? then ResponseMap(key.value) else FindResponse(mode, text, intro)
  }

  // ------------------------------------------------- invariant of the log

  /** The message is a reply: an assistant message numbered like a user message. */
  predicate IsReply(x: ChatMessage)
  {
    x.id.AssistantId? && x.role == Assistant
  }

  /** A user message's number is its position counted from one, the greeting
      only opens the log, and the role agrees with the id. */
  ghost predicate Numbered(m: seq<ChatMessage>)
  {
    && |m| > 0 && m[0].id == WelcomeId && m[0].role == Assistant
    && (forall i :: 0 < i < |m| ==> !m[i].id.WelcomeId?)
    && (forall i :: 0 <= i < |m| ==> (m[i].id.UserId? <==> m[i].role == User))
    && (forall i :: 0 <= i < |m| && m[i].id.UserId? ==> m[i].id.n == i + 1)
  }

  /** Number n is carried by a user message of the log m. */
  ghost predicate Asked(m: seq<ChatMessage>, n: nat)
  {
    1 <= n <= |m| && m[n - 1].id == UserId(n)
  }

  /** Every reply in r answers a user message of m. */
  ghost predicate Answering(m: seq<ChatMessage>, r: seq<ChatMessage>)
  {
    forall i :: 0 <= i < |r| && r[i].id.AssistantId? ==> Asked(m, r[i].id.n)
  }

  /** The reply numbers of s strictly increase along s. */
  ghost predicate Increasing(s: seq<ChatMessage>)
  {
    forall i, j :: 0 <= i < j < |s| && s[i].id.AssistantId? && s[j].id.AssistantId? ==> s[i].id.n < s[j].id.n
  }

  /** Every reply logged in m carries a smaller number than every pending one in q. */
  ghost predicate Before(m: seq<ChatMessage>, q: seq<ChatMessage>)
  {
    forall i, j :: 0 <= i < |m| && 0 <= j < |q| && m[i].id.AssistantId? && q[j].id.AssistantId? ==> m[i].id.n < q[j].id.n
  }

  /** The log m and the queue q of pending replies as `sendMessage` and its
      timers keep them. */
  ghost predicate WellFormedLog(m: seq<ChatMessage>, q: seq<ChatMessage>)
  {
    && Numbered(m)
    && Answering(m, m)
    && (forall i :: 0 <= i < |q| ==> IsReply(q[i]))
    && Answering(m, q)
    && Increasing(m)
    && Increasing(q)
    && Before(m, q)
  }

  /** Growing the log keeps every earlier question asked. */
  lemma AnsweringGrows(m: seq<ChatMessage>, r: seq<ChatMessage>, x: ChatMessage)
    requires Answering(m, r)
    ensures Answering(m + [x], r)
  {
    forall i | 0 <= i < |r| && r[i].id.AssistantId? ensures Asked(m + [x], r[i].id.n) {
      assert (m + [x])[r[i].id.n - 1] == m[r[i].id.n - 1];
    }
  }

  /** Every reply of r answering a question of m carries a number at most |m|. */
  lemma AnsweringBounded(m: seq<ChatMessage>, r: seq<ChatMessage>, i: nat)
    requires Answering(m, r) && i < |r| && r[i].id.AssistantId?
    ensures r[i].id.n <= |m|
  {
  }

  /** Appending a message whose number exceeds every earlier reply's keeps the numbers increasing. */
  lemma IncreasingSnoc(s: seq<ChatMessage>, x: ChatMessage)
    requires Increasing(s)
    requires x.id.AssistantId? ==> forall i :: 0 <= i < |s| && s[i].id.AssistantId? ==> s[i].id.n < x.id.n
    ensures Increasing(s + [x])
  {
    var s' := s + [x];
    forall i, j | 0 <= i < j < |s'| && s'[i].id.AssistantId? && s'[j].id.AssistantId?
      ensures s'[i].id.n < s'[j].id.n
    {
      if j < |s| {
        assert s'[i] == s[i] && s'[j] == s[j];
      } else {
        assert s'[i] == s[i] && s'[j] == x;
      }
    }
  }

  /** The user message of a send keeps the numbering. */
  lemma NumberedSend(m: seq<ChatMessage>, text: string)
    requires Numbered(m)
    ensures Numbered(m + [ChatMessage(UserId(|m| + 1), User, text)])
  {
    var m' := m + [ChatMessage(UserId(|m| + 1), User, text)];
    assert forall i :: 0 <= i < |m| ==> m'[i] == m[i];
  }

  /** The reply of a send, numbered |m| + 1, is queued after every logged or pending reply. */
  lemma BeforeSend(m: seq<ChatMessage>, q: seq<ChatMessage>, u: ChatMessage, a: ChatMessage)
    requires Before(m, q) && Answering(m, m) && !u.id.AssistantId? && a.id == AssistantId(|m| + 1)
    ensures Before(m + [u], q + [a])
  {
    var m', q' := m + [u], q + [a];
    forall i, j | 0 <= i < |m'| && 0 <= j < |q'| && m'[i].id.AssistantId? && q'[j].id.AssistantId?
      ensures m'[i].id.n < q'[j].id.n
    {
      assert i < |m| && m'[i] == m[i];
      if j < |q| {
        assert q'[j] == q[j];
      } else {
        AnsweringBounded(m, m, i);
      }
    }
  }

  /** Sending: the user message is logged under the next number and its reply
      is queued under the same number. */
  lemma SendKeepsLog(m: seq<ChatMessage>, q: seq<ChatMessage>, text: string, reply: string)
    requires WellFormedLog(m, q)
    ensures var n := |m| + 1;
      WellFormedLog(m + [ChatMessage(UserId(n), User, text)], q + [ChatMessage(AssistantId(n), Assistant, reply)])
  {
    var n := |m| + 1;
    var u, a := ChatMessage(UserId(n), User, text), ChatMessage(AssistantId(n), Assistant, reply);
    var m', q' := m + [u], q + [a];
    NumberedSend(m, text);
    AnsweringGrows(m, m, u);
    AnsweringGrows(m, q, u);
    assert Asked(m', n);
    assert Answering(m', q') by {
      assert forall i :: 0 <= i < |q| ==> q'[i] == q[i];
    }
    IncreasingSnoc(m, u);
    forall i | 0 <= i < |q| && q[i].id.AssistantId? ensures q[i].id.n < n {
      AnsweringBounded(m, q, i);
    }
    IncreasingSnoc(q, a);
    BeforeSend(m, q, u, a);
    assert forall i :: 0 <= i < |q'| ==> IsReply(q'[i]) by {
      assert forall i :: 0 <= i < |q| ==> q'[i] == q[i];
    }
  }

  /** The logged reply comes before every reply still pending. */
  lemma BeforeFire(m: seq<ChatMessage>, q: seq<ChatMessage>)
    requires Before(m, q) && Increasing(q) && |q| > 0
    ensures Before(m + [q[0]], q[1..])
  {
    var m', q' := m + [q[0]], q[1..];
    forall i, j | 0 <= i < |m'| && 0 <= j < |q'| && m'[i].id.AssistantId? && q'[j].id.AssistantId?
      ensures m'[i].id.n < q'[j].id.n
    {
      assert q'[j] == q[j + 1];
      if i < |m| {
        assert m'[i] == m[i];
      } else {
        assert m'[i] == q[0];
      }
    }
  }

  /** The oldest pending reply's timer: the reply moves from the queue to the log. */
  lemma FireKeepsLog(m: seq<ChatMessage>, q: seq<ChatMessage>)
    requires WellFormedLog(m, q) && |q| > 0
    ensures WellFormedLog(m + [q[0]], q[1..])
  {
    var m', q' := m + [q[0]], q[1..];
    assert Numbered(m') by {
      assert forall i :: 0 <= i < |m| ==> m'[i] == m[i];
    }
    AnsweringGrows(m, m, q[0]);
    AnsweringGrows(m, q, q[0]);
    assert Answering(m', m') by {
      assert forall i :: 0 <= i < |m| ==> m'[i] == m[i];
    }
    assert Answering(m', q') by {
      assert forall i :: 0 <= i < |q'| ==> q'[i] == q[i + 1];
    }
    IncreasingSnoc(m, q[0]);
    assert Increasing(q') by {
      assert forall i :: 0 <= i < |q'| ==> q'[i] == q[i + 1];
    }
    BeforeFire(m, q);
  }

  /** No two messages of the log share an id. */
  lemma IdsDistinct(m: seq<ChatMessage>, q: seq<ChatMessage>, i: nat, j: nat)
    requires WellFormedLog(m, q) && i < j < |m|
    ensures m[i].id != m[j].id
  {
  }

  /** The assistant's chat state: the message log, the input box, the typing
      indicator and the replies whose 700 ms timers have not yet fired, in the
      order they were scheduled (equal delays fire in that order). */
  class ChatSession {
    /** How knowledge-base keywords are matched. */
    const mode: Mode
    var messages: seq<ChatMessage>
    var input: string
    var isTyping: bool
    var scheduled: seq<ChatMessage>

    /** The log is well formed and the typing indicator is only on while a
        reply is pending. */
    ghost predicate Valid()
      reads this
    {
      WellFormedLog(messages, scheduled) && (isTyping ==> |scheduled| > 0)
    }

    constructor (mode: Mode)
      ensures Valid()
      ensures this.mode == mode && messages == [Welcome] && input == "" && !isTyping && scheduled == []
    {
      this.mode := mode;
      messages := [Welcome];
      input := "";
      isTyping := false;
      scheduled := [];
    }

    /** Typing in the input box. */
    method SetInput(value: string)
      requires Valid()
      modifies this`input
      ensures Valid() && input == value
    {
      input := value;
    }

    /** `sendMessage`: white-space-only text is ignored; otherwise the user
        message is logged under the next number, the input is cleared, the
        typing indicator comes on and the reply is scheduled under the same
        number. The opener of a knowledge reply is chosen by `intro`. */
    method SendMessage(text: string, key: Option<QuickReply>, intro: nat)
      requires Valid() && intro < |Intros|
      modifies this`messages, this`input, this`isTyping, this`scheduled
      ensures Valid()
      ensures Blank(text) ==> unchanged(this)
      ensures !Blank(text) ==>
        var n := |old(messages)| + 1;
        && messages == old(messages) + [ChatMessage(UserId(n), User, text)]
        && input == "" && isTyping
        && scheduled == old(scheduled) + [ChatMessage(AssistantId(n), Assistant, ResponseText(mode, text, key, intro))]
    {
      TrimEmptyIff(text);
      if Trim(text) == "" {
        return;
      }
      var reply := ResponseText(mode, text, key, intro);
      Post(text, reply);
    }

    /** The state change of a send: the user message logged under the next
        number, the input cleared, the typing indicator on, the reply queued. */
    method Post(text: string, reply: string)
      requires Valid()
      modifies this`messages, this`input, this`isTyping, this`scheduled
      ensures Valid()
      ensures var n := |old(messages)| + 1;
        && messages == old(messages) + [ChatMessage(UserId(n), User, text)]
        && input == "" && isTyping
        && scheduled == old(scheduled) + [ChatMessage(AssistantId(n), Assistant, reply)]
    {
      var n := |messages| + 1;
      SendKeepsLog(messages, scheduled, text, reply);
      messages := messages + [ChatMessage(UserId(n), User, text)];
      input := "";
      isTyping := true;
      scheduled := scheduled + [ChatMessage(AssistantId(n), Assistant, reply)];
    }

    /** The oldest pending reply's timer fires: the reply is logged and the
        typing indicator goes off, even if later replies are still pending. */
    method ReplyTimerFires()
      requires Valid() && |scheduled| > 0
      modifies this`messages, this`isTyping, this`scheduled
      ensures Valid()
      ensures messages == old(messages) + [old(scheduled)[0]]
      ensures scheduled == old(scheduled)[1..] && !isTyping
    {
      FireKeepsLog(messages, scheduled);
      messages := messages + [scheduled[0]];
      scheduled := scheduled[1..];
      isTyping := false;
    }
  }
}
