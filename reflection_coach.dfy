/**
 * The Reflection Coach page: a chat in which every non-blank reflection the user sends is
 * answered at once by one of five canned coach replies, picked at random. The conversation
 * opens with the coach's greeting.
 */
module ReflectionCoach {
  import opened Js

  datatype Sender = User | Coach

  /** One chat entry; `timestamp` is the clock reading in milliseconds. */
  datatype Message = Message(sender: Sender, message: string, timestamp: int)

  const Greeting := "Hello beautiful soul \U{2728} I'm here to listen without judgment and help you explore your thoughts and feelings. What's on your heart today?"

  /** The pool the coach's replies are drawn from. */
  const CoachResponses: seq<string> := [
    "I hear you, and thank you for sharing something so personal with me. It takes courage to be vulnerable. What feelings are coming up for you as you reflect on this?",
    "Your awareness of this pattern shows such beautiful growth. How do you think this insight might guide you moving forward?",
    "I can feel the love you have for yourself in these words. What would you say to a dear friend who shared this same experience with you?",
    "This reflection shows how much you're evolving. What part of this feels most important for you to sit with right now?",
    "Your honesty is so refreshing. How does it feel in your body when you think about this situation?"
  ]

  /** The "Gentle Prompts" sidebar. */
  const Prompts: seq<string> := [
    "How am I feeling about my relationships right now?",
    "What patterns do I notice in my dating life?",
    "What boundaries do I need to honor today?",
    "What would self-love look like for me right now?",
    "What is my intuition telling me about this situation?"
  ]

  /** The shape every conversation keeps: the greeting first, then user reflections, none of
      them blank, each followed by a coach reply from the pool. */
  predicate WellFormedHistory(h: seq<Message>) {
    && |h| % 2 == 1
    && h[0].sender == Coach && h[0].message == Greeting
    && forall i | 1 <= i < |h| ::
         if i % 2 == 1 then h[i].sender == User && Trim(h[i].message) != ""
         else h[i].sender == Coach && h[i].message in CoachResponses
  }

  /** One send: the reflection as typed (not trimmed) and then the coach's reply. */
  function Exchange(h: seq<Message>, text: string, reply: string, userTime: int, coachTime: int): (r: seq<Message>)
    ensures |r| == |h| + 2 && r[..|h|] == h
    ensures r[|h|] == Message(User, text, userTime) && r[|h| + 1] == Message(Coach, reply, coachTime)
  {
    h + [Message(User, text, userTime), Message(Coach, reply, coachTime)]
  }

  /** Sending a non-blank reflection answered from the pool keeps the conversation well formed. */
  lemma ExchangeKeepsShape(h: seq<Message>, text: string, pick: nat, userTime: int, coachTime: int)
    requires WellFormedHistory(h) && Trim(text) != "" && pick < |CoachResponses|
    ensures WellFormedHistory(Exchange(h, text, CoachResponses[pick], userTime, coachTime))
  {
    var r := Exchange(h, text, CoachResponses[pick], userTime, coachTime);
    forall i | 1 <= i < |r|
      ensures if i % 2 == 1 then r[i].sender == User && Trim(r[i].message) != ""
              else r[i].sender == Coach && r[i].message in CoachResponses
    {
      if i < |h| {
        assert r[i] == h[i];
      }
    }
  }

  /** In a well-formed conversation every reflection has been answered by the coach. */
  lemma EveryReflectionAnswered(h: seq<Message>, i: nat)
    requires WellFormedHistory(h) && i < |h| && h[i].sender == User
    ensures i + 1 < |h| && h[i + 1].sender == Coach && h[i + 1].message in CoachResponses
  {
  }

  /** Every sidebar prompt is a reflection the user can send as it is (each ends in '?'). */
  lemma PromptsAreSendable()
    ensures forall k | 0 <= k < |Prompts| :: Trim(Prompts[k]) != ""
  {
    forall k | 0 <= k < |Prompts|
      ensures Trim(Prompts[k]) != ""
    {
      var p := Prompts[k];
      assert p[|p| - 1] == '?';
    }
  }

  class Chat {
    var reflectionText: string
    var isVoiceRecording: bool
    var conversationHistory: seq<Message>

    ghost predicate Valid()
      reads this
    {
      WellFormedHistory(conversationHistory)
    }

    /** The page as first shown: an empty box, no recording, only the greeting (at `now`). */
    constructor (now: int)
      ensures Valid()
      ensures reflectionText == "" && !isVoiceRecording && conversationHistory == [Message(Coach, Greeting, now)]
    {
      reflectionText, isVoiceRecording := "", false;
      conversationHistory := [Message(Coach, Greeting, now)];
    }

    /** Typing in the reflection box. */
    method EditReflection(text: string)
      modifies this`reflectionText
      ensures reflectionText == text
    {
      reflectionText := text;
    }

    /** `handleSendReflection`: with a non-blank reflection, append it (untrimmed) and the pool
        reply `pick` (the random draw), then empty the box; with a blank one nothing changes.
        `userTime` and `coachTime` are the two clock readings. */
    method SendReflection(pick: nat, userTime: int, coachTime: int)
      requires Valid() && pick < |CoachResponses|
      modifies this`reflectionText, this`conversationHistory
      ensures Valid()
      ensures Trim(old(reflectionText)) != "" ==>
        && conversationHistory ==
             Exchange(old(conversationHistory), old(reflectionText), CoachResponses[pick], userTime, coachTime)
        && reflectionText == ""
      ensures Trim(old(reflectionText)) == "" ==>
        conversationHistory == old(conversationHistory) && reflectionText == old(reflectionText)
    {
      if Trim(reflectionText) == "" {
        return;
      }
      ExchangeKeepsShape(conversationHistory, reflectionText, pick, userTime, coachTime);
      conversationHistory :=
        Exchange(conversationHistory, reflectionText, CoachResponses[pick], userTime, coachTime);
      reflectionText := "";
    }

    /** `handleKeyPress`: Enter without Shift sends (and suppresses the newline); any other key
        is left to the text box. */
    method KeyPress(key: string, shiftKey: bool, pick: nat, userTime: int, coachTime: int)
      returns (preventDefault: bool)
      requires Valid() && pick < |CoachResponses|
      modifies this`reflectionText, this`conversationHistory
      ensures Valid()
      ensures preventDefault <==> key == "Enter" && !shiftKey
      ensures preventDefault && Trim(old(reflectionText)) != "" ==>
        && conversationHistory ==
             Exchange(old(conversationHistory), old(reflectionText), CoachResponses[pick], userTime, coachTime)
        && reflectionText == ""
      ensures !preventDefault || Trim(old(reflectionText)) == "" ==>
        conversationHistory == old(conversationHistory) && reflectionText == old(reflectionText)
    {
      preventDefault := key == "Enter" && !shiftKey;
      if preventDefault {
        SendReflection(pick, userTime, coachTime);
      }
    }

    /** Clicking sidebar prompt `k`: the box now holds that prompt. */
    method UsePrompt(k: nat)
      requires k < |Prompts|
      modifies this`reflectionText
      ensures reflectionText == Prompts[k]
    {
      reflectionText := Prompts[k];
    }

    /** "Voice Note" / "Stop Recording": flip the recording flag; nothing is recorded. */
    method ToggleVoice()
      modifies this`isVoiceRecording
      ensures isVoiceRecording == !old(isVoiceRecording)
    {
      isVoiceRecording := !isVoiceRecording;
    }
  }

  /** Clicking a prompt and pressing Enter sends the prompt and a reply after the greeting. */
  method SendPrompt(k: nat, pick: nat) returns (history: seq<Message>)
    requires k < |Prompts| && pick < |CoachResponses|
    ensures history == [Message(Coach, Greeting, 0), Message(User, Prompts[k], 1), Message(Coach, CoachResponses[pick], 2)]
  {
    var chat := new Chat(0);
    chat.UsePrompt(k);
    PromptsAreSendable();
    var prevented := chat.KeyPress("Enter", false, pick, 1, 2);
    history := chat.conversationHistory;
  }
}
