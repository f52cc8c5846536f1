/** `formatTime` of the consultation room: the `MM:SS` meeting clock. */
module MeetingClock {
  import opened JsText

  /** `n.toString().padStart(2, '0')`. */
  function Pad2(n: nat): (r: string)
    ensures AllDigits(r) && ParseNat(r) == n
    ensures |r| >= 2 && (|r| == 2 <==> n < 100)
  {
    PaddedReadsBack(n, 2);
    NatToStringLength(n);
    PadStart(NatToString(n), 2, '0')
  }

  /** A zero-padded decimal reads back as the number it was made from. */
  lemma PaddedReadsBack(n: nat, width: nat)
    ensures AllDigits(PadStart(NatToString(n), width, '0'))
    ensures ParseNat(PadStart(NatToString(n), width, '0')) == n
  {
    var s := NatToString(n);
    var p := PadStart(s, width, '0');
    var z := p[..|p| - |s|];
    assert p == z + s;
    ParseNatLeadingZeros(z, s);
    ParseNatToString(n);
  }

  /** The text before the colon of a clock display. */
  function MinutesField(t: string): string
    requires |t| >= 3
  {
    t[..|t| - 3]
  }

  /** The two characters after the colon of a clock display. */
  function SecondsField(t: string): string
    requires |t| >= 3
  {
    t[|t| - 2..]
  }

  /** The fields of a colon-joined pair with a two-character right field. */
  lemma ColonSplit(a: string, b: string)
    requires |b| == 2
    ensures var r := a + ":" + b;
      && |r| == |a| + 3 && r[|r| - 3] == ':' && MinutesField(r) == a && SecondsField(r) == b
  {
    var r := a + ":" + b;
    assert r[..|r| - 3] == a;
    assert r[|r| - 2..] == b;
  }

  /** `formatTime`: whole minutes, a colon, then the remaining seconds; both
      numbers are left-padded with '0' to two digits. */
  function FormatTime(seconds: nat): (r: string)
    ensures |r| >= 5 && r[|r| - 3] == ':'
    ensures AllDigits(MinutesField(r)) && ParseNat(MinutesField(r)) == seconds / 60
    ensures AllDigits(SecondsField(r)) && ParseNat(SecondsField(r)) == seconds % 60
    ensures |r| == 5 <==> seconds < 6000
  {
    var a := Pad2(seconds / 60);
    var b := Pad2(seconds % 60);
    ColonSplit(a, b);
    a + ":" + b
  }

  /** The shape of a clock display: digits, a colon, two digits below 60. */
  predicate IsClock(t: string) {
    && |t| >= 5 && t[|t| - 3] == ':'
    && AllDigits(MinutesField(t)) && AllDigits(SecondsField(t))
    && ParseNat(SecondsField(t)) < 60
  }

  /** Reads a clock display back into a number of seconds. */
  function ParseTime(t: string): nat
    requires IsClock(t)
  {
    60 * ParseNat(MinutesField(t)) + ParseNat(SecondsField(t))
  }

  /** Every display is a well-formed clock whose tens-of-seconds digit is at
      most 5, and `ParseTime` inverts `FormatTime`: minutes times 60 plus
      seconds is the duration. */
  lemma FormatTimeReadsBack(seconds: nat)
    ensures IsClock(FormatTime(seconds))
    ensures '0' <= SecondsField(FormatTime(seconds))[0] <= '5'
    ensures ParseTime(FormatTime(seconds)) == seconds
  {
    TwoDigits(SecondsField(FormatTime(seconds)));
  }

  /** The value of a two-digit string. */
  lemma TwoDigits(b: string)
    requires |b| == 2 && AllDigits(b)
    ensures ParseNat(b) == 10 * (b[0] as int - '0' as int) + (b[1] as int - '0' as int)
  {
    var c := b[..1];
    assert ParseNat(b) == 10 * ParseNat(c) + (b[1] as int - '0' as int);
    assert c[..0] == [];
    assert ParseNat(c) == c[0] as int - '0' as int;
  }

  /** Different durations never show the same clock. */
  lemma FormatTimeInjective(s1: nat, s2: nat)
    ensures FormatTime(s1) == FormatTime(s2) ==> s1 == s2
  {
    FormatTimeReadsBack(s1);
    FormatTimeReadsBack(s2);
  }

  /** After 61 seconds the clock shows `01:01`; after 100 minutes the
      minutes field grows to three digits. */
  lemma OneMinuteOneSecond()
    ensures FormatTime(61) == "01:01"
  {
    assert NatToString(1) == "1";
    assert Pad2(1) == "01";
  }

  lemma HundredMinutes()
    ensures FormatTime(6000) == "100:00"
  {
    assert 6000 / 60 == 100 && 6000 % 60 == 0;
    assert FormatTime(6000) == Pad2(100) + ":" + Pad2(0);
    assert NatToString(0) == "0";
    assert Pad2(0) == "00";
    assert NatToString(10) == "10";
    assert NatToString(100) == NatToString(10) + "0";
    assert Pad2(100) == NatToString(100);
  }

}

/** The consultation room's state: the chat list with its send operation,
    the three control toggles and the one-second tick. */
module Meeting {
  import opened JsText


  /** One chat entry. `time` is the locale time string shown under it. */
  datatype Message = Message(id: nat, sender: string, message: string, time: string, isConsultant: bool)

  const ConsultantName: string := "Dr. Sarah Mitchell"
  const UserName: string := "You"

  function WelcomeText(): string {
    "Welcome to our " + "consultation! I've reviewed " + "your AI-generated " + "recommendations."
  }

  function AgendaText(): string {
    "Let's discuss your top " + "course matches and answer " + "any questions you have."
  }

  /** The two greetings the room opens with. */
  function InitialMessages(): seq<Message> {
    [Message(1, ConsultantName, WelcomeText(), "2:01 PM", true),
     Message(2, ConsultantName, AgendaText(), "2:01 PM", true)]
  }

  /** Ids run 1, 2, ..., n in list order. */
  predicate Numbered(msgs: seq<Message>) {
    forall i :: 0 <= i < |msgs| ==> msgs[i].id == i + 1
  }

  /** The list after `handleSendMessage` with input `text`, sent at `time`. */
  function Send(msgs: seq<Message>, text: string, time: string): (r: seq<Message>)
    ensures AllWhitespace(text) ==> r == msgs
    ensures !AllWhitespace(text) ==>
      && |r| == |msgs| + 1 && r[..|msgs|] == msgs
      && r[|msgs|] == Message(|msgs| + 1, UserName, text, time, false)
  {
    TrimEmpty(text);
    if Trim(text) != "" then msgs + [Message(|msgs| + 1, UserName, text, time, false)] else msgs
  }

  lemma InitialNumbered()
    ensures Numbered(InitialMessages())
  {
  }

  /** Sending keeps the ids consecutive. */
  lemma SendKeepsNumbered(msgs: seq<Message>, text: string, time: string)
    requires Numbered(msgs)
    ensures Numbered(Send(msgs, text, time))
  {
    var r := Send(msgs, text, time);
    if !AllWhitespace(text) {
      forall i | 0 <= i < |r|
        ensures r[i].id == i + 1
      {
        if i < |msgs| {
          assert r[i] == r[..|msgs|][i];
        }
      }
    }
  }

  /** Consecutive ids are distinct, so they are usable as list keys. */
  lemma NumberedIdsDistinct(msgs: seq<Message>, i: nat, j: nat)
    requires Numbered(msgs)
    requires i < |msgs| && j < |msgs|
    ensures msgs[i].id == msgs[j].id <==> i == j
  {
  }

  /** A run of sends, one input each, all at the same shown time. */
  function SendAll(msgs: seq<Message>, inputs: seq<string>, time: string): seq<Message>
    decreases |inputs|
  {
    if inputs == [] then msgs else SendAll(Send(msgs, inputs[0], time), inputs[1..], time)
  }

  /** The number of inputs that are not whitespace only. */
  function NonBlank(inputs: seq<string>): nat {
    if inputs == [] then 0 else (if AllWhitespace(inputs[0]) then 0 else 1) + NonBlank(inputs[1..])
  }

  /** Every non-blank input adds exactly one message, the earlier messages
      stay in place, and the ids stay consecutive. */
  lemma {:induction false} SendAllGrows(msgs: seq<Message>, inputs: seq<string>, time: string)
    requires Numbered(msgs)
    ensures var r := SendAll(msgs, inputs, time);
      && |r| == |msgs| + NonBlank(inputs)
      && msgs <= r
      && Numbered(r)
    decreases |inputs|
  {
    if inputs != [] {
      var m := Send(msgs, inputs[0], time);
      SendKeepsNumbered(msgs, inputs[0], time);
      SendAllGrows(m, inputs[1..], time);
      assert msgs <= m;
    }
  }

  // ---------------------------------------------------------------------------
  // The room's state
  // ---------------------------------------------------------------------------

  class MeetingRoom {
    var isVideoOn: bool
    var isAudioOn: bool
    var showChat: bool
    var chatMessage: string
    var chatMessages: seq<Message>
    var meetingDuration: nat
    /** The list the room opened with. */
    ghost const greetings: seq<Message>

    /** The greetings stay first and the ids stay consecutive. */
    ghost predicate Valid()
      reads this
    {
      greetings <= chatMessages && Numbered(chatMessages)
    }

    constructor()
      ensures Valid() && greetings == InitialMessages()
      ensures isVideoOn && isAudioOn && !showChat
      ensures chatMessage == "" && chatMessages == InitialMessages() && meetingDuration == 0
    {
      isVideoOn, isAudioOn, showChat := true, true, false;
      chatMessage := "";
      chatMessages := InitialMessages();
      greetings := InitialMessages();
      meetingDuration := 0;
    }

    /** One firing of the one-second interval. */
    method Tick()
      requires Valid()
      modifies this
      ensures Valid()
      ensures meetingDuration == old(meetingDuration) + 1
      ensures isVideoOn == old(isVideoOn) && isAudioOn == old(isAudioOn) && showChat == old(showChat)
      ensures chatMessage == old(chatMessage) && chatMessages == old(chatMessages)
    {
      meetingDuration := meetingDuration + 1;
    }

    /** The microphone button. */
    method ToggleAudio()
      requires Valid()
      modifies this
      ensures Valid()
      ensures isAudioOn == !old(isAudioOn)
      ensures isVideoOn == old(isVideoOn) && showChat == old(showChat) && meetingDuration == old(meetingDuration)
      ensures chatMessage == old(chatMessage) && chatMessages == old(chatMessages)
    {
      isAudioOn := !isAudioOn;
    }

    /** The camera button. */
    method ToggleVideo()
      requires Valid()
      modifies this
      ensures Valid()
      ensures isVideoOn == !old(isVideoOn)
      ensures isAudioOn == old(isAudioOn) && showChat == old(showChat) && meetingDuration == old(meetingDuration)
      ensures chatMessage == old(chatMessage) && chatMessages == old(chatMessages)
    {
      isVideoOn := !isVideoOn;
    }

    /** The chat button. */
    method ToggleChat()
      requires Valid()
      modifies this
      ensures Valid()
      ensures showChat == !old(showChat)
      ensures isVideoOn == old(isVideoOn) && isAudioOn == old(isAudioOn) && meetingDuration == old(meetingDuration)
      ensures chatMessage == old(chatMessage) && chatMessages == old(chatMessages)
    {
      showChat := !showChat;
    }

    /** The input's `onChange`. */
    method Edit(value: string)
      requires Valid()
      modifies this
      ensures Valid()
      ensures chatMessage == value && chatMessages == old(chatMessages)
      ensures isVideoOn == old(isVideoOn) && isAudioOn == old(isAudioOn) && showChat == old(showChat)
      ensures meetingDuration == old(meetingDuration)
    {
      chatMessage := value;
    }

    /** `handleSendMessage`, with `now` standing for the locale time string
        of the moment it runs. A whitespace-only input changes nothing;
        otherwise the untrimmed input is appended as the user's message with
        the next id, and the input is cleared. */
    method HandleSendMessage(now: string)
      requires Valid()
      modifies this
      ensures Valid()
      ensures chatMessages == Send(old(chatMessages), old(chatMessage), now)
      ensures chatMessage == if AllWhitespace(old(chatMessage)) then old(chatMessage) else ""
      ensures isVideoOn == old(isVideoOn) && isAudioOn == old(isAudioOn) && showChat == old(showChat)
      ensures meetingDuration == old(meetingDuration)
    {
      TrimEmpty(chatMessage);
      SendKeepsNumbered(chatMessages, chatMessage, now);
      if Trim(chatMessage) != "" {
        var newMessage := Message(|chatMessages| + 1, UserName, chatMessage, now, false);
        chatMessages := chatMessages + [newMessage];
        chatMessage := "";
      }
    }

    /** A key press in the input: Enter sends, any other key does nothing. */
    method KeyPress(enter: bool, now: string)
      requires Valid()
      modifies this
      ensures Valid()
      ensures !enter ==> unchanged(this)
      ensures enter ==>
        && chatMessages == Send(old(chatMessages), old(chatMessage), now)
        && chatMessage == (if AllWhitespace(old(chatMessage)) then old(chatMessage) else "")
        && isVideoOn == old(isVideoOn) && isAudioOn == old(isAudioOn) && showChat == old(showChat)
        && meetingDuration == old(meetingDuration)
    {
      if enter {
        HandleSendMessage(now);
      }
    }
  }
}
