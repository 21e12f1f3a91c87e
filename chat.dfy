/**
 * The conversation controller of screens/ChatScreen.tsx.
 *
 * The screen holds a transcript `messages`, the pending `inputText` and a
 * busy flag `isLoading`. Each handler is split at its one `await` on the
 * AI gateway into a begin half (what runs before the await: append the
 * user's message, set the flag, send the prompt) and a completion half
 * (what runs when that await settles). The requests that are awaited and
 * not yet settled are `inFlight`; a completion names the one that settles.
 *
 * The pure functions below give each half's meaning; the class ChatScreen
 * holds the state and updates it in place.
 */
module Chat {
  import opened Wrappers
  import opened Profile
  import opened ImagePicker
  import opened JsText
  import opened ChatPrompts

  datatype Sender = User | Dog

  /** A transcript entry. The source's clock-based `id` is not modelled. */
  datatype Message = Message(text: string, sender: Sender, image: Option<string>)

  /** How a gateway call settles: with the generated text, or rejected. */
  datatype Reply = Replied(text: string) | Failed

  /** Who awaits a gateway call: the mount effect, which does nothing after
      it, or a user handler (sendMessage, or pickImage through analyzePhoto),
      whose next statement is `setIsLoading(false)`. */
  datatype Origin = Greeting | UserTurn

  /** Which template a gateway call was built from, with the input that
      fills its last slot: generateDogResponse's chat template around a
      line, or analyzePhoto's photo template around a payload. */
  datatype Query = ChatQuery(userInput: string) | PhotoQuery(base64Image: string)

  datatype Request = Request(origin: Origin, query: Query)

  /** The text sent to the gateway for a query, on the screen of profile `p`. */
  function Prompt(p: DogProfile, q: Query): string
  {
    match q
    case ChatQuery(u) => ChatPrompt(p, u)
    case PhotoQuery(b) => PhotoPrompt(p, b)
  }

  /** The prompt text determines the query: the gateway can tell a chat
      call from a photo call and read back the input of either. */
  lemma PromptDeterminesQuery(p: DogProfile, q1: Query, q2: Query)
    requires Prompt(p, q1) == Prompt(p, q2)
    ensures q1 == q2
  {
    match q1
    case ChatQuery(u1) =>
      match q2 {
        case ChatQuery(u2) => ChatPromptDeterminesInput(p, u1, u2);
        case PhotoQuery(b2) => ChatAndPhotoPromptsDiffer(p, u1, b2);
      }
    case PhotoQuery(b1) =>
      match q2 {
        case ChatQuery(u2) => ChatAndPhotoPromptsDiffer(p, u2, b1);
        case PhotoQuery(b2) => PhotoPromptDeterminesPayload(p, b1, b2);
      }
  }

  datatype ChatState = ChatState(
    messages: seq<Message>,
    inputText: string,
    isLoading: bool,
    inFlight: seq<Request>)

  /** The text of the user message that carries a picked photo. */
  const PhotoCaption := "Here's a photo of you!"

  function UserText(text: string): Message
  {
    Message(text, User, None)
  }

  function UserPhoto(uri: string): Message
  {
    Message(PhotoCaption, User, Some(uri))
  }

  function DogText(text: string): Message
  {
    Message(text, Dog, None)
  }

  // ---------------------------------------------------------------------
  // The handlers, as functions of the state
  // ---------------------------------------------------------------------

  /** The screen once mounted: empty transcript and input, not busy, and
      the opening request of the mount effect outstanding. The effect calls
      generateDogResponse without touching `isLoading`. */
  function Mounted(p: DogProfile): ChatState
  {
    ChatState([], "", false, [Request(Greeting, ChatQuery(GreetingLine(p)))])
  }

  /** The text field's onChangeText; the field is not editable while busy. */
  function TypeStep(s: ChatState, text: string): (r: ChatState)
    ensures r.messages == s.messages && r.isLoading == s.isLoading && r.inFlight == s.inFlight
    ensures r.inputText == if s.isLoading then s.inputText else text
  {
    if s.isLoading then s else s.(inputText := text)
  }

  /** sendMessage up to its await. Input that is all whitespace, or a busy
      screen, changes nothing. Otherwise the untrimmed input becomes a user
      message, the field is cleared, the screen is busy, and a chat call
      for that input is sent. */
  function SendMessageStep(s: ChatState): (r: ChatState)
    ensures AllWhitespace(s.inputText) || s.isLoading ==> r == s
    ensures !AllWhitespace(s.inputText) && !s.isLoading ==>
              && r.messages == s.messages + [UserText(s.inputText)]
              && r.inputText == "" && r.isLoading
              && r.inFlight == s.inFlight + [Request(UserTurn, ChatQuery(s.inputText))]
  {
    if Trim(s.inputText) == "" || s.isLoading then s
    else ChatState(s.messages + [UserText(s.inputText)], "", true,
                   s.inFlight + [Request(UserTurn, ChatQuery(s.inputText))])
  }

  /** analyzePhoto up to its await: a missing or empty payload sends
      nothing; otherwise a photo call for the payload is sent. */
  function AnalyzePhotoStep(s: ChatState, base64Image: Option<string>): (r: ChatState)
    ensures !Truthy(base64Image) ==> r == s
    ensures Truthy(base64Image) ==>
              r == s.(inFlight := s.inFlight + [Request(UserTurn, PhotoQuery(base64Image.value))])
  {
    if base64Image.None? || base64Image.value == "" then s
    else s.(inFlight := s.inFlight + [Request(UserTurn, PhotoQuery(base64Image.value))])
  }

  /** pickImage up to the await inside analyzePhoto. A busy screen ignores
      it. Otherwise it is busy while the picker is open; a cancelled pick,
      no assets or no payload leave the transcript alone and end with the
      flag cleared again, so the state is as before. A usable pick appends
      the photo message and sends a photo call, still busy. */
  function PickImageStep(s: ChatState, result: PickerResult): (r: ChatState)
    ensures s.isLoading || !Picked(result) || !Truthy(FirstAsset(result).base64) ==> r == s
    ensures !s.isLoading && Picked(result) && Truthy(FirstAsset(result).base64) ==>
              && r.messages == s.messages + [UserPhoto(FirstAsset(result).uri)]
              && r.isLoading && r.inputText == s.inputText
              && r.inFlight == s.inFlight + [Request(UserTurn, PhotoQuery(FirstAsset(result).base64.value))]
  {
    if s.isLoading then s
    else if Picked(result) && Truthy(FirstAsset(result).base64) then
      var asset := FirstAsset(result);
      AnalyzePhotoStep(s.(isLoading := true, messages := s.messages + [UserPhoto(asset.uri)]), asset.base64)
    else s
  }

  /** The request at `i` settles. A reply becomes one dog message, and if a
      user handler was waiting it clears the busy flag. A rejection is not
      caught anywhere: no message is added and the flag stays as it is. */
  function AnswerStep(s: ChatState, i: nat, reply: Reply): (r: ChatState)
    requires i < |s.inFlight|
    ensures r.inFlight == s.inFlight[..i] + s.inFlight[i + 1..]
    ensures r.inputText == s.inputText
    ensures reply.Replied? ==> r.messages == s.messages + [DogText(reply.text)]
                               && r.isLoading == (s.isLoading && s.inFlight[i].origin == Greeting)
    ensures reply.Failed? ==> r.messages == s.messages && r.isLoading == s.isLoading
  {
    var rest := s.inFlight[..i] + s.inFlight[i + 1..];
    match reply
    case Replied(text) =>
      ChatState(s.messages + [DogText(text)], s.inputText,
                if s.inFlight[i].origin == UserTurn then false else s.isLoading, rest)
    case Failed => s.(inFlight := rest)
  }

  /** What can happen to the screen: typing, the two buttons, and the
      settling of outstanding request number `index`. */
  datatype Event =
    | Typing(text: string)
    | SendPressed
    | PhotoPressed(result: PickerResult)
    | Answered(index: nat, reply: Reply)

  /** One event. An answer to a request that is not outstanding cannot
      happen; it is read as no change. */
  function Step(s: ChatState, e: Event): ChatState
  {
    match e
    case Typing(text) => TypeStep(s, text)
    case SendPressed => SendMessageStep(s)
    case PhotoPressed(result) => PickImageStep(s, result)
    case Answered(i, reply) => if i < |s.inFlight| then AnswerStep(s, i, reply) else s
  }

  function Run(s: ChatState, evs: seq<Event>): ChatState
    decreases |evs|
  {
    if evs == [] then s else Run(Step(s, evs[0]), evs[1..])
  }

  /** Each event adds at most one message, at the end, and never alters
      the earlier ones. */
  lemma StepAppendOnly(s: ChatState, e: Event)
    ensures s.messages <= Step(s, e).messages && |Step(s, e).messages| <= |s.messages| + 1
  {
  }

  // ---------------------------------------------------------------------
  // Single flight
  // ---------------------------------------------------------------------

  function CountOrigin(rs: seq<Request>, o: Origin): nat
  {
    if rs == [] then 0 else (if rs[0].origin == o then 1 else 0) + CountOrigin(rs[1..], o)
  }

  lemma {:induction false} CountConcat(a: seq<Request>, b: seq<Request>, o: Origin)
    ensures CountOrigin(a + b, o) == CountOrigin(a, o) + CountOrigin(b, o)
  {
    if a == [] {
      assert a + b == b;
    } else {
      assert (a + b)[1..] == a[1..] + b;
      CountConcat(a[1..], b, o);
    }
  }

  lemma CountRemove(rs: seq<Request>, i: nat, o: Origin)
    requires i < |rs|
    ensures CountOrigin(rs[..i] + rs[i + 1..], o) + (if rs[i].origin == o then 1 else 0) == CountOrigin(rs, o)
  {
    assert rs == rs[..i] + ([rs[i]] + rs[i + 1..]);
    CountConcat(rs[..i], [rs[i]] + rs[i + 1..], o);
    CountConcat([rs[i]], rs[i + 1..], o);
    CountConcat(rs[..i], rs[i + 1..], o);
    assert [rs[i]][1..] == [];
  }

  /** At most one user exchange is outstanding, and while it is the screen
      is busy; the opening exchange is issued at most once. */
  ghost predicate SingleFlight(s: ChatState)
  {
    && CountOrigin(s.inFlight, UserTurn) <= 1
    && (CountOrigin(s.inFlight, UserTurn) == 1 ==> s.isLoading)
    && CountOrigin(s.inFlight, Greeting) <= 1
  }

  lemma MountedIsSingleFlight(p: DogProfile)
    ensures SingleFlight(Mounted(p)) && CountOrigin(Mounted(p).inFlight, UserTurn) == 0
  {
  }

  lemma StepKeepsSingleFlight(s: ChatState, e: Event)
    requires SingleFlight(s)
    ensures SingleFlight(Step(s, e))
  {
    var r := Step(s, e);
    match e
    case Typing(_) =>
    case SendPressed =>
      if r != s {
        CountConcat(s.inFlight, [Request(UserTurn, ChatQuery(s.inputText))], UserTurn);
        CountConcat(s.inFlight, [Request(UserTurn, ChatQuery(s.inputText))], Greeting);
      }
    case PhotoPressed(result) =>
      if r != s {
        var req := Request(UserTurn, PhotoQuery(FirstAsset(result).base64.value));
        CountConcat(s.inFlight, [req], UserTurn);
        CountConcat(s.inFlight, [req], Greeting);
      }
    case Answered(i, _) =>
      if i < |s.inFlight| {
        CountRemove(s.inFlight, i, UserTurn);
        CountRemove(s.inFlight, i, Greeting);
      }
  }

  /** Single flight holds after any sequence of events from mounting. */
  lemma {:induction false} RunKeepsSingleFlight(s: ChatState, evs: seq<Event>)
    requires SingleFlight(s)
    ensures SingleFlight(Run(s, evs))
    decreases |evs|
  {
    if evs != [] {
      StepKeepsSingleFlight(s, evs[0]);
      RunKeepsSingleFlight(Step(s, evs[0]), evs[1..]);
    }
  }

  // ---------------------------------------------------------------------
  // Properties of the transcript
  // ---------------------------------------------------------------------

  /** The transcript is append-only: after any events the old transcript
      is a prefix of the new one. */
  lemma {:induction false} RunAppendOnly(s: ChatState, evs: seq<Event>)
    ensures s.messages <= Run(s, evs).messages
    decreases |evs|
  {
    if evs != [] {
      StepAppendOnly(s, evs[0]);
      RunAppendOnly(Step(s, evs[0]), evs[1..]);
    }
  }

  lemma {:induction false} RunConcat(s: ChatState, a: seq<Event>, b: seq<Event>)
    ensures Run(s, a + b) == Run(Run(s, a), b)
    decreases |a|
  {
    if a == [] {
      assert a + b == b;
    } else {
      assert (a + b)[1..] == a[1..] + b;
      RunConcat(Step(s, a[0]), a[1..], b);
    }
  }

  lemma RunTwo(s: ChatState, e0: Event, e1: Event)
    ensures Run(s, [e0, e1]) == Step(Step(s, e0), e1)
  {
    var s1 := Step(s, e0);
    assert [e0, e1][1..] == [e1];
    assert Run(s, [e0, e1]) == Run(s1, [e1]);
    assert [e1][1..] == [];
    assert Run(s1, [e1]) == Run(Step(s1, e1), []);
  }

  lemma RunThree(s: ChatState, e0: Event, e1: Event, e2: Event)
    ensures Run(s, [e0, e1, e2]) == Step(Step(Step(s, e0), e1), e2)
  {
    assert [e0, e1, e2][1..] == [e1, e2];
    assert Run(s, [e0, e1, e2]) == Run(Step(s, e0), [e1, e2]);
    RunTwo(Step(s, e0), e1, e2);
  }

  /** While busy, typing, Send and Photo change nothing. */
  lemma BusyIgnoresInput(s: ChatState, text: string, result: PickerResult)
    requires s.isLoading
    ensures Step(s, Typing(text)) == s
    ensures Step(s, SendPressed) == s
    ensures Step(s, PhotoPressed(result)) == s
  {
  }

  /** Sending an empty or blank input appends nothing and changes nothing. */
  lemma BlankInputIgnored(s: ChatState)
    ensures SendMessageStep(s.(inputText := "")) == s.(inputText := "")
    ensures SendMessageStep(s.(inputText := "   ")) == s.(inputText := "   ")
    ensures SendMessageStep(s.(inputText := " \t\n\U{3000}")) == s.(inputText := " \t\n\U{3000}")
  {
    assert AllWhitespace("   ");
    assert AllWhitespace(" \t\n\U{3000}");
  }

  /** Typing a non-blank message and pressing Send on an idle screen: one
      user message with the untrimmed text, the field cleared, busy, and a
      chat call for the text appended to what was outstanding. */
  lemma TypeAndSend(s: ChatState, text: string)
    requires !s.isLoading && !AllWhitespace(text)
    ensures Step(Step(s, Typing(text)), SendPressed)
            == ChatState(s.messages + [UserText(text)], "", true, s.inFlight + [Request(UserTurn, ChatQuery(text))])
  {
  }

  /** Settling the newest request, issued by a user handler. */
  lemma AnswerNewest(s: ChatState, req: Request, reply: Reply)
    requires req.origin == UserTurn
    ensures var s' := s.(inFlight := s.inFlight + [req]);
            && Step(s', Answered(|s.inFlight|, reply)).inFlight == s.inFlight
            && (reply.Replied? ==>
                  Step(s', Answered(|s.inFlight|, reply)) == s.(messages := s.messages + [DogText(reply.text)], isLoading := false))
            && (reply.Failed? ==> Step(s', Answered(|s.inFlight|, reply)) == s)
  {
    var s' := s.(inFlight := s.inFlight + [req]);
    assert s'.inFlight[..|s.inFlight|] + s'.inFlight[|s.inFlight| + 1..] == s.inFlight;
  }

  /** A typed, non-blank message that the gateway answers: the transcript
      grows by exactly the user's untrimmed text and then the dog's reply;
      the field is cleared and the screen is idle again; whatever else was
      outstanding is still outstanding. */
  lemma TextExchange(s: ChatState, text: string, answer: string)
    requires !s.isLoading && !AllWhitespace(text)
    ensures var r := Run(s, [Typing(text), SendPressed, Answered(|s.inFlight|, Replied(answer))]);
            && r.messages == s.messages + [UserText(text), DogText(answer)]
            && r.inputText == "" && !r.isLoading && r.inFlight == s.inFlight
  {
    RunThree(s, Typing(text), SendPressed, Answered(|s.inFlight|, Replied(answer)));
    TypeAndSend(s, text);
    AnswerNewest(ChatState(s.messages + [UserText(text)], "", true, s.inFlight),
                 Request(UserTurn, ChatQuery(text)), Replied(answer));
    AppendTwo(s.messages, UserText(text), DogText(answer));
  }

  /** A typed, non-blank message whose gateway call is rejected: only the
      user's message is added and the screen stays busy with nothing
      outstanding for it. */
  lemma TextExchangeFails(s: ChatState, text: string)
    requires !s.isLoading && !AllWhitespace(text)
    ensures var r := Run(s, [Typing(text), SendPressed, Answered(|s.inFlight|, Failed)]);
            && r.messages == s.messages + [UserText(text)]
            && r.inputText == "" && r.isLoading && r.inFlight == s.inFlight
  {
    RunThree(s, Typing(text), SendPressed, Answered(|s.inFlight|, Failed));
    TypeAndSend(s, text);
    AnswerNewest(ChatState(s.messages + [UserText(text)], "", true, s.inFlight),
                 Request(UserTurn, ChatQuery(text)), Failed);
  }

  /** A usable photo that the gateway answers: the photo message, then the
      dog's reply; idle again. */
  lemma PhotoExchange(s: ChatState, result: PickerResult, answer: string)
    requires !s.isLoading && Payload(result).Some?
    ensures var r := Run(s, [PhotoPressed(result), Answered(|s.inFlight|, Replied(answer))]);
            && r.messages == s.messages + [UserPhoto(FirstAsset(result).uri), DogText(answer)]
            && r.inputText == s.inputText && !r.isLoading && r.inFlight == s.inFlight
  {
    RunTwo(s, PhotoPressed(result), Answered(|s.inFlight|, Replied(answer)));
    AnswerNewest(s.(messages := s.messages + [UserPhoto(FirstAsset(result).uri)], isLoading := true),
                 Request(UserTurn, PhotoQuery(Payload(result).value)), Replied(answer));
    AppendTwo(s.messages, UserPhoto(FirstAsset(result).uri), DogText(answer));
  }

  /** The payload test of the picked result decides the photo button's
      effect on an idle screen: without a payload nothing changes; with
      one, the photo message is appended, the screen is busy and exactly
      the photo call for that payload is sent. */
  lemma PayloadIsWhatPickSends(s: ChatState, r: PickerResult)
    requires !s.isLoading
    ensures Payload(r).None? ==> PickImageStep(s, r) == s
    ensures Payload(r).Some? ==>
              PickImageStep(s, r) == s.(messages := s.messages + [UserPhoto(FirstAsset(r).uri)], isLoading := true,
                                        inFlight := s.inFlight + [Request(UserTurn, PhotoQuery(Payload(r).value))])
  {
  }

  /** On an idle screen that keeps single flight, every outstanding call is
      the greeting: it is the only one that can settle while the picker
      is open. */
  lemma IdleOnlyGreetingOut(s: ChatState)
    requires SingleFlight(s) && !s.isLoading
    ensures forall i :: 0 <= i < |s.inFlight| ==> s.inFlight[i].origin == Greeting
  {
    forall i | 0 <= i < |s.inFlight| ensures s.inFlight[i].origin == Greeting {
      CountRemove(s.inFlight, i, UserTurn);
    }
  }

  /** pickImage in the order the code runs it: the press sets the busy flag,
      the greeting `i` settles while the picker is open, then the pick's
      outcome is applied (the photo message and call, or the flag cleared). */
  function GreetingDuringPicker(s: ChatState, i: nat, reply: Reply, r: PickerResult): ChatState
    requires i < |s.inFlight|
  {
    var settled := AnswerStep(s.(isLoading := true), i, reply);
    if Picked(r) && Truthy(FirstAsset(r).base64) then
      AnalyzePhotoStep(settled.(messages := settled.messages + [UserPhoto(FirstAsset(r).uri)]), FirstAsset(r).base64)
    else settled.(isLoading := false)
  }

  /** Collapsing the picker's await into the press loses nothing: the
      greeting settling while the picker is open gives the same state as
      the greeting settling just before the press. */
  lemma GreetingDuringPickerCommutes(s: ChatState, i: nat, reply: Reply, r: PickerResult)
    requires !s.isLoading && i < |s.inFlight| && s.inFlight[i].origin == Greeting
    ensures GreetingDuringPicker(s, i, reply, r) == PickImageStep(AnswerStep(s, i, reply), r)
  {
  }

  /** After a rejected user exchange the screen is stuck: whatever happens
      next it stays busy, the input is never cleared or changed, no user
      message is ever added, and only the opening line can still arrive. */
  lemma {:induction false} StuckForever(s: ChatState, evs: seq<Event>)
    requires s.isLoading && CountOrigin(s.inFlight, UserTurn) == 0
    ensures var r := Run(s, evs);
            && r.isLoading && CountOrigin(r.inFlight, UserTurn) == 0 && r.inputText == s.inputText
            && forall k :: |s.messages| <= k < |r.messages| ==> r.messages[k].sender == Dog
    decreases |evs|
  {
    if evs != [] {
      var s1 := Step(s, evs[0]);
      StepAppendOnly(s, evs[0]);
      if evs[0].Answered? && evs[0].index < |s.inFlight| {
        CountRemove(s.inFlight, evs[0].index, UserTurn);
      }
      StuckForever(s1, evs[1..]);
      var r := Run(s1, evs[1..]);
      RunAppendOnly(s1, evs[1..]);
      forall k | |s.messages| <= k < |r.messages| ensures r.messages[k].sender == Dog {
        if k < |s1.messages| {
          assert r.messages[k] == s1.messages[k];
        }
      }
    }
  }

  /** A rejected send leaves the screen stuck for good. */
  lemma FailedSendSticks(s: ChatState, text: string, evs: seq<Event>)
    requires SingleFlight(s) && !s.isLoading && !AllWhitespace(text)
    ensures var s3 := Run(s, [Typing(text), SendPressed, Answered(|s.inFlight|, Failed)]);
            && Run(s3, evs).isLoading
            && forall k :: |s3.messages| <= k < |Run(s3, evs).messages| ==> Run(s3, evs).messages[k].sender == Dog
  {
    TextExchangeFails(s, text);
    var s3 := Run(s, [Typing(text), SendPressed, Answered(|s.inFlight|, Failed)]);
    StuckForever(s3, evs);
  }

  // ---------------------------------------------------------------------
  // A sequential conversation
  // ---------------------------------------------------------------------

  /** One exchange issued after the previous one has settled: typed text or
      a picked photo, and the gateway's answer. */
  datatype Turn = TextTurn(text: string, answer: string) | PhotoTurn(result: PickerResult, answer: string)

  predicate Accepted(t: Turn)
  {
    match t
    case TextTurn(text, _) => !AllWhitespace(text)
    case PhotoTurn(result, _) => Payload(result).Some?
  }

  function TurnEvents(t: Turn): seq<Event>
  {
    match t
    case TextTurn(text, answer) => [Typing(text), SendPressed, Answered(0, Replied(answer))]
    case PhotoTurn(result, answer) => [PhotoPressed(result), Answered(0, Replied(answer))]
  }

  function TurnMessages(t: Turn): seq<Message>
    requires Accepted(t)
  {
    match t
    case TextTurn(text, answer) => [UserText(text), DogText(answer)]
    case PhotoTurn(result, answer) => [UserPhoto(FirstAsset(result).uri), DogText(answer)]
  }

  function Events(ts: seq<Turn>): seq<Event>
  {
    if ts == [] then [] else TurnEvents(ts[0]) + Events(ts[1..])
  }

  function Transcript(ts: seq<Turn>): (m: seq<Message>)
    requires forall i :: 0 <= i < |ts| ==> Accepted(ts[i])
    ensures |m| == 2 * |ts|
  {
    if ts == [] then [] else TurnMessages(ts[0]) + Transcript(ts[1..])
  }

  /** One accepted turn from an idle screen with nothing outstanding. */
  lemma OneTurn(s: ChatState, t: Turn)
    requires !s.isLoading && s.inFlight == [] && Accepted(t)
    ensures var r := Run(s, TurnEvents(t));
            r.messages == s.messages + TurnMessages(t) && !r.isLoading && r.inFlight == []
  {
    match t {
      case TextTurn(text, answer) =>
        TextExchange(s, text, answer);
      case PhotoTurn(result, answer) =>
        PhotoExchange(s, result, answer);
    }
  }

  /** Accepted exchanges issued one after another, each answered before
      the next: every turn adds its user message then its dog message, in
      call order, and the screen ends idle with nothing outstanding. */
  lemma {:induction false} SequentialTurns(s: ChatState, ts: seq<Turn>)
    requires !s.isLoading && s.inFlight == []
    requires forall i :: 0 <= i < |ts| ==> Accepted(ts[i])
    ensures var r := Run(s, Events(ts));
            r.messages == s.messages + Transcript(ts) && !r.isLoading && r.inFlight == []
    decreases |ts|
  {
    if ts == [] {
      assert s.messages + [] == s.messages;
    } else {
      var s1 := FirstTurn(s, ts);
      SequentialTurns(s1, ts[1..]);
      TranscriptCons(ts);
      AppendAssoc(s.messages, TurnMessages(ts[0]), Transcript(ts[1..]));
    }
  }

  lemma TranscriptCons(ts: seq<Turn>)
    requires ts != [] && forall i :: 0 <= i < |ts| ==> Accepted(ts[i])
    ensures Transcript(ts) == TurnMessages(ts[0]) + Transcript(ts[1..])
  {
  }

  lemma AppendTwo(a: seq<Message>, x: Message, y: Message)
    ensures (a + [x]) + [y] == a + [x, y]
  {
  }

  lemma AppendAssoc(a: seq<Message>, b: seq<Message>, c: seq<Message>)
    ensures a + (b + c) == (a + b) + c
  {
  }

  /** The first of several turns, and the state it leaves for the rest. */
  lemma FirstTurn(s: ChatState, ts: seq<Turn>) returns (s1: ChatState)
    requires !s.isLoading && s.inFlight == [] && ts != [] && Accepted(ts[0])
    ensures Run(s, Events(ts)) == Run(s1, Events(ts[1..]))
    ensures s1.messages == s.messages + TurnMessages(ts[0]) && !s1.isLoading && s1.inFlight == []
  {
    RunConcat(s, TurnEvents(ts[0]), Events(ts[1..]));
    OneTurn(s, ts[0]);
    s1 := Run(s, TurnEvents(ts[0]));
  }

  /** The opening line arriving on a freshly mounted screen. */
  lemma GreetingArrives(p: DogProfile, greeting: string)
    ensures Run(Mounted(p), [Answered(0, Replied(greeting))]) == ChatState([DogText(greeting)], "", false, [])
  {
    var s0 := Mounted(p);
    var s1 := Step(s0, Answered(0, Replied(greeting)));
    assert [Answered(0, Replied(greeting))][1..] == [];
    assert Run(s0, [Answered(0, Replied(greeting))]) == Run(s1, []);
  }

  /** A whole conversation: the opening line answered, then N accepted
      exchanges answered in turn, gives 2N + 1 messages, the first the dog's
      opening line and then user and dog alternating in call order. */
  lemma ConversationLength(p: DogProfile, greeting: string, ts: seq<Turn>)
    requires forall i :: 0 <= i < |ts| ==> Accepted(ts[i])
    ensures var r := Run(Mounted(p), [Answered(0, Replied(greeting))] + Events(ts));
            && |r.messages| == 2 * |ts| + 1
            && r.messages == [DogText(greeting)] + Transcript(ts)
            && forall k :: 0 < k < |r.messages| ==> r.messages[k].sender == (if k % 2 == 1 then User else Dog)
  {
    RunConcat(Mounted(p), [Answered(0, Replied(greeting))], Events(ts));
    GreetingArrives(p, greeting);
    var s1 := ChatState([DogText(greeting)], "", false, []);
    SequentialTurns(s1, ts);
    GreetingThenAlternating(greeting, ts);
  }

  lemma GreetingThenAlternating(greeting: string, ts: seq<Turn>)
    requires forall i :: 0 <= i < |ts| ==> Accepted(ts[i])
    ensures var m := [DogText(greeting)] + Transcript(ts);
            forall k :: 0 < k < |m| ==> m[k].sender == (if k % 2 == 1 then User else Dog)
  {
    TranscriptAlternates(ts);
    var m := [DogText(greeting)] + Transcript(ts);
    forall k | 0 < k < |m| ensures m[k].sender == (if k % 2 == 1 then User else Dog) {
      assert m[k] == Transcript(ts)[k - 1];
      assert (k - 1) % 2 == 0 <==> k % 2 == 1;
    }
  }

  lemma {:induction false} TranscriptAlternates(ts: seq<Turn>)
    requires forall i :: 0 <= i < |ts| ==> Accepted(ts[i])
    ensures forall k :: 0 <= k < |Transcript(ts)| ==> Transcript(ts)[k].sender == (if k % 2 == 0 then User else Dog)
    decreases |ts|
  {
    if ts != [] {
      TranscriptAlternates(ts[1..]);
      var head, tail := TurnMessages(ts[0]), Transcript(ts[1..]);
      forall k | 0 <= k < |Transcript(ts)|
        ensures Transcript(ts)[k].sender == (if k % 2 == 0 then User else Dog)
      {
        if k >= 2 {
          assert Transcript(ts)[k] == tail[k - 2];
        }
      }
    }
  }

  // ---------------------------------------------------------------------
  // The screen's state, updated in place
  // ---------------------------------------------------------------------

  class ChatScreen {
    const profile: DogProfile
    var messages: seq<Message>
    var inputText: string
    var isLoading: bool
    var inFlight: seq<Request>

    function State(): ChatState
      reads this
    {
      ChatState(messages, inputText, isLoading, inFlight)
    }

    ghost predicate Valid()
      reads this
    {
      SingleFlight(State())
    }

    /** Mounting with the profile from the route, then the mount effect,
        which issues the opening request without setting `isLoading`. */
    constructor (dogProfile: DogProfile)
      ensures profile == dogProfile
      ensures Valid() && State() == Mounted(dogProfile)
      ensures messages == [] && inputText == "" && !isLoading
    {
      profile := dogProfile;
      messages := [];
      inputText := "";
      isLoading := false;
      inFlight := [];
      new;
      GenerateDogResponse(Greeting, GreetingLine(dogProfile));
    }

    /** generateDogResponse up to its await: a chat call for the input is
        sent on behalf of `origin`; its text is
        `Prompt(profile, ChatQuery(userInput))`. Only the mount effect and
        sendMessage call it, the latter after setting the busy flag. */
    method GenerateDogResponse(origin: Origin, userInput: string)
      requires origin == UserTurn ==> isLoading
      modifies this
      ensures inFlight == old(inFlight) + [Request(origin, ChatQuery(userInput))]
      ensures messages == old(messages) && inputText == old(inputText) && isLoading == old(isLoading)
    {
      inFlight := inFlight + [Request(origin, ChatQuery(userInput))];
    }

    method OnChangeText(text: string)
      requires Valid()
      modifies this
      ensures Valid() && State() == TypeStep(old(State()), text)
    {
      if !isLoading {
        inputText := text;
      }
    }

    method SendMessage()
      requires Valid()
      modifies this
      ensures Valid() && State() == SendMessageStep(old(State()))
      ensures old(messages) <= messages
      ensures !AllWhitespace(old(inputText)) && !old(isLoading) ==> CountOrigin(inFlight, UserTurn) == 1
    {
      if Trim(inputText) == "" || isLoading {
        return;
      }
      ghost var before := State();
      isLoading := true;
      messages := messages + [UserText(inputText)];
      var userInput := inputText;
      inputText := "";
      GenerateDogResponse(UserTurn, userInput);
      StepKeepsSingleFlight(before, SendPressed);
      CountConcat(before.inFlight, [Request(UserTurn, ChatQuery(userInput))], UserTurn);
    }

    /** analyzePhoto up to its await; the text of the call is
        `Prompt(profile, PhotoQuery(..))` of the payload. Only pickImage
        calls it, while the busy flag is set. */
    method AnalyzePhoto(base64Image: Option<string>)
      requires isLoading
      modifies this
      ensures State() == AnalyzePhotoStep(old(State()), base64Image)
    {
      if base64Image.None? || base64Image.value == "" {
        return;
      }
      inFlight := inFlight + [Request(UserTurn, PhotoQuery(base64Image.value))];
    }

    /** pickImage up to the await in analyzePhoto; `result` is what the
        picker returned. */
    method PickImage(result: PickerResult)
      requires Valid()
      modifies this
      ensures Valid() && State() == PickImageStep(old(State()), result)
      ensures old(messages) <= messages
    {
      if isLoading {
        return;
      }
      ghost var before := State();
      isLoading := true;
      if !result.canceled && result.assets.Some? && |result.assets.value| > 0
         && result.assets.value[0].base64.Some? && result.assets.value[0].base64.value != "" {
        var asset := result.assets.value[0];
        messages := messages + [UserPhoto(asset.uri)];
        AnalyzePhoto(asset.base64);
      } else {
        isLoading := false;
      }
      StepKeepsSingleFlight(before, PhotoPressed(result));
    }

    /** The outstanding request at `index` settles with `reply`: the rest
        of generateDogResponse or analyzePhoto runs, and then, for a user
        handler, its `setIsLoading(false)`. A rejection skips all of it. */
    method Settle(index: nat, reply: Reply)
      requires Valid() && index < |inFlight|
      modifies this
      ensures Valid() && State() == AnswerStep(old(State()), index, reply)
      ensures old(messages) <= messages
    {
      ghost var before := State();
      var request := inFlight[index];
      inFlight := inFlight[..index] + inFlight[index + 1..];
      match reply {
        case Replied(text) =>
          messages := messages + [DogText(text)];
          if request.origin == UserTurn {
            isLoading := false;
          }
        case Failed =>
      }
      StepKeepsSingleFlight(before, Answered(index, reply));
    }
  }
}
