/**
 * The prompt templates of screens/ChatScreen.tsx. Each is a pure function
 * of the profile and the input, so the same profile and input always give
 * the same prompt. A template literal is written as the list of its pieces
 * (literal text and substitutions, in order) joined by Concat.
 */
module ChatPrompts {
  import opened Profile
  import opened JsText

  /** `dogProfile.personality.join(', ')`. */
  function PersonalityList(p: DogProfile): string
  {
    Join(p.personality, ", ")
  }

  const ChatIntro := "You are a dog named "
  const ChatBreed := ". You are a "
  const ChatAge := " and "
  const ChatTraits := " years old. Your personality traits are "
  const ChatActivity := ". Your favorite activity is "
  const ChatTreat := " and your favorite treat is "
  const ChatRespond := ". Respond to the following message from your owner in a playful, dog-like manner: "
  const Quote := "\""

  /** The pieces of generateDogResponse's template: the persona, then the
      input in double quotes. */
  function ChatParts(p: DogProfile, userInput: string): seq<string>
  {
    [ChatIntro, p.name, ChatBreed, p.breed, ChatAge, p.age, ChatTraits, PersonalityList(p),
     ChatActivity, p.favoriteActivity, ChatTreat, p.favoriteTreat, ChatRespond,
     Quote, userInput, Quote]
  }

  /** The prompt generateDogResponse sends to the gateway. */
  function ChatPrompt(p: DogProfile, userInput: string): string
  {
    Concat(ChatParts(p, userInput))
  }

  /** The line the mount effect passes to generateDogResponse. */
  function GreetingLine(p: DogProfile): string
  {
    "Woof! Hi, I'm " + p.name + ". Let's chat!"
  }

  const PhotoIntro :=
    "You are an AI trained to analyze "
    + "dog emotions and behavior in images. "
    + "Analyze this image of a dog and describe what you see, focusing on the dog's emotions, "
    + "body language, and any notable elements in the surroundings. "
    + "Then, roleplay as "
  const PhotoBreed := ", a "
  const PhotoTraits := " dog with the following personality traits: "
  const PhotoRespond :=
    ". Respond as if you are the dog in the photo, expressing how you feel "
    + "and what you're thinking based on the analysis. "
    + "Keep the response playful and dog-like.\n\n    "
  /** The marker line and the indentation of the payload line, as the
      template literal spells them. */
  const ImageMarker := "[IMAGE]\n    "

  /** The pieces of analyzePhoto's template: the analysis and role-play
      instructions, the marker, the payload. */
  function PhotoParts(p: DogProfile, base64Image: string): seq<string>
  {
    [PhotoIntro, p.name, PhotoBreed, p.breed, PhotoTraits, PersonalityList(p), PhotoRespond,
     ImageMarker, base64Image]
  }

  /** The prompt analyzePhoto sends to the gateway. */
  function PhotoPrompt(p: DogProfile, base64Image: string): string
  {
    Concat(PhotoParts(p, base64Image))
  }

  /** The chat prompt is its first thirteen pieces, then the input in
      double quotes. */
  lemma ChatPromptSplit(p: DogProfile, userInput: string)
    ensures ChatPrompt(p, userInput) == Concat(ChatParts(p, userInput)[..13]) + Quote + userInput + Quote
  {
    var parts := ChatParts(p, userInput);
    var head := parts[..14];
    assert parts == head + [userInput] + [Quote];
    ConcatSplit(head, userInput, [Quote]);
    ConcatPair(Quote, "");
    assert head == parts[..13] + [Quote] + [];
    ConcatSplit(parts[..13], Quote, []);
  }

  /** The chat prompt mentions every profile attribute it is built from. */
  lemma ChatPromptMentions(p: DogProfile, userInput: string)
    ensures var prompt := ChatPrompt(p, userInput);
            && Contains(prompt, p.name) && Contains(prompt, p.breed) && Contains(prompt, p.age)
            && Contains(prompt, PersonalityList(p))
            && Contains(prompt, p.favoriteActivity) && Contains(prompt, p.favoriteTreat)
  {
    var parts := ChatParts(p, userInput);
    ConcatContainsPart(parts, 1);
    ConcatContainsPart(parts, 3);
    ConcatContainsPart(parts, 5);
    ConcatContainsPart(parts, 7);
    ConcatContainsPart(parts, 9);
    ConcatContainsPart(parts, 11);
  }

  /** The chat prompt ends with the input wrapped in double quotes. */
  lemma ChatPromptQuotesInput(p: DogProfile, userInput: string)
    ensures EndsWith(ChatPrompt(p, userInput), "\"" + userInput + "\"")
  {
    ChatPromptSplit(p, userInput);
    EndsWithLast(Concat(ChatParts(p, userInput)[..13]), Quote, userInput, Quote);
  }

  /** The input can be read back from the chat prompt: for one profile, two
      inputs give the same prompt only if they are equal. */
  lemma ChatPromptDeterminesInput(p: DogProfile, u1: string, u2: string)
    requires ChatPrompt(p, u1) == ChatPrompt(p, u2)
    ensures u1 == u2
  {
    ChatPromptSplit(p, u1);
    ChatPromptSplit(p, u2);
    assert ChatParts(p, u1)[..13] == ChatParts(p, u2)[..13];
    FramedEqual(Concat(ChatParts(p, u1)[..13]) + Quote, u1, u2, Quote);
  }

  /** Only name, breed, age, traits, favourite activity and favourite treat
      reach the chat prompt; photos, weight, gender and allergies do not. */
  lemma ChatPromptUsesOnlyPersona(p: DogProfile, q: DogProfile, userInput: string)
    requires p.name == q.name && p.breed == q.breed && p.age == q.age
    requires p.personality == q.personality
    requires p.favoriteActivity == q.favoriteActivity && p.favoriteTreat == q.favoriteTreat
    ensures ChatPrompt(p, userInput) == ChatPrompt(q, userInput)
  {
  }

  /** The opening prompt is the chat prompt around the greeting line, so it
      ends with that line, quoted, and names the dog. */
  lemma GreetingPromptQuotesName(p: DogProfile)
    ensures EndsWith(ChatPrompt(p, GreetingLine(p)), "\"" + GreetingLine(p) + "\"")
    ensures Contains(ChatPrompt(p, GreetingLine(p)), p.name)
  {
    ChatPromptQuotesInput(p, GreetingLine(p));
    ChatPromptMentions(p, GreetingLine(p));
  }

  /** The photo prompt is its pieces up to the marker, the marker, then
      the payload. */
  lemma PhotoPromptSplit(p: DogProfile, base64Image: string)
    ensures var head := PhotoParts(p, base64Image)[..7];
            PhotoPrompt(p, base64Image) == Concat(head) + ImageMarker + base64Image
  {
    var parts := PhotoParts(p, base64Image);
    var head := parts[..7];
    assert parts == head + [ImageMarker] + [base64Image];
    ConcatSplit(head, ImageMarker, [base64Image]);
    ConcatPair(base64Image, "");
  }

  /** The photo prompt names the dog, its breed and its traits. */
  lemma PhotoPromptMentions(p: DogProfile, base64Image: string)
    ensures var prompt := PhotoPrompt(p, base64Image);
            Contains(prompt, p.name) && Contains(prompt, p.breed) && Contains(prompt, PersonalityList(p))
  {
    var parts := PhotoParts(p, base64Image);
    ConcatContainsPart(parts, 1);
    ConcatContainsPart(parts, 3);
    ConcatContainsPart(parts, 5);
  }

  /** The photo prompt ends with the `[IMAGE]` marker line followed by the
      payload. */
  lemma PhotoPromptEndsWithPayload(p: DogProfile, base64Image: string)
    ensures EndsWith(PhotoPrompt(p, base64Image), ImageMarker + base64Image)
  {
    PhotoPromptSplit(p, base64Image);
    EndsWithLast(Concat(PhotoParts(p, base64Image)[..7]), ImageMarker, base64Image, "");
    assert ImageMarker + base64Image + "" == ImageMarker + base64Image;
  }

  /** The payload can be read back from the photo prompt. */
  lemma PhotoPromptDeterminesPayload(p: DogProfile, b1: string, b2: string)
    requires PhotoPrompt(p, b1) == PhotoPrompt(p, b2)
    ensures b1 == b2
  {
    PhotoPromptSplit(p, b1);
    PhotoPromptSplit(p, b2);
    assert PhotoParts(p, b1)[..7] == PhotoParts(p, b2)[..7];
    FramedEqual(Concat(PhotoParts(p, b1)[..7]) + ImageMarker, b1, b2, "");
  }

  lemma IntrosDiffer()
    ensures |ChatIntro| > 9 && |PhotoIntro| > 9 && ChatIntro[9] == ' ' && PhotoIntro[9] == 'n'
  {
  }

  /** A chat prompt is never a photo prompt: they part at the tenth
      character ("You are a dog" against "You are an AI"). */
  lemma ChatAndPhotoPromptsDiffer(p: DogProfile, userInput: string, base64Image: string)
    ensures ChatPrompt(p, userInput) != PhotoPrompt(p, base64Image)
  {
    IntrosDiffer();
    ConcatIndexInHead(ChatParts(p, userInput), 9);
    ConcatIndexInHead(PhotoParts(p, base64Image), 9);
  }

  /** Selecting one more trait extends the trait list of both prompts by
      the separator and that trait. */
  lemma NewTraitExtendsList(p: DogProfile, t: string)
    requires p.personality != []
    ensures PersonalityList(p.(personality := p.personality + [t])) == PersonalityList(p) + ", " + t
  {
    JoinSnoc(p.personality, t, ", ");
  }
}
